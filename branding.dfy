/** `BrandingManager`: the display name and logo a generated tool gets when
    the caller supplies none. Existence checks read a set of existing paths. */
module Branding {
  import opened Basics
  import opened Strings

  /** `DEFAULT_NAMES`: the display name of each tool type. */
  const DefaultNames: map<string, string> := map[
    "chatbot" := "AI Assistant Pro",
    "blog_generator" := "Blog AI Assistant",
    "data_analyzer" := "AI CSV Data Analyzer",
    "sql_generator" := "SQL Query Generator",
    "document_summarizer" := "PDF & Word Document Summarizer",
    "web_summarizer" := "Website Summarizer"
  ]

  /** The name of a tool type the table does not know. */
  const FallbackName: string := "AI Tool"

  /** The pair `apply_branding` returns: final name and final logo path. */
  datatype Brand = Brand(name: string, logo: Option<string>)

  /** A branding manager looks for its default logo in `logoDir`, the `logo`
      directory next to the installed package. */
  datatype BrandingManager = BrandingManager(logoDir: string) {

    /** The one default logo location that is ever consulted. */
    function DefaultLogo(): (path: string)
      ensures logoDir <= path && path[|logoDir|..] == "/default_logo.png"
    {
      JoinPath(logoDir, "default_logo.png")
    }

    /** `get_default_name`. */
    function GetDefaultName(toolType: string): (r: string)
      ensures toolType in DefaultNames ==> r == DefaultNames[toolType]
      ensures toolType !in DefaultNames ==> r == FallbackName
      ensures r != ""
    {
      if toolType in DefaultNames then DefaultNames[toolType] else FallbackName
    }

    /** `apply_branding`: a truthy name is kept verbatim, otherwise the table
        (or the fallback) supplies one; a truthy logo that exists is kept,
        otherwise the default logo is used if it exists, else there is none. */
    function ApplyBranding(toolType: string, name: Option<string>, logo: Option<string>, existing: set<string>): (b: Brand)
      ensures Truthy(name) ==> b.name == name.value
      ensures !Truthy(name) && toolType in DefaultNames ==> b.name == DefaultNames[toolType]
      ensures !Truthy(name) && toolType !in DefaultNames ==> b.name == FallbackName
      ensures b.name != ""
      ensures Truthy(logo) && logo.value in existing ==> b.logo == logo
      ensures !(Truthy(logo) && logo.value in existing) ==>
        (b.logo.Some? <==> DefaultLogo() in existing) && (b.logo.Some? ==> b.logo.value == DefaultLogo())
      ensures b.logo.Some? ==> b.logo.value in existing
    {
      var finalName := if Truthy(name) then name.value
        else if toolType in DefaultNames then DefaultNames[toolType] else FallbackName;
      var finalLogo := if Truthy(logo) && logo.value in existing then logo
        else if DefaultLogo() in existing then Some(DefaultLogo()) else None;
      Brand(finalName, finalLogo)
    }
  }

  /** `get_default_name(t)` is the name `apply_branding` picks when the caller
      gives no name (None or the empty string), whatever the logo. */
  lemma DefaultNameAgrees(m: BrandingManager, toolType: string, name: Option<string>, logo: Option<string>, existing: set<string>)
    requires !Truthy(name)
    ensures m.ApplyBranding(toolType, name, logo, existing).name == m.GetDefaultName(toolType)
  {
  }

  /** A custom logo that does not exist never reaches the result. */
  lemma MissingLogoDropped(m: BrandingManager, toolType: string, name: Option<string>, logo: string, existing: set<string>)
    requires logo !in existing
    ensures m.ApplyBranding(toolType, name, Some(logo), existing).logo != Some(logo)
  {
  }
}
