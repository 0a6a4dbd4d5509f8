/** `AIToolMaker`: the package's entry point. It checks the key once, then
    validates each request against its allow-lists before branding and
    generating anything. */
module Facade {
  import opened Basics
  import opened Strings
  import opened Templates
  import opened Branding
  import opened Files
  import opened Generator

  /** `SUPPORTED_TOOLS`, in declared order. */
  const SupportedTools: seq<string> :=
    ["chatbot", "blog_generator", "data_analyzer", "sql_generator", "document_summarizer", "web_summarizer"]

  /** `SUPPORTED_OUTPUTS`. */
  const SupportedOutputs: seq<string> := ["streamlit", "website"]

  const DefaultModel: string := "gemini-2.0-flash"

  /** The `ValueError`s the facade raises. */
  datatype ToolError =
    | MissingApiKey
    | UnsupportedTool(toolType: string)
    | UnsupportedOutput(output: string)

  /** What a successful `create_tool` returns: the generator's result, or the
      status line when the application is launched. */
  datatype Created = Returned(generated: Generated) | Running(message: string)

  /** One record of the `get_tool_info` table. */
  datatype ToolInfo = ToolInfo(name: string, description: string, features: seq<string>)

  /** The `tool_descriptions` table of `get_tool_info`. */
  const ToolDescriptions: map<string, ToolInfo> := map[
    "chatbot" := ToolInfo("AI Chatbot Assistant", "Professional AI chatbot with conversation history",
      ["Streaming responses", "Download conversations", "Professional persona"]),
    "blog_generator" := ToolInfo("AI Blog Writer", "Generate well-structured blog posts with AI",
      ["Keyword optimization", "Word count control", "Markdown export"]),
    "data_analyzer" := ToolInfo("CSV Data Analyzer", "Ask questions about your CSV data using AI",
      ["CSV upload", "Natural language queries", "Data insights"]),
    "sql_generator" := ToolInfo("SQL Query Generator", "Generate SQL queries from natural language",
      ["Multiple SQL dialects", "Query explanations", "Expected output preview"]),
    "document_summarizer" := ToolInfo("Document Summarizer", "Summarize PDF and Word documents using AI",
      ["PDF support", "DOCX support", "Intelligent summarization"]),
    "web_summarizer" := ToolInfo("Website Summarizer", "Summarize website content using AI",
      ["URL scraping", "Markdown output", "Download summaries"])
  ]

  /** The checks `create_tool` makes before any side effect: the tool type
      first, so its error wins when both are wrong. */
  function Validate(toolType: string, output: string): (err: Option<ToolError>)
    ensures err.None? <==> toolType in SupportedTools && output in SupportedOutputs
    ensures toolType !in SupportedTools ==> err == Some(UnsupportedTool(toolType))
    ensures toolType in SupportedTools && output !in SupportedOutputs ==> err == Some(UnsupportedOutput(output))
  {
    if toolType !in SupportedTools then Some(UnsupportedTool(toolType))
    else if output !in SupportedOutputs then Some(UnsupportedOutput(output))
    else None
  }

  class AIToolMaker {
    const apiKey: string
    const model: string
    /** The provider as the facade keeps it, lower-cased. */
    const apiProvider: string
    const generator: ToolGenerator
    const branding: BrandingManager

    /** The field assignments of `__init__` once the key has been checked.
        The generator receives the provider exactly as given. */
    constructor (apiKey: string, model: string, apiProvider: string, logoDir: string)
      ensures this.apiKey == apiKey && this.model == model && this.apiProvider == Lower(apiProvider)
      ensures fresh(generator)
      ensures generator.apiKey == apiKey && generator.model == model && generator.apiProvider == apiProvider
      ensures branding == BrandingManager(logoDir)
    {
      this.apiKey := apiKey;
      this.model := model;
      this.apiProvider := Lower(apiProvider);
      this.generator := new ToolGenerator(apiKey, model, apiProvider);
      this.branding := BrandingManager(logoDir);
    }

    /** `AIToolMaker(api_key, model, api_provider)`: a missing or empty key is
        refused; otherwise a maker holding the key, the model, the
        lower-cased provider and a generator given the original provider.
        `logoDir` is where the branding manager looks for its default logo. */
    static method Create(apiKey: Option<string>, logoDir: string, model: string := DefaultModel, apiProvider: string := "gemini")
      returns (r: Result<AIToolMaker, ToolError>)
      ensures r.Failure? <==> !Truthy(apiKey)
      ensures r.Failure? ==> r.error == MissingApiKey
      ensures r.Success? ==>
        && fresh(r.value)
        && r.value.apiKey == apiKey.value && r.value.model == model
        && r.value.apiProvider == Lower(apiProvider)
        && r.value.generator.apiKey == apiKey.value && r.value.generator.model == model
        && r.value.generator.apiProvider == apiProvider
        && r.value.branding == BrandingManager(logoDir)
    {
      if !Truthy(apiKey) {
        return Failure(MissingApiKey);
      }
      var maker := new AIToolMaker(apiKey.value, model, apiProvider, logoDir);
      r := Success(maker);
    }

    /** `create_tool`: refuses an unsupported tool type or output kind without
        touching the file system; otherwise brands the tool and generates an
        application or a website. A launched application reports where it
        runs; a website ignores `run`. */
    method CreateTool(fs: FileSystem, toolType: string, output: string := "streamlit", run: bool := false,
                      name: Option<string> := None, logo: Option<string> := None, outputDir: Option<string> := None)
      returns (r: Result<Created, ToolError>)
      modifies fs
      ensures Validate(toolType, output).Some? ==>
        r == Failure(Validate(toolType, output).value) && fs.dirs == old(fs.dirs)
      ensures Validate(toolType, output).None? && output == "streamlit" ==>
        var brand := branding.ApplyBranding(toolType, name, logo, fs.sources);
        var dir := AppDir(toolType, outputDir);
        && fs.dirs == Install(old(fs.dirs), dir, generator.AppArtifacts(toolType, brand.name, brand.logo, fs.sources))
        && r == Success(
          if run then Running("Tool running at " + JoinPath(dir, PathOf(AppPy)))
          else Returned(Generated(dir, JoinPath(dir, PathOf(AppPy)), AppFiles)))
      ensures Validate(toolType, output).None? && output == "website" ==>
        var brand := branding.ApplyBranding(toolType, name, logo, fs.sources);
        var dir := SiteDir(toolType, outputDir);
        && fs.dirs == Install(old(fs.dirs), dir, generator.SiteArtifacts(toolType, brand.name, brand.logo, fs.sources))
        && r == Success(Returned(Generated(dir, JoinPath(dir, PathOf(IndexHtml)), SiteFiles)))
    {
      var err := Validate(toolType, output);
      if err.Some? {
        return Failure(err.value);
      }
      var brand := branding.ApplyBranding(toolType, name, logo, fs.sources);
      if output == "streamlit" {
        var result := generator.GenerateStreamlitTool(fs, toolType, brand.name, brand.logo, outputDir);
        if run {
          r := Success(Running("Tool running at " + result.entryPath));
        } else {
          r := Success(Returned(result));
        }
      } else {
        var result := generator.GenerateWebsite(fs, toolType, brand.name, brand.logo, outputDir);
        r := Success(Returned(result));
      }
    }

    /** `list_tools`: the supported tool types in declared order, six
        distinct names, exactly those `get_tool_info` describes. */
    function ListTools(): (tools: seq<string>)
      ensures tools == SupportedTools
      ensures |tools| == 6
      ensures forall i, j :: 0 <= i < j < |tools| ==> tools[i] != tools[j]
      ensures forall t :: t in tools <==> GetToolInfo(t).Some?
    {
      SupportedTools
    }

    /** `get_tool_info`: the table's record for a supported tool type, each
        with three features, and nothing for any other string. */
    function GetToolInfo(toolType: string): (info: Option<ToolInfo>)
      ensures info.Some? <==> toolType in SupportedTools
      ensures info.Some? ==> info.value == ToolDescriptions[toolType] && |info.value.features| == 3
    {
      if toolType in ToolDescriptions then Some(ToolDescriptions[toolType]) else None
    }
  }

  /** Every supported tool type has a default display name, and the name
      table describes no other tool type. */
  lemma SupportedToolsHaveDefaultNames()
    ensures forall t :: t in SupportedTools ==> t in DefaultNames
    ensures forall t :: t in DefaultNames ==> t in SupportedTools
  {
  }

  /** A request that passes validation names a tool type with its own
      application template and its own default name. */
  lemma ValidatedToolIsKnown(toolType: string, output: string)
    requires Validate(toolType, output).None?
    ensures GetTemplate(toolType, "streamlit") != NoTemplate
    ensures toolType in DefaultNames
  {
    SupportedToolsHaveDefaultNames();
  }

  /** A provider spelled "Gemini" selects the generic constant for the key
      module, while its lower-cased spelling, the one the facade keeps, would
      select the Gemini constant. */
  lemma GeminiSpellingMatters(provider: string, key: string)
    ensures provider == "Gemini" ==>
      && "API_KEY = '" <= ApiKeyFile(provider, key)
      && KeyConstant(Lower(provider)) == "GEMINI_API_KEY"
  {
    if provider == "Gemini" {
      assert Lower(provider) == "gemini";
    }
  }

  /** The key module a generation writes is composed from the generator's
      provider exactly as the generator holds it, which the facade passes on
      without lower-casing (`ApiKeyFile` is the text of `KeyModule`): a
      generator given "Gemini" writes the generic constant. */
  lemma ProviderCaseKept(g: ToolGenerator, toolType: string, name: string, logoPath: Option<string>, existing: set<string>)
    ensures g.AppArtifacts(toolType, name, logoPath, existing)[ApiKeyPy] == File(Composed(KeyModule(g.apiProvider, g.apiKey)))
    ensures g.apiProvider == "Gemini" ==>
      && "API_KEY = '" <= ApiKeyFile(g.apiProvider, g.apiKey)
      && KeyConstant(Lower(g.apiProvider)) == "GEMINI_API_KEY"
  {
    GeminiSpellingMatters(g.apiProvider, g.apiKey);
  }
}
