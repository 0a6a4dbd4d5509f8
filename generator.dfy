/** `ToolGenerator`: the files an application or a website generation writes
    into its output directory, the requirements manifest, the key file and the
    two readmes. */
module Generator {
  import opened Basics
  import opened Strings
  import opened Templates
  import opened Files

  // ----- Requirements manifest -----

  /** The two packages every application needs, in this order. */
  const BaseRequirements: seq<string> := ["streamlit>=1.28.0", "google-generativeai>=0.3.0"]

  /** The per-tool extras, as the generator's table holds them. */
  const ToolSpecific: map<string, seq<string>> := map[
    "data_analyzer" := ["pandas>=2.0.0"],
    "document_summarizer" := [
      "langchain>=0.1.0",
      "langchain-google-genai>=0.0.6",
      "langchain-community>=0.0.13",
      "pypdf>=3.17.0",
      "python-docx>=1.0.0",
      "faiss-cpu>=1.7.4"
    ],
    "web_summarizer" := ["requests>=2.31.0", "beautifulsoup4>=4.12.0"]
  ]

  /** Every base and extra requirement is one line. */
  lemma BaseAreLines()
    ensures AllSingleLines(BaseRequirements)
  {
    assert '\n' !in BaseRequirements[0];
    assert '\n' !in BaseRequirements[1];
  }

  lemma ShortExtrasAreLines(toolType: string)
    requires toolType in {"data_analyzer", "web_summarizer"}
    ensures AllSingleLines(ToolSpecific[toolType])
  {
    var extras := ToolSpecific[toolType];
    assert '\n' !in extras[0];
    if toolType == "web_summarizer" {
      assert '\n' !in extras[1];
    }
  }

  lemma DocumentExtrasAreLines()
    ensures AllSingleLines(ToolSpecific["document_summarizer"])
  {
    var extras := ToolSpecific["document_summarizer"];
    assert '\n' !in extras[0];
    assert '\n' !in extras[1];
    assert '\n' !in extras[2];
    assert '\n' !in extras[3];
    assert '\n' !in extras[4];
    assert '\n' !in extras[5];
  }

  /** The manifest's lines: the base packages, then the tool's extras in
      table order; a tool type without extras gets the base packages only. */
  function RequirementLines(toolType: string): (lines: seq<string>)
    ensures |lines| >= 2 && lines[..2] == BaseRequirements
    ensures toolType == "data_analyzer" ==> lines[2..] == ["pandas>=2.0.0"]
    ensures toolType == "web_summarizer" ==> lines[2..] == ["requests>=2.31.0", "beautifulsoup4>=4.12.0"]
    ensures toolType == "document_summarizer" ==> lines[2..] == ToolSpecific["document_summarizer"] && |lines| == 8
    ensures toolType !in {"data_analyzer", "web_summarizer", "document_summarizer"} ==> lines == BaseRequirements
    ensures AllSingleLines(lines)
    ensures forall i :: 0 <= i < |lines| ==> lines[i] != ""
  {
    var extras := if toolType in ToolSpecific then ToolSpecific[toolType] else [];
    BaseAreLines();
    if toolType == "document_summarizer" then
      DocumentExtrasAreLines();
      BaseRequirements + extras
    else if toolType in ToolSpecific then
      ShortExtrasAreLines(toolType);
      BaseRequirements + extras
    else
      BaseRequirements + extras
  }

  /** The text every manifest opens with: the two base packages, one per line. */
  const BaseManifest: string := BaseRequirements[0] + "\n" + BaseRequirements[1] + "\n"

  lemma BaseManifestLayout()
    ensures Terminated(BaseRequirements) == BaseManifest
  {
    assert BaseRequirements[1..][1..] == [];
  }

  /** A manifest whose lines open with the base packages opens with their text. */
  lemma {:induction false} ManifestOpensWithBase(lines: seq<string>)
    requires |lines| >= 2 && lines[..2] == BaseRequirements
    ensures BaseManifest <= Terminated(lines)
  {
    assert lines == BaseRequirements + lines[2..];
    TerminatedAppend(BaseRequirements, lines[2..]);
    BaseManifestLayout();
  }

  /** The text of `requirements.txt`: one line per requirement, each ended by
      a line break. */
  function Requirements(toolType: string): (text: string)
    ensures |text| > 0 && text[|text| - 1] == '\n'
  {
    var lines := RequirementLines(toolType);
    TerminatedEndsWithBreak(lines);
    Terminated(lines)
  }

  /** The manifest opens with the two base lines, reads back as exactly its
      requirement lines and holds one line break per requirement. */
  lemma RequirementsShape(toolType: string)
    ensures BaseManifest <= Requirements(toolType)
    ensures SplitLines(Requirements(toolType)) == RequirementLines(toolType)
    ensures Count(Requirements(toolType), '\n') == |RequirementLines(toolType)|
  {
    var lines := RequirementLines(toolType);
    ManifestOpensWithBase(lines);
    SplitTerminated(lines);
    TerminatedLineBreaks(lines);
  }

  // ----- Key file -----

  /** The constant the key file assigns, by exact (case-sensitive) provider. */
  function KeyConstant(provider: string): (c: string)
    ensures c == "GEMINI_API_KEY" <==> provider == "gemini"
    ensures c == "OPENAI_API_KEY" <==> provider == "openai"
    ensures c in {"GEMINI_API_KEY", "OPENAI_API_KEY", "API_KEY"}
  {
    if provider == "gemini" then "GEMINI_API_KEY"
    else if provider == "openai" then "OPENAI_API_KEY"
    else "API_KEY"
  }

  lemma KeyLineIsSingle(provider: string, key: string)
    requires SingleLine(key)
    ensures SingleLine(KeyConstant(provider) + " = '" + key + "'")
  {
    var c := KeyConstant(provider);
    assert SingleLine(c);
    var line := c + " = '" + key + "'";
    forall i | 0 <= i < |line| ensures line[i] != '\n' {
      if i >= |c| + 4 && i < |c| + 4 + |key| {
        assert line[i] == key[i - |c| - 4];
      }
    }
  }

  /** `_generate_api_key_file`: one assignment of the key to the provider's
      constant. */
  function ApiKeyFile(provider: string, key: string): (text: string)
    ensures |text| == |KeyConstant(provider)| + |key| + 6
    ensures KeyConstant(provider) + " = '" <= text
    ensures text[|KeyConstant(provider)| + 4..|text| - 2] == key
    ensures text[|text| - 2..] == "'\n"
  {
    KeyConstant(provider) + " = '" + key + "'\n"
  }

  /** The key file opens with the constant chosen by exact provider match,
      and is one line when the key is. */
  lemma ApiKeyFileShape(provider: string, key: string)
    ensures provider == "gemini" ==> "GEMINI_API_KEY = '" <= ApiKeyFile(provider, key)
    ensures provider == "openai" ==> "OPENAI_API_KEY = '" <= ApiKeyFile(provider, key)
    ensures provider != "gemini" && provider != "openai" ==> "API_KEY = '" <= ApiKeyFile(provider, key)
    ensures SingleLine(key) ==> Count(ApiKeyFile(provider, key), '\n') == 1
    ensures ApiKeyFile(provider, key)[|ApiKeyFile(provider, key)| - 1] == '\n'
  {
    var line := KeyConstant(provider) + " = '" + key + "'";
    assert ApiKeyFile(provider, key) == line + "\n";
    if SingleLine(key) {
      KeyLineIsSingle(provider, key);
      CountAbsent(line, '\n');
      CountAppend(line, "\n", '\n');
    }
  }

  /** Reads the key file back: the quoted value if `text` is exactly one
      assignment to `constant`. */
  function ReadAssignment(text: string, constant: string): Option<string> {
    var head := constant + " = '";
    if |text| >= |head| + 2 && text[..|head|] == head && text[|text| - 2..] == "'\n"
    then Some(text[|head|..|text| - 2])
    else None
  }

  /** The key file assigns the caller's key to the provider's constant and
      assigns neither of the other two constants. */
  lemma ApiKeyFileReadsBack(provider: string, key: string, other: string)
    requires other in {"GEMINI_API_KEY", "OPENAI_API_KEY", "API_KEY"} && other != KeyConstant(provider)
    ensures ReadAssignment(ApiKeyFile(provider, key), KeyConstant(provider)) == Some(key)
    ensures ReadAssignment(ApiKeyFile(provider, key), other) == None
  {
    var text := ApiKeyFile(provider, key);
    var head := KeyConstant(provider) + " = '";
    assert text == head + key + "'\n";
    assert text[..|head|] == head;
    assert text[|text| - 2..] == "'\n";
    assert text[|head|..|text| - 2] == key;
    var otherHead := other + " = '";
    if |text| >= |otherHead| {
      assert text[0] == head[0];
      assert text[..|otherHead|][0] == text[0];
      assert otherHead[0] != head[0];
    }
  }

  // ----- Readmes -----

  /** `_generate_readme`: a title line with the tool's name, then fixed prose
      naming the tool type (underscores shown as spaces) and the model. */
  function Readme(toolType: string, name: string, model: string): (text: string)
    ensures |text| > 2 + |name|
    ensures text[..2 + |name|] == "# " + name && text[2 + |name|] == '\n'
  {
    "# " + name + "\n" + ReadmeBody(toolType, model)
  }

  function ReadmeBody(toolType: string, model: string): string {
    ReadmeIntro + SpaceUnderscores(toolType) + ReadmeMiddle + model + ReadmeClosing
  }

  const ReadmeIntro: string := "\n## Description\nThis is an AI-powered "

  const ReadmeMiddle: string :=
    " generated by AIToolMaker.\n\n## Installation\n\n1. Install dependencies:\n```bash\npip install -r requirements.txt\n```\n\n2. Update your API key in `api_key.py`\n\n## Usage\n\nRun the application:\n```bash\nstreamlit run app.py\n```\n\n## Features\n- Built with Streamlit\n- Powered by "

  const ReadmeClosing: string :=
    "\n- Easy to customize and extend\n\n## Generated by AIToolMaker\nThis tool was automatically generated using the AIToolMaker library.\n"

  /** `_generate_website_readme`: a title line naming the website, then fixed
      deployment prose naming the tool type and the model. */
  function WebsiteReadme(toolType: string, name: string, model: string): (text: string)
    ensures |text| > 2 + |name| + 21
    ensures text[..2 + |name| + 21] == "# " + name + " - Standalone Website" && text[2 + |name| + 21] == '\n'
  {
    "# " + name + " - Standalone Website" + "\n" + WebsiteReadmeBody(toolType, model)
  }

  function WebsiteReadmeBody(toolType: string, model: string): string {
    WebsiteIntro + SpaceUnderscores(toolType) + WebsiteMiddle + model + WebsiteClosing
  }

  const WebsiteIntro: string := "\n## Description\nThis is a standalone HTML/CSS/JS website for an AI-powered "

  const WebsiteMiddle: string := WebsiteUsage + WebsiteDeployment + WebsiteLayout + WebsiteFeatures

  const WebsiteUsage: string :=
    ".\n\n## Usage\n\nSimply open `index.html` in a web browser or deploy to any web hosting service."

  const WebsiteDeployment: string :=
    "\n\n## Deployment Options\n- **GitHub Pages**: Push to a GitHub repository and enable Pages\n- **Netlify**: Drag and drop the folder to Netlify\n- **Vercel**: Deploy via Vercel CLI or web interface\n- **Any static hosting**: Upload files via FTP"

  const WebsiteLayout: string :=
    "\n\n## Files Structure\n```\n\U{251c}\U{2500}\U{2500} index.html          # Main HTML file\n\U{251c}\U{2500}\U{2500} css/\n\U{2502}   \U{2514}\U{2500}\U{2500} style.css      # Stylesheet\n\U{251c}\U{2500}\U{2500} js/\n\U{2502}   \U{2514}\U{2500}\U{2500} app.js         # JavaScript logic\n\U{251c}\U{2500}\U{2500} assets/\n\U{2502}   \U{2514}\U{2500}\U{2500} logo.png       # Logo image\n\U{2514}\U{2500}\U{2500} README.md          # This file\n```"

  const WebsiteFeatures: string :=
    "\n\n## Features\n- No backend required\n- Mobile responsive\n- Modern UI/UX\n- Powered by "

  const WebsiteClosing: string :=
    "\n\n## Generated by AIToolMaker\nThis website was automatically generated using the AIToolMaker library.\n"

  /** The application readme's first line is `# <name>`. */
  lemma ReadmeTitle(toolType: string, name: string, model: string)
    requires SingleLine(name)
    ensures TakeLine(Readme(toolType, name, model)) == "# " + name
  {
    TitleIsSingleLine(name, "");
    TakeLineOf("# " + name, ReadmeBody(toolType, model));
  }

  /** The application readme names the tool type, underscores shown as
      spaces, and the model. */
  lemma ReadmeMentions(toolType: string, name: string, model: string)
    ensures Contains(Readme(toolType, name, model), SpaceUnderscores(toolType))
    ensures Contains(Readme(toolType, name, model), model)
  {
    TitledProseMentions("# " + name, ReadmeIntro, SpaceUnderscores(toolType), ReadmeMiddle, model, ReadmeClosing);
  }

  /** The website readme's first line is `# <name> - Standalone Website`. */
  lemma WebsiteReadmeTitle(toolType: string, name: string, model: string)
    requires SingleLine(name)
    ensures TakeLine(WebsiteReadme(toolType, name, model)) == "# " + name + " - Standalone Website"
  {
    TitleIsSingleLine(name, " - Standalone Website");
    TakeLineOf("# " + name + " - Standalone Website", WebsiteReadmeBody(toolType, model));
  }

  /** The website readme names the tool type, underscores shown as spaces,
      and the model. */
  lemma WebsiteReadmeMentions(toolType: string, name: string, model: string)
    ensures Contains(WebsiteReadme(toolType, name, model), SpaceUnderscores(toolType))
    ensures Contains(WebsiteReadme(toolType, name, model), model)
  {
    TitledProseMentions("# " + name + " - Standalone Website", WebsiteIntro, SpaceUnderscores(toolType), WebsiteMiddle, model, WebsiteClosing);
  }

  /** Both values substituted into a readme's prose occur in it. */
  lemma TitledProseMentions(title: string, intro: string, first: string, middle: string, second: string, closing: string)
    ensures Contains(title + "\n" + (intro + first + middle + second + closing), first)
    ensures Contains(title + "\n" + (intro + first + middle + second + closing), second)
  {
    var text := title + "\n" + (intro + first + middle + second + closing);
    var at := |title| + 1 + |intro|;
    assert text == (title + "\n" + intro) + first + (middle + second + closing);
    assert OccursAt(text, first, at);
    assert text == (title + "\n" + intro + first + middle) + second + closing;
    assert OccursAt(text, second, at + |first| + |middle|);
  }

  lemma TitleIsSingleLine(name: string, suffix: string)
    requires SingleLine(name) && SingleLine(suffix)
    ensures SingleLine("# " + name + suffix)
  {
    var title := "# " + name + suffix;
    forall i | 0 <= i < |title| ensures title[i] != '\n' {
      if 2 <= i < 2 + |name| {
        assert title[i] == name[i - 2];
      } else if i >= 2 + |name| {
        assert title[i] == suffix[i - 2 - |name|];
      }
    }
  }

  /** The characters of a composed document. */
  function TextOf(d: Document): string {
    match d
    case KeyModule(provider, key) => ApiKeyFile(provider, key)
    case Manifest(toolType) => Requirements(toolType)
    case AppGuide(toolType, name, model) => Readme(toolType, name, model)
    case SiteGuide(toolType, name, model) => WebsiteReadme(toolType, name, model)
  }

  // ----- Output layout -----

  /** What a generation returns: the output directory, the path of the entry
      file (`app_path` for an application, `index_path` for a website) and
      the `files` list. */
  datatype Generated = Generated(outputDir: string, entryPath: string, files: seq<Entry>)

  /** The `files` list an application generation returns, whatever it wrote. */
  const AppFiles: seq<Entry> := [AppPy, ApiKeyPy, RequirementsTxt, ReadmeMd]

  /** The `files` list a website generation returns. */
  const SiteFiles: seq<Entry> := [IndexHtml, StyleCss, AppJs, ReadmeMd]

  /** The subdirectories a website generation creates. */
  const SiteDirectories: set<Entry> := {CssDir, JsDir, AssetsDir}

  const DefaultDirPrefix: string := "./generated_"
  const WebsiteSuffix: string := "_website"

  /** The application's output directory: the caller's, else `./generated_<tool_type>`. */
  function AppDir(toolType: string, outputDir: Option<string>): (dir: string)
    ensures outputDir.Some? ==> dir == outputDir.value
    ensures outputDir.None? ==> DefaultDirPrefix <= dir && dir[|DefaultDirPrefix|..] == toolType
  {
    if outputDir.None? then DefaultDirPrefix + toolType else outputDir.value
  }

  /** The website's output directory: the caller's, else `./generated_<tool_type>_website`. */
  function SiteDir(toolType: string, outputDir: Option<string>): (dir: string)
    ensures outputDir.Some? ==> dir == outputDir.value
    ensures outputDir.None? ==>
      |dir| == |DefaultDirPrefix| + |toolType| + |WebsiteSuffix|
      && DefaultDirPrefix <= dir && dir[|DefaultDirPrefix|..|dir| - |WebsiteSuffix|] == toolType
      && dir[|dir| - |WebsiteSuffix|..] == WebsiteSuffix
  {
    if outputDir.None? then DefaultDirPrefix + toolType + WebsiteSuffix else outputDir.value
  }

  /** Default directories never collide: distinct tool types get distinct
      directories, and a tool's website never lands in its application's
      directory. */
  lemma DefaultDirsDistinct(t1: string, t2: string)
    ensures AppDir(t1, None) == AppDir(t2, None) ==> t1 == t2
    ensures SiteDir(t1, None) == SiteDir(t2, None) ==> t1 == t2
    ensures AppDir(t1, None) != SiteDir(t1, None)
  {
    if AppDir(t1, None) == AppDir(t2, None) {
      assert t1 == AppDir(t1, None)[|DefaultDirPrefix|..];
    }
    if SiteDir(t1, None) == SiteDir(t2, None) {
      var d := SiteDir(t1, None);
      assert t1 == d[|DefaultDirPrefix|..|d| - |WebsiteSuffix|];
    }
  }

  /** `ToolGenerator`: the key, model and provider are fixed at construction. */
  class ToolGenerator {
    const apiKey: string
    const model: string
    const apiProvider: string

    constructor (apiKey: string, model: string, apiProvider: string := "gemini")
      ensures this.apiKey == apiKey && this.model == model && this.apiProvider == apiProvider
    {
      this.apiKey := apiKey;
      this.model := model;
      this.apiProvider := apiProvider;
    }

    /** The variables an application is rendered with: the logo path is
        passed on as the caller gave it. */
    function AppVars(name: string, logoPath: Option<string>): (vars: RenderVars)
      ensures vars.apiKey == apiKey && vars.model == model && vars.toolName == name
      ensures vars.logoPath == logoPath
    {
      RenderVars(apiKey, model, name, logoPath)
    }

    /** The variables a website is rendered with: the logo reference is the
        relative asset path when a logo was given, whether or not it exists. */
    function SiteVars(name: string, logoPath: Option<string>): (vars: RenderVars)
      ensures vars.apiKey == apiKey && vars.model == model && vars.toolName == name
      ensures vars.logoPath == Some("assets/logo.png") <==> Truthy(logoPath)
      ensures vars.logoPath == Some("") <==> !Truthy(logoPath)
    {
      RenderVars(apiKey, model, name, Some(if Truthy(logoPath) then "assets/logo.png" else ""))
    }

    /** The entries an application generation writes below its directory,
        in the order it writes them: the four listed files always, the
        utility script only for the document summarizer, the logo copy only
        when a logo path was given and exists. */
    function AppArtifacts(toolType: string, name: string, logoPath: Option<string>, existing: set<string>): (files: Tree)
      ensures forall e :: e in AppFiles ==> e in files
      ensures UtilsPy in files <==> toolType == "document_summarizer"
      ensures LogoPng in files <==> Truthy(logoPath) && logoPath.value in existing
      ensures forall e :: e in files ==> e in AppFiles || e == UtilsPy || e == LogoPng
      ensures forall e :: e in files ==> files[e].File?
      ensures LogoPng in files ==> files[LogoPng] == File(CopyOf(logoPath.value))
    {
      var vars := AppVars(name, logoPath);
      var withApp := map[AppPy := File(Rendered(GetTemplate(toolType, "streamlit"), vars))];
      var withKey := withApp[ApiKeyPy := File(Composed(KeyModule(apiProvider, apiKey)))];
      var withUtils := if toolType == "document_summarizer"
        then withKey[UtilsPy := File(Rendered(GetTemplate(toolType, "utils"), vars))]
        else withKey;
      var withManifest := withUtils[RequirementsTxt := File(Composed(Manifest(toolType)))];
      var withLogo := if Truthy(logoPath) && logoPath.value in existing
        then withManifest[LogoPng := File(CopyOf(logoPath.value))]
        else withManifest;
      withLogo[ReadmeMd := File(Composed(AppGuide(toolType, name, model)))]
    }

    /** The entries a website generation writes below its directory, in the
        order it creates or writes them: the three subdirectories, the page,
        stylesheet, script and readme always, the logo copy only when a logo
        path was given and exists. */
    function SiteArtifacts(toolType: string, name: string, logoPath: Option<string>, existing: set<string>): (files: Tree)
      ensures forall e :: e in SiteFiles ==> e in files && files[e].File?
      ensures forall e :: e in SiteDirectories ==> e in files && files[e] == Directory
      ensures AssetsLogoPng in files <==> Truthy(logoPath) && logoPath.value in existing
      ensures forall e :: e in files ==> e in SiteFiles || e in SiteDirectories || e == AssetsLogoPng
      ensures AssetsLogoPng in files ==> files[AssetsLogoPng] == File(CopyOf(logoPath.value))
    {
      var vars := SiteVars(name, logoPath);
      var layout := map[CssDir := Directory][JsDir := Directory][AssetsDir := Directory];
      var withPage := layout[IndexHtml := File(Rendered(GetTemplate(toolType, "html"), vars))];
      var withStyle := withPage[StyleCss := File(Rendered(GetTemplate(toolType, "css"), vars))];
      var withScript := withStyle[AppJs := File(Rendered(GetTemplate(toolType, "js"), vars))];
      var withLogo := if Truthy(logoPath) && logoPath.value in existing
        then withScript[AssetsLogoPng := File(CopyOf(logoPath.value))]
        else withScript;
      withLogo[ReadmeMd := File(Composed(SiteGuide(toolType, name, model)))]
    }

    /** `_generate_requirements`: copy the base list, extend it with the
        tool's table entry if there is one, join with line breaks and end with
        one more. */
    method GenerateRequirements(toolType: string) returns (text: string)
      ensures text == TextOf(Manifest(toolType))
      ensures SplitLines(text) == RequirementLines(toolType)
    {
      var requirements := BaseRequirements;
      if toolType in ToolSpecific {
        requirements := requirements + ToolSpecific[toolType];
      }
      JoinThenNewline(requirements);
      text := Join(requirements) + "\n";
      RequirementsShape(toolType);
    }

    /** `generate_streamlit_tool`: writes the application's files one by one
        into the output directory, which it creates if needed. */
    method GenerateStreamlitTool(fs: FileSystem, toolType: string, name: string, logoPath: Option<string>, outputDir: Option<string> := None)
      returns (result: Generated)
      modifies fs
      ensures fs.dirs == Install(old(fs.dirs), AppDir(toolType, outputDir), AppArtifacts(toolType, name, logoPath, fs.sources))
      ensures result == Generated(AppDir(toolType, outputDir), JoinPath(AppDir(toolType, outputDir), PathOf(AppPy)), AppFiles)
    {
      var dir := AppDir(toolType, outputDir);
      fs.MakeDirs(dir);
      ghost var written: Tree := map[];

      var vars := AppVars(name, logoPath);
      var app := File(Rendered(GetTemplate(toolType, "streamlit"), vars));
      fs.Write(dir, AppPy, app);
      InstallExtend(old(fs.dirs), dir, written, AppPy, app);
      written := written[AppPy := app];

      var keyFile := File(Composed(KeyModule(apiProvider, apiKey)));
      fs.Write(dir, ApiKeyPy, keyFile);
      InstallExtend(old(fs.dirs), dir, written, ApiKeyPy, keyFile);
      written := written[ApiKeyPy := keyFile];

      if toolType == "document_summarizer" {
        var utils := File(Rendered(GetTemplate(toolType, "utils"), vars));
        fs.Write(dir, UtilsPy, utils);
        InstallExtend(old(fs.dirs), dir, written, UtilsPy, utils);
        written := written[UtilsPy := utils];
      }

      var manifest := File(Composed(Manifest(toolType)));
      fs.Write(dir, RequirementsTxt, manifest);
      InstallExtend(old(fs.dirs), dir, written, RequirementsTxt, manifest);
      written := written[RequirementsTxt := manifest];

      if Truthy(logoPath) && fs.Exists(logoPath.value) {
        var logo := File(CopyOf(logoPath.value));
        fs.Copy(logoPath.value, dir, LogoPng);
        InstallExtend(old(fs.dirs), dir, written, LogoPng, logo);
        written := written[LogoPng := logo];
      }

      var readme := File(Composed(AppGuide(toolType, name, model)));
      fs.Write(dir, ReadmeMd, readme);
      InstallExtend(old(fs.dirs), dir, written, ReadmeMd, readme);
      written := written[ReadmeMd := readme];

      result := Generated(dir, JoinPath(dir, PathOf(AppPy)), AppFiles);
    }

    /** `generate_website`: creates the directory layout, then writes the
        page, stylesheet, script, logo copy and readme. */
    method GenerateWebsite(fs: FileSystem, toolType: string, name: string, logoPath: Option<string>, outputDir: Option<string> := None)
      returns (result: Generated)
      modifies fs
      ensures fs.dirs == Install(old(fs.dirs), SiteDir(toolType, outputDir), SiteArtifacts(toolType, name, logoPath, fs.sources))
      ensures result == Generated(SiteDir(toolType, outputDir), JoinPath(SiteDir(toolType, outputDir), PathOf(IndexHtml)), SiteFiles)
    {
      var dir := SiteDir(toolType, outputDir);
      fs.MakeDirs(dir);
      ghost var written: Tree := map[];

      fs.Write(dir, CssDir, Directory);
      InstallExtend(old(fs.dirs), dir, written, CssDir, Directory);
      written := written[CssDir := Directory];
      fs.Write(dir, JsDir, Directory);
      InstallExtend(old(fs.dirs), dir, written, JsDir, Directory);
      written := written[JsDir := Directory];
      fs.Write(dir, AssetsDir, Directory);
      InstallExtend(old(fs.dirs), dir, written, AssetsDir, Directory);
      written := written[AssetsDir := Directory];

      var vars := SiteVars(name, logoPath);
      var page := File(Rendered(GetTemplate(toolType, "html"), vars));
      fs.Write(dir, IndexHtml, page);
      InstallExtend(old(fs.dirs), dir, written, IndexHtml, page);
      written := written[IndexHtml := page];

      var style := File(Rendered(GetTemplate(toolType, "css"), vars));
      fs.Write(dir, StyleCss, style);
      InstallExtend(old(fs.dirs), dir, written, StyleCss, style);
      written := written[StyleCss := style];

      var script := File(Rendered(GetTemplate(toolType, "js"), vars));
      fs.Write(dir, AppJs, script);
      InstallExtend(old(fs.dirs), dir, written, AppJs, script);
      written := written[AppJs := script];

      if Truthy(logoPath) && fs.Exists(logoPath.value) {
        var logo := File(CopyOf(logoPath.value));
        fs.Copy(logoPath.value, dir, AssetsLogoPng);
        InstallExtend(old(fs.dirs), dir, written, AssetsLogoPng, logo);
        written := written[AssetsLogoPng := logo];
      }

      var readme := File(Composed(SiteGuide(toolType, name, model)));
      fs.Write(dir, ReadmeMd, readme);
      InstallExtend(old(fs.dirs), dir, written, ReadmeMd, readme);
      written := written[ReadmeMd := readme];

      result := Generated(dir, JoinPath(dir, PathOf(IndexHtml)), SiteFiles);
    }
  }

  /** The `files` list an application generation returns names only files it
      wrote, but it names all of them only when neither the utility script
      nor a logo copy was written. */
  lemma AppFilesListed(g: ToolGenerator, toolType: string, name: string, logoPath: Option<string>, existing: set<string>)
    ensures forall e :: e in AppFiles ==> e in g.AppArtifacts(toolType, name, logoPath, existing)
    ensures (set e | e in AppFiles) == g.AppArtifacts(toolType, name, logoPath, existing).Keys
      <==> toolType != "document_summarizer" && !(Truthy(logoPath) && logoPath.value in existing)
  {
    var files := g.AppArtifacts(toolType, name, logoPath, existing);
    var listed := set e | e in AppFiles;
    if toolType == "document_summarizer" {
      assert UtilsPy in files && UtilsPy !in listed;
    } else if Truthy(logoPath) && logoPath.value in existing {
      assert LogoPng in files && LogoPng !in listed;
    } else {
      assert files.Keys == listed;
    }
  }

  /** The `files` list a website generation returns names only files it
      wrote, and never the directories or the logo copy. */
  lemma SiteFilesListed(g: ToolGenerator, toolType: string, name: string, logoPath: Option<string>, existing: set<string>)
    ensures forall e :: e in SiteFiles ==> e in g.SiteArtifacts(toolType, name, logoPath, existing)
    ensures (set e | e in SiteFiles) < g.SiteArtifacts(toolType, name, logoPath, existing).Keys
    ensures AssetsLogoPng !in SiteFiles
  {
    var files := g.SiteArtifacts(toolType, name, logoPath, existing);
    assert CssDir in files && CssDir !in SiteFiles;
  }

  /** What the application's files hold: the streamlit template rendered
      with the key, the model, the name and the logo path as given; the
      document utilities for the summarizer; the key module for the
      generator's provider and key; the tool's manifest; the application
      readme. The texts of the composed documents are `ApiKeyFile`,
      `Requirements` and `Readme`, whose properties are proved above. */
  lemma AppArtifactsContents(g: ToolGenerator, toolType: string, name: string, logoPath: Option<string>, existing: set<string>)
    ensures var files := g.AppArtifacts(toolType, name, logoPath, existing);
      && files[AppPy] == File(Rendered(GetTemplate(toolType, "streamlit"), RenderVars(g.apiKey, g.model, name, logoPath)))
      && (files[AppPy].content.payload == NoTemplate <==> toolType !in AppTools)
      && (UtilsPy in files ==> files[UtilsPy] == File(Rendered(DocumentUtils, RenderVars(g.apiKey, g.model, name, logoPath))))
      && files[ApiKeyPy] == File(Composed(KeyModule(g.apiProvider, g.apiKey)))
      && files[RequirementsTxt] == File(Composed(Manifest(toolType)))
      && files[ReadmeMd] == File(Composed(AppGuide(toolType, name, g.model)))
  {
  }

  /** What the website's files hold: the tool's page, stylesheet and script
      payloads rendered with the website variables, and the website readme,
      whose text is `WebsiteReadme`. */
  lemma SiteArtifactsContents(g: ToolGenerator, toolType: string, name: string, logoPath: Option<string>, existing: set<string>)
    ensures var files := g.SiteArtifacts(toolType, name, logoPath, existing);
      && files[IndexHtml] == File(Rendered(HtmlPage(toolType), g.SiteVars(name, logoPath)))
      && files[StyleCss] == File(Rendered(Stylesheet(toolType), g.SiteVars(name, logoPath)))
      && files[AppJs] == File(Rendered(Script(toolType), g.SiteVars(name, logoPath)))
      && files[ReadmeMd] == File(Composed(SiteGuide(toolType, name, g.model)))
  {
  }

  /** The website's files refer to `assets/logo.png` exactly when a logo path
      was given, so when that path does not exist they refer to a file the
      generation did not write. */
  lemma SiteLogoReference(g: ToolGenerator, toolType: string, name: string, logoPath: Option<string>, existing: set<string>)
    ensures var files := g.SiteArtifacts(toolType, name, logoPath, existing);
      && (files[IndexHtml].content.vars.logoPath == Some(PathOf(AssetsLogoPng)) <==> Truthy(logoPath))
      && (Truthy(logoPath) && logoPath.value !in existing ==> AssetsLogoPng !in files)
  {
    SiteArtifactsContents(g, toolType, name, logoPath, existing);
  }
}
