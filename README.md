# aitoolmaker core, modelled in Dafny

aitoolmaker scaffolds small AI tools from templates. Each tool is either a
Streamlit application or a standalone HTML/CSS/JS website. This project
models the deterministic part of every generation request:

- **Templates** (`templates.dfy`): `get_template`, the dispatch on
  `(tool_type, format_type)`. Template payloads are a datatype that names
  each constant, so only their identity matters.
- **Branding** (`branding.dfy`): `BrandingManager.DEFAULT_NAMES`,
  `get_default_name` and `apply_branding`. Existence checks read a set of
  existing paths.
- **Files** (`files.dfy`): the file system as the generators see it.
  - Each created output directory holds a map from relative entry to node.
  - The set of logo sources that exist stands in for `os.path.exists`.
  - A `FileSystem` class whose `MakeDirs`, `Write` and `Copy` methods update
    that map.
- **Generator** (`generator.dfy`): `ToolGenerator`.
  - The requirements manifest (`_generate_requirements`, written as a
    method that copies and extends the list).
  - The key module (`_generate_api_key_file`) and the two readmes.
  - The default output directories.
  - `generate_streamlit_tool` and `generate_website`, written as methods that
    create the directory and write the entries one by one. They are proved to
    install exactly the entries `AppArtifacts` / `SiteArtifacts` describe.
- **Facade** (`facade.dfy`): `AIToolMaker`.
  - The key check of `__init__`.
  - The allow-list validation of `create_tool` and its dispatch on the output
    kind and the `run` flag.
  - `list_tools` and `get_tool_info`.

`basics.dfy` holds `Option`/`Result` and Python truthiness of an optional
string. `strings.dfy` holds the string operations the texts are built
from: joining lines, splitting them back, counting characters, replacing
underscores, ASCII lower-casing and joining paths.

Template rendering is the free constructor `Rendered(payload, vars)`. The
texts the generator composes itself are recorded as `Composed(document)`,
and `Generator.TextOf` gives their characters: `Requirements`, `ApiKeyFile`,
`Readme` and `WebsiteReadme`.

For `document_summarizer` the requirements table in
`aitoolmaker/core/generator.py` (lines 217-224) lists six extra packages,
so its manifest has eight lines.

## Model

| member | source | states |
|---|---|---|
| Templates.GetTemplate | aitoolmaker/core/templates/__init__.py:10-46 | format defaults to "streamlit"; "streamlit" gives each known tool its own table constant and nothing for any other tool; "utils" gives the document utilities only for document_summarizer; "html"/"css"/"js" give the per-tool web payload for that very tool; any other format gives nothing |
| Templates.AppTemplatesDistinct | aitoolmaker/core/templates/__init__.py:21-30 | the six application templates are pairwise distinct, and none is empty or the utility script |
| Branding.BrandingManager.GetDefaultName | aitoolmaker/utils/branding.py:47-49 | the table name for the six known tool types, "AI Tool" otherwise, never empty |
| Branding.BrandingManager.ApplyBranding | aitoolmaker/utils/branding.py:22-45 | a truthy name is kept verbatim, otherwise the table or the fallback name; a truthy existing logo is kept, otherwise the default logo if it exists, else none; any logo returned exists |
| Branding.BrandingManager.DefaultLogo | aitoolmaker/utils/branding.py:42 | the default logo is `default_logo.png` inside the manager's logo directory |
| Branding.DefaultNameAgrees | aitoolmaker/utils/branding.py:35-49 | with no name (None or ""), `apply_branding` picks exactly `get_default_name` |
| Branding.MissingLogoDropped | aitoolmaker/utils/branding.py:38-43 | a custom logo that does not exist never appears in the result |
| Files.FileSystem.MakeDirs | aitoolmaker/core/generator.py:47-48 | the directory exists afterwards and an existing one keeps its entries |
| Files.FileSystem.Write | aitoolmaker/core/generator.py:65-68 | the entry is replaced (last write wins); nothing else changes |
| Files.FileSystem.Copy | aitoolmaker/core/generator.py:91-94 | only an existing source is copied; the entry holds a copy of it |
| Files.Install | aitoolmaker/core/generator.py:47-100 | the output directory exists afterwards; each written entry holds what was written last; entries not written and all other directories are unchanged |
| Files.InstallIdempotent | aitoolmaker/core/generator.py:47-68 | writing the same entries into the same directory again leaves the same tree |
| Generator.RequirementLines | aitoolmaker/core/generator.py:208-233 | the two base lines first, in order; data_analyzer adds pandas, web_summarizer adds requests and beautifulsoup4, document_summarizer adds six lines (eight in all); any other tool type gets only the base lines; every line is non-empty and single |
| Generator.RequirementsShape | aitoolmaker/core/generator.py:231-235 | the manifest starts with the two base lines, splits back into exactly the tool's lines, has one line break per line and ends with one |
| Generator.ToolGenerator.GenerateRequirements | aitoolmaker/core/generator.py:208-235 | copying the base list and extending it with the table entry yields the manifest document's text, whose lines are the tool's requirement lines |
| Generator.KeyConstant | aitoolmaker/core/generator.py:199-206 | exactly "gemini" selects GEMINI_API_KEY, exactly "openai" selects OPENAI_API_KEY, and every other provider API_KEY |
| Generator.ApiKeyFile | aitoolmaker/core/generator.py:199-206 | the constant, then ` = '`, then the key verbatim, then `'` and a line break, with nothing else |
| Generator.Requirements | aitoolmaker/core/generator.py:235 | the manifest is non-empty and ends in a line break |
| Generator.Readme | aitoolmaker/core/generator.py:237-267 | the application readme opens with the line `# <name>` |
| Generator.WebsiteReadme | aitoolmaker/core/generator.py:269-306 | the website readme opens with the line `# <name> - Standalone Website` |
| Generator.ToolGenerator.AppVars | aitoolmaker/core/generator.py:53-59 | the application template receives the generator's key and model, the display name and the logo path exactly as given |
| Generator.ApiKeyFileShape | aitoolmaker/core/generator.py:199-206 | the constant is chosen by case-sensitive provider match (GEMINI_API_KEY, OPENAI_API_KEY, else API_KEY); the file is one line ending in a line break when the key has none |
| Generator.ApiKeyFileReadsBack | aitoolmaker/core/generator.py:199-206 | reading the file back yields the key for the provider's constant and nothing for the other two constants |
| Generator.ReadmeTitle | aitoolmaker/core/generator.py:237-240 | the application readme's first line is `# <name>` |
| Generator.ReadmeMentions | aitoolmaker/core/generator.py:237-267 | the application readme contains the tool type with underscores shown as spaces, and the model |
| Generator.WebsiteReadmeTitle | aitoolmaker/core/generator.py:269-272 | the website readme's first line is `# <name> - Standalone Website` |
| Generator.WebsiteReadmeMentions | aitoolmaker/core/generator.py:269-306 | the website readme contains the spaced tool type and the model |
| Generator.AppDir | aitoolmaker/core/generator.py:43-44 | the caller's directory unchanged, else `./generated_<tool_type>` |
| Generator.SiteDir | aitoolmaker/core/generator.py:135-136 | the caller's directory unchanged, else `./generated_<tool_type>_website` |
| Generator.DefaultDirsDistinct | aitoolmaker/core/generator.py:135-136 | default directories of distinct tool types differ, and a tool's website never defaults into its application's directory |
| Generator.ToolGenerator.constructor | aitoolmaker/core/generator.py:10-21 | key, model and provider are kept as given |
| Generator.ToolGenerator.SiteVars | aitoolmaker/core/generator.py:152-158 | the website's logo variable is "assets/logo.png" exactly when a logo path was given, and "" otherwise, whether or not the file exists |
| Generator.ToolGenerator.AppArtifacts | aitoolmaker/core/generator.py:65-101 | app.py, api_key.py, requirements.txt and README.md always; utils.py exactly for document_summarizer; logo.png exactly when the logo path is truthy and exists, as a copy of it; nothing else, and no directories |
| Generator.ToolGenerator.SiteArtifacts | aitoolmaker/core/generator.py:142-184 | the css, js and assets directories; index.html, css/style.css, js/app.js and README.md as files; assets/logo.png exactly when the logo path is truthy and exists; nothing else, so no requirements.txt |
| Generator.ToolGenerator.GenerateStreamlitTool | aitoolmaker/core/generator.py:23-113 | installs exactly `AppArtifacts` into the output directory, leaving other directories and untouched entries as they were; returns the directory, its app.py path and the fixed four-name list |
| Generator.ToolGenerator.GenerateWebsite | aitoolmaker/core/generator.py:115-197 | installs exactly `SiteArtifacts` into the output directory; returns the directory, its index.html path and the fixed four-name list |
| Generator.AppFilesListed | aitoolmaker/core/generator.py:104-113 | every listed file was written, but the list covers everything written only when neither utils.py nor a logo copy was written |
| Generator.SiteFilesListed | aitoolmaker/core/generator.py:188-197 | every listed file was written, the list is a strict subset of the entries, and never names the logo copy |
| Generator.AppArtifactsContents | aitoolmaker/core/generator.py:50-101 | app.py renders the tool's application template (empty exactly for an unknown tool) with the key, model, name and logo path as given; utils.py renders the document utilities; api_key.py, requirements.txt and README.md hold the key module, the tool's manifest and the application readme |
| Generator.SiteArtifactsContents | aitoolmaker/core/generator.py:146-184 | the page, stylesheet and script render the tool's own web payloads with the website variables; README.md holds the website readme |
| Generator.SiteLogoReference | aitoolmaker/core/generator.py:152-178 | the page refers to assets/logo.png exactly when a logo path was given, so a missing logo file leaves the reference dangling |
| Facade.Validate | aitoolmaker/__init__.py:92-103 | passes exactly a supported tool type with a supported output kind; the tool-type error wins when both are wrong |
| Facade.AIToolMaker.constructor | aitoolmaker/__init__.py:61-67 | the maker keeps the lower-cased provider, but its generator gets the provider as given |
| Facade.AIToolMaker.Create | aitoolmaker/__init__.py:49-67 | fails exactly when the key is None or empty; otherwise a fresh maker holding the key, the model and the lower-cased provider, with a generator given the original provider |
| Facade.AIToolMaker.CreateTool | aitoolmaker/__init__.py:69-125 | a rejected request changes no file; otherwise the branded application or website is installed; "streamlit" returns the generator's result, or "Tool running at <app path>" with `run`; "website" ignores `run` |
| Facade.AIToolMaker.ListTools | aitoolmaker/__init__.py:127-129 | the six supported tool types in declared order, pairwise distinct, exactly those `get_tool_info` describes |
| Facade.AIToolMaker.GetToolInfo | aitoolmaker/__init__.py:131-177 | a three-feature record for each supported tool type and None for any other string |
| Facade.SupportedToolsHaveDefaultNames | aitoolmaker/__init__.py:38-45 | every supported tool type has a default display name, and the name table covers no other type |
| Facade.ValidatedToolIsKnown | aitoolmaker/__init__.py:93-110 | a request that passes validation names a tool with its own application template and a default name |
| Facade.GeminiSpellingMatters | aitoolmaker/core/generator.py:199-206 | a provider spelled "Gemini" gets a key module with the generic API_KEY constant, while its lower-cased spelling selects GEMINI_API_KEY |
| Facade.ProviderCaseKept | aitoolmaker/__init__.py:63-65 | for every generator, the api_key.py it writes is the key module of the provider exactly as the generator holds it, which the facade passes on un-lowered; so "Gemini" yields the generic API_KEY constant although the facade's lower-cased provider would select GEMINI_API_KEY |

## Left out

- Jinja rendering is the uninterpreted constructor `Rendered(payload, vars)`, as a foreign library. Rendering the empty template (an unknown tool type) is recorded the same way.
- The template payload texts and the per-tool web getters (`web_templates.py` is not part of this model) are represented only by their identity.
- `StreamlitRunner` is not modelled: launching and the subprocess are process plumbing. With `run`, `CreateTool` returns the status string only.
- Printing, the CLI, `file_manager.py` and `setup.py` are not part of this model.
- Real file-system semantics are not modelled: absolute-path resolution (`.absolute()` in the returned paths), path normalisation, permissions, I/O errors, and `mkdir` over an existing regular file. Paths are `dir + "/" + name`, and the returned output directory is the directory as named.
- Files.Install: output directories are treated as disjoint names. A directory nested inside or aliasing another output directory (for example `out/assets` and `out`) is a separate tree, so writes through one are not seen in the other.
- Existence is a fixed set of source paths. A logo source is never one of the files a generation writes.
- `BrandingManager.__init__` (creating the logo directory) and `create_default_logo` (a no-op) are not modelled; the logo directory is a parameter.
- `Strings.Lower` lower-cases ASCII letters only; Python's `str.lower` also folds other scripts.
- Error message texts of the `ValueError`s are not modelled; the error kind and the offending value are.
- `list_tools` returns the class attribute itself in the source, so a caller could mutate it; the model returns an immutable sequence.
