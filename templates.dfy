/** The template registry: `get_template(tool_type, format_type)` picks the
    payload a generator renders. The payloads themselves are inert text and
    are modelled only by their identity. */
module Templates {

  /** One constructor per template constant of the package. `NoTemplate` is
      the empty string the registry returns for a combination it does not
      define. `HtmlPage`, `Stylesheet` and `Script` stand for what the
      per-tool web getters return for `forTool`. */
  datatype Payload =
    | NoTemplate
    | ChatbotApp
    | BlogGeneratorApp
    | DataAnalyzerApp
    | SqlGeneratorApp
    | DocumentSummarizerApp
    | DocumentUtils
    | WebSummarizerApp
    | HtmlPage(forTool: string)
    | Stylesheet(forTool: string)
    | Script(forTool: string)

  /** The tool types that have an application template. */
  const AppTools: set<string> := AppTemplates.Keys

  /** The table consulted for format "streamlit". */
  const AppTemplates: map<string, Payload> := map[
    "chatbot" := ChatbotApp,
    "blog_generator" := BlogGeneratorApp,
    "data_analyzer" := DataAnalyzerApp,
    "sql_generator" := SqlGeneratorApp,
    "document_summarizer" := DocumentSummarizerApp,
    "web_summarizer" := WebSummarizerApp
  ]

  /** The formats the registry recognises. */
  const Formats: set<string> := {"streamlit", "utils", "html", "css", "js"}

  /** `get_template`: dispatch on the format, then on the tool type. */
  function GetTemplate(toolType: string, formatType: string := "streamlit"): (p: Payload)
    ensures formatType == "streamlit" && toolType in AppTemplates ==> p == AppTemplates[toolType]
    ensures p == NoTemplate <==>
      || formatType !in Formats
      || (formatType == "streamlit" && toolType !in AppTools)
      || (formatType == "utils" && toolType != "document_summarizer")
    ensures p == DocumentUtils <==> formatType == "utils" && toolType == "document_summarizer"
    ensures p.HtmlPage? <==> formatType == "html"
    ensures p.Stylesheet? <==> formatType == "css"
    ensures p.Script? <==> formatType == "js"
    ensures p.HtmlPage? || p.Stylesheet? || p.Script? ==> p.forTool == toolType
  {
    if formatType == "streamlit" then
      if toolType in AppTemplates then AppTemplates[toolType] else NoTemplate
    else if formatType == "utils" then
      if toolType == "document_summarizer" then DocumentUtils else NoTemplate
    else if formatType == "html" then
      HtmlPage(toolType)
    else if formatType == "css" then
      Stylesheet(toolType)
    else if formatType == "js" then
      Script(toolType)
    else
      NoTemplate
  }

  /** Each tool type with an application template gets its own payload:
      no two tool types share one, and none of them is the utility script. */
  lemma AppTemplatesDistinct(t1: string, t2: string)
    requires t1 in AppTools && t2 in AppTools && t1 != t2
    ensures GetTemplate(t1) != GetTemplate(t2)
    ensures GetTemplate(t1) != NoTemplate && GetTemplate(t1) != DocumentUtils
  {
  }
}
