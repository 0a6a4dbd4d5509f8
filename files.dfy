/** The file system as the generators see it: each created output directory
    holds a tree from relative path to entry, and a fixed set of paths exists
    outside those trees (the logo sources the generators may copy from). */
module Files {
  import opened Basics
  import opened Templates

  /** The variables a generator hands to the template engine. */
  datatype RenderVars = RenderVars(apiKey: string, model: string, toolName: string, logoPath: Option<string>)

  /** A text the generators compose themselves rather than render: the key
      module, the requirements manifest, and the application's or the
      website's readme. Its characters are `Generator.TextOf` of it. */
  datatype Document =
    | KeyModule(provider: string, key: string)
    | Manifest(toolType: string)
    | AppGuide(toolType: string, name: string, model: string)
    | SiteGuide(toolType: string, name: string, model: string)

  /** What a generated file holds: the engine's rendering of a payload (the
      engine itself is not modelled), a composed document, or a byte copy of
      an existing file. */
  datatype Content =
    | Rendered(payload: Payload, vars: RenderVars)
    | Composed(document: Document)
    | CopyOf(source: string)

  /** An entry of an output tree. */
  datatype Node = Directory | File(content: Content)

  /** The relative paths the generators write below an output directory. */
  datatype Entry =
    | AppPy | ApiKeyPy | UtilsPy | RequirementsTxt | LogoPng | ReadmeMd
    | CssDir | JsDir | AssetsDir | IndexHtml | StyleCss | AppJs | AssetsLogoPng

  /** The relative path an entry stands for. */
  function PathOf(e: Entry): string {
    match e
    case AppPy => "app.py"
    case ApiKeyPy => "api_key.py"
    case UtilsPy => "utils.py"
    case RequirementsTxt => "requirements.txt"
    case LogoPng => "logo.png"
    case ReadmeMd => "README.md"
    case CssDir => "css"
    case JsDir => "js"
    case AssetsDir => "assets"
    case IndexHtml => "index.html"
    case StyleCss => "css/style.css"
    case AppJs => "js/app.js"
    case AssetsLogoPng => "assets/logo.png"
  }

  /** The entries below one output directory. */
  type Tree = map<Entry, Node>

  /** The tree of `dir`, empty if the directory has not been created. */
  function TreeAt(dirs: map<string, Tree>, dir: string): Tree {
    if dir in dirs then dirs[dir] else map[]
  }

  /** The directories after `entries` are written below `dir`: the directory
      is created if needed, every written path holds its new entry (last write
      wins), every other path and every other directory is untouched. */
  function Install(dirs: map<string, Tree>, dir: string, entries: Tree): (r: map<string, Tree>)
    ensures r.Keys == dirs.Keys + {dir}
    ensures r[dir].Keys == TreeAt(dirs, dir).Keys + entries.Keys
    ensures forall p :: p in entries ==> r[dir][p] == entries[p]
    ensures forall p :: p in TreeAt(dirs, dir) && p !in entries ==> r[dir][p] == TreeAt(dirs, dir)[p]
    ensures forall d :: d in dirs && d != dir ==> r[d] == dirs[d]
  {
    dirs[dir := TreeAt(dirs, dir) + entries]
  }

  /** Two writes into the same directory are one write of both, the later
      entries winning. */
  lemma InstallTwice(dirs: map<string, Tree>, dir: string, first: Tree, second: Tree)
    ensures Install(Install(dirs, dir, first), dir, second) == Install(dirs, dir, first + second)
  {
    assert TreeAt(Install(dirs, dir, first), dir) + second == TreeAt(dirs, dir) + (first + second);
  }

  /** A write of one more entry into the same directory extends the entries
      written so far, the new entry winning. */
  lemma InstallExtend(dirs: map<string, Tree>, dir: string, first: Tree, path: Entry, node: Node)
    ensures Install(Install(dirs, dir, first), dir, map[path := node]) == Install(dirs, dir, first[path := node])
  {
    InstallTwice(dirs, dir, first, map[path := node]);
    assert first + map[path := node] == first[path := node];
  }

  /** Writing the same entries again leaves the directories as they were
      after the first write: same paths, same contents. */
  lemma InstallIdempotent(dirs: map<string, Tree>, dir: string, entries: Tree)
    ensures Install(Install(dirs, dir, entries), dir, entries) == Install(dirs, dir, entries)
  {
    InstallTwice(dirs, dir, entries, entries);
    assert entries + entries == entries;
  }

  class FileSystem {
    /** The created directories and what is written below each. */
    var dirs: map<string, Tree>
    /** The paths that exist outside the generated trees. */
    const sources: set<string>

    constructor (dirs: map<string, Tree>, sources: set<string>)
      ensures this.dirs == dirs && this.sources == sources
    {
      this.dirs := dirs;
      this.sources := sources;
    }

    /** `os.path.exists` on a logo source. */
    predicate Exists(path: string) {
      path in sources
    }

    /** `Path(dir).mkdir(parents=True, exist_ok=True)`: an existing directory
        keeps its contents. */
    method MakeDirs(dir: string)
      modifies this
      ensures dirs == Install(old(dirs), dir, map[])
    {
      dirs := dirs[dir := TreeAt(dirs, dir)];
      assert TreeAt(old(dirs), dir) + map[] == TreeAt(old(dirs), dir);
    }

    /** Writes one entry (a file, or a subdirectory made with `mkdir`) below
        an existing directory, replacing what was there. */
    method Write(dir: string, path: Entry, node: Node)
      requires dir in dirs
      modifies this
      ensures dirs == Install(old(dirs), dir, map[path := node])
    {
      dirs := dirs[dir := dirs[dir][path := node]];
      assert old(dirs)[dir][path := node] == TreeAt(old(dirs), dir) + map[path := node];
    }

    /** `shutil.copy(source, dir / path)`: the source must exist. */
    method Copy(source: string, dir: string, path: Entry)
      requires Exists(source) && dir in dirs
      modifies this
      ensures dirs == Install(old(dirs), dir, map[path := File(CopyOf(source))])
    {
      Write(dir, path, File(CopyOf(source)));
    }
  }
}
