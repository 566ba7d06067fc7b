/**
 * A scaffold run (`scaffoldProject`): the existing-directory check, the `npm install`
 * commands it issues for the selected packages, and the files it generates, in the order
 * it writes them, App.tsx last. Processes, the file system and the spinner are not
 * modelled; the run returns what it would hand to them. Paths are relative to the
 * project directory.
 */
module Scaffold {
  import opened Config
  import opened Dependencies
  import opened Templates
  import opened AppComposer
  import opened Wrappers

  /** The files a run can write. */
  datatype FileId =
    | ViteConfigFile | IndexCss | AppCss
    | NavbarFile | FooterFile | HomeFile | AboutFile
    | RootRouteFile | RouterFile | LayoutFile | StoreFile
    | AppFile

  function PathOf(f: FileId): string
  {
    match f
    case ViteConfigFile => "vite.config.ts"
    case IndexCss => "src/index.css"
    case AppCss => "src/app.css"
    case NavbarFile => "src/common/Navbar.tsx"
    case FooterFile => "src/common/Footer.tsx"
    case HomeFile => "src/Pages/Home.tsx"
    case AboutFile => "src/Pages/About.tsx"
    case RootRouteFile => "src/routes/__root.tsx"
    case RouterFile => "src/routes/router.tsx"
    case LayoutFile => "src/routes/Layout.tsx"
    case StoreFile => "src/store/store.ts"
    case AppFile => "src/App.tsx"
  }

  /** What is written: a generated module or stylesheet, or the chunks of App.tsx. */
  datatype FileBody = Text(content: Content) | AppEntry(chunks: seq<Chunk>)

  datatype GeneratedFile = GeneratedFile(file: FileId, body: FileBody)

  /** What a run that goes ahead does: its `npm` install argument lists, then the files it writes. */
  datatype Plan = Plan(installs: seq<seq<string>>, files: seq<GeneratedFile>)

  function AlreadyExists(appName: string): string
  {
    "Directory \"" + appName + "\" already exists."
  }

  // ------------------------------------------------------------ specification

  /** `npm install` of the runtime packages and `npm install -D` of the dev packages, each skipped when its list is empty. */
  function InstallCommands(deps: seq<string>, devDeps: seq<string>): seq<seq<string>>
  {
    (if |deps| > 0 then [["install"] + deps] else [])
    + (if |devDeps| > 0 then [["install", "-D"] + devDeps] else [])
  }

  /**
   * What the run writes to each file other than App.tsx: Tailwind's directive in both
   * stylesheets with Tailwind and nothing otherwise (they are not written at all for
   * Material UI), each module from its template.
   */
  function ContentOf(c: ScaffoldConfig, year: int, f: FileId): Content
    requires f != AppFile
  {
    match f
    case ViteConfigFile => ViteConfigModule()
    case IndexCss | AppCss => Stylesheet(if c.styling == Tailwind then TAILWIND_DIRECTIVE else "")
    case NavbarFile => Navbar(c.styling, c.router)
    case FooterFile => FooterModule(c.styling, year, c.appName)
    case HomeFile => HomeModule(c.styling)
    case AboutFile => AboutModule(c.styling)
    case RootRouteFile => RootRouteModule()
    case RouterFile => RouterModule()
    case LayoutFile => ReactRouterLayoutModule()
    case StoreFile => StoreModule()
  }

  /** Tailwind: vite.config.ts with Tailwind's plugin, and both stylesheets. */
  function TailwindOrder(c: ScaffoldConfig): seq<FileId>
  {
    if c.styling == Tailwind then [ViteConfigFile, IndexCss, AppCss] else []
  }

  /** The Navbar chain (which writes the empty stylesheets when unstyled), the Footer, Home and About. */
  function CommonOrder(c: ScaffoldConfig): seq<FileId>
  {
    (if c.styling == NoStyling then [IndexCss, AppCss] else []) + [NavbarFile, FooterFile, HomeFile, AboutFile]
  }

  /** The root layout and route tree for TanStack Router, the Layout for React Router. */
  function RoutingOrder(c: ScaffoldConfig): seq<FileId>
  {
    match c.router
    case TanstackRouter => [RootRouteFile, RouterFile]
    case ReactRouter => [LayoutFile]
    case NoRouter => []
  }

  function StoreOrder(c: ScaffoldConfig): seq<FileId>
  {
    if c.state == Redux then [StoreFile] else []
  }

  /** The files rendered from templates, in the order the source writes them. */
  function TemplateOrder(c: ScaffoldConfig): seq<FileId>
  {
    TailwindOrder(c) + CommonOrder(c) + RoutingOrder(c) + StoreOrder(c)
  }

  /** The files in the order the source writes them: the templates, then App.tsx. */
  function WriteOrder(c: ScaffoldConfig): seq<FileId>
  {
    TemplateOrder(c) + [AppFile]
  }

  /** The files `ids`, each with its content. */
  function Render(c: ScaffoldConfig, year: int, ids: seq<FileId>): (files: seq<GeneratedFile>)
    requires AppFile !in ids
    ensures |files| == |ids|
  {
    if ids == [] then [] else [GeneratedFile(ids[0], Text(ContentOf(c, year, ids[0])))] + Render(c, year, ids[1..])
  }

  /** The i-th rendered file is the i-th id with its content. */
  lemma {:induction false} RenderAt(c: ScaffoldConfig, year: int, ids: seq<FileId>)
    requires AppFile !in ids
    ensures forall i :: 0 <= i < |ids| ==> Render(c, year, ids)[i] == GeneratedFile(ids[i], Text(ContentOf(c, year, ids[i])))
  {
    if ids != [] {
      RenderAt(c, year, ids[1..]);
    }
  }

  /** The generated files in write order. */
  function Files(c: ScaffoldConfig, year: int): seq<GeneratedFile>
  {
    Render(c, year, TemplateOrder(c)) + [GeneratedFile(AppFile, AppEntry(AppTsx(c)))]
  }

  /** The run: the error the source throws when the project directory exists, its plan otherwise. */
  function Outcome(c: ScaffoldConfig, year: int, targetExists: bool): Result<Plan, string>
  {
    if targetExists then Failure(AlreadyExists(c.appName))
    else Success(Plan(InstallCommands(Deps(c), DevDeps(c)), Files(c, year)))
  }

  // ------------------------------------------------------------ the source's procedure

  /** The install commands as the source issues them from its two package lists. */
  method Install(deps: seq<string>, devDeps: seq<string>) returns (installs: seq<seq<string>>)
    ensures installs == InstallCommands(deps, devDeps)
  {
    installs := [];
    if |deps| > 0 {
      installs := installs + [["install"] + deps];
    }
    if |devDeps| > 0 {
      installs := installs + [["install", "-D"] + devDeps];
    }
  }

  lemma {:induction false} RenderAppend(c: ScaffoldConfig, year: int, a: seq<FileId>, b: seq<FileId>)
    requires AppFile !in a + b
    ensures Render(c, year, a + b) == Render(c, year, a) + Render(c, year, b)
  {
    if a == [] {
      assert a + b == b;
    } else {
      assert (a + b)[1..] == a[1..] + b;
      RenderAppend(c, year, a[1..], b);
    }
  }

  lemma RenderSnoc(c: ScaffoldConfig, year: int, ids: seq<FileId>, f: FileId)
    requires AppFile !in ids + [f]
    ensures Render(c, year, ids + [f]) == Render(c, year, ids) + [GeneratedFile(f, Text(ContentOf(c, year, f)))]
  {
    RenderAppend(c, year, ids, [f]);
  }

  lemma TailwindContents(c: ScaffoldConfig, year: int)
    requires c.styling == Tailwind
    ensures ContentOf(c, year, ViteConfigFile) == ViteConfigModule()
    ensures ContentOf(c, year, IndexCss) == ContentOf(c, year, AppCss) == Stylesheet(TAILWIND_DIRECTIVE)
  {
  }

  lemma CommonContents(c: ScaffoldConfig, year: int)
    ensures c.styling == NoStyling ==> ContentOf(c, year, IndexCss) == ContentOf(c, year, AppCss) == Stylesheet("")
    ensures ContentOf(c, year, NavbarFile) == Navbar(c.styling, c.router)
    ensures ContentOf(c, year, FooterFile) == FooterModule(c.styling, year, c.appName)
    ensures ContentOf(c, year, HomeFile) == HomeModule(c.styling)
    ensures ContentOf(c, year, AboutFile) == AboutModule(c.styling)
  {
  }

  lemma RootRouteContent(c: ScaffoldConfig, year: int)
    ensures ContentOf(c, year, RootRouteFile) == RootRouteModule()
  {
  }

  lemma RouterContent(c: ScaffoldConfig, year: int)
    ensures ContentOf(c, year, RouterFile) == RouterModule()
  {
  }

  lemma LayoutContent(c: ScaffoldConfig, year: int)
    ensures ContentOf(c, year, LayoutFile) == ReactRouterLayoutModule()
  {
  }

  lemma StoreContent(c: ScaffoldConfig, year: int)
    ensures ContentOf(c, year, StoreFile) == StoreModule()
  {
  }

  /** Tailwind's configuration and stylesheets. */
  method WriteTailwind(c: ScaffoldConfig, year: int) returns (files: seq<GeneratedFile>)
    ensures files == Render(c, year, TailwindOrder(c))
  {
    files := [];
    ghost var ids: seq<FileId> := [];
    if c.styling == Tailwind {
      TailwindContents(c, year);
      RenderSnoc(c, year, ids, ViteConfigFile);
      files, ids := files + [GeneratedFile(ViteConfigFile, Text(ViteConfigModule()))], ids + [ViteConfigFile];
      RenderSnoc(c, year, ids, IndexCss);
      files, ids := files + [GeneratedFile(IndexCss, Text(Stylesheet(TAILWIND_DIRECTIVE)))], ids + [IndexCss];
      RenderSnoc(c, year, ids, AppCss);
      files, ids := files + [GeneratedFile(AppCss, Text(Stylesheet(TAILWIND_DIRECTIVE)))], ids + [AppCss];
    }
    assert ids == TailwindOrder(c);
  }

  /** The common files: the Navbar chain (with the unstyled stylesheets), Footer, Home, About. */
  method WriteCommon(c: ScaffoldConfig, year: int) returns (files: seq<GeneratedFile>)
    ensures files == Render(c, year, CommonOrder(c))
  {
    files := [];
    ghost var ids: seq<FileId> := [];
    CommonContents(c, year);
    if c.styling == NoStyling {
      RenderSnoc(c, year, ids, IndexCss);
      files, ids := files + [GeneratedFile(IndexCss, Text(Stylesheet("")))], ids + [IndexCss];
      RenderSnoc(c, year, ids, AppCss);
      files, ids := files + [GeneratedFile(AppCss, Text(Stylesheet("")))], ids + [AppCss];
    }
    var navbar := BuildNavbar(c.styling, c.router);
    RenderSnoc(c, year, ids, NavbarFile);
    files, ids := files + [GeneratedFile(NavbarFile, Text(navbar))], ids + [NavbarFile];
    RenderSnoc(c, year, ids, FooterFile);
    files, ids := files + [GeneratedFile(FooterFile, Text(FooterModule(c.styling, year, c.appName)))], ids + [FooterFile];
    RenderSnoc(c, year, ids, HomeFile);
    files, ids := files + [GeneratedFile(HomeFile, Text(HomeModule(c.styling)))], ids + [HomeFile];
    RenderSnoc(c, year, ids, AboutFile);
    files, ids := files + [GeneratedFile(AboutFile, Text(AboutModule(c.styling)))], ids + [AboutFile];
    assert ids == CommonOrder(c);
  }

  /** The routing files of the selected router. */
  method WriteRouting(c: ScaffoldConfig, year: int) returns (files: seq<GeneratedFile>)
    ensures files == Render(c, year, RoutingOrder(c))
  {
    files := [];
    ghost var ids: seq<FileId> := [];
    RootRouteContent(c, year);
    RouterContent(c, year);
    LayoutContent(c, year);
    if c.router == TanstackRouter {
      RenderSnoc(c, year, ids, RootRouteFile);
      files, ids := files + [GeneratedFile(RootRouteFile, Text(RootRouteModule()))], ids + [RootRouteFile];
      RenderSnoc(c, year, ids, RouterFile);
      files, ids := files + [GeneratedFile(RouterFile, Text(RouterModule()))], ids + [RouterFile];
    }
    if c.router == ReactRouter {
      RenderSnoc(c, year, ids, LayoutFile);
      files, ids := files + [GeneratedFile(LayoutFile, Text(ReactRouterLayoutModule()))], ids + [LayoutFile];
    }
    assert ids == RoutingOrder(c);
  }

  /** The Redux store. */
  method WriteStore(c: ScaffoldConfig, year: int) returns (files: seq<GeneratedFile>)
    ensures files == Render(c, year, StoreOrder(c))
  {
    files := [];
    ghost var ids: seq<FileId> := [];
    StoreContent(c, year);
    if c.state == Redux {
      RenderSnoc(c, year, ids, StoreFile);
      files, ids := files + [GeneratedFile(StoreFile, Text(StoreModule()))], ids + [StoreFile];
    }
    assert ids == StoreOrder(c);
  }

  /** The generated files in the order the source writes them. */
  method WriteFiles(c: ScaffoldConfig, year: int) returns (files: seq<GeneratedFile>)
    ensures files == Files(c, year)
  {
    files := WriteTailwind(c, year);
    var common := WriteCommon(c, year);
    RenderAppend(c, year, TailwindOrder(c), CommonOrder(c));
    files := files + common;
    var routing := WriteRouting(c, year);
    RenderAppend(c, year, TailwindOrder(c) + CommonOrder(c), RoutingOrder(c));
    files := files + routing;
    var store := WriteStore(c, year);
    RenderAppend(c, year, TailwindOrder(c) + CommonOrder(c) + RoutingOrder(c), StoreOrder(c));
    files := files + store;
    var app := ComposeApp(c);
    files := files + [GeneratedFile(AppFile, AppEntry(app))];
  }

  /**
   * `scaffoldProject`: fails with `Directory "<appName>" already exists.` before doing
   * anything when the project directory exists; otherwise selects the packages, installs
   * them, and writes the files.
   */
  method ScaffoldProject(c: ScaffoldConfig, year: int, targetExists: bool) returns (r: Result<Plan, string>)
    ensures r == Outcome(c, year, targetExists)
  {
    if targetExists {
      return Failure(AlreadyExists(c.appName));
    }
    var deps, devDeps := SelectDependencies(c);
    var installs := Install(deps, devDeps);
    var files := WriteFiles(c, year);
    r := Success(Plan(installs, files));
  }

  // ------------------------------------------------------------ installs

  /**
   * An install is issued only for a nonempty list, the runtime install before the
   * development one, and no other command is issued.
   */
  lemma InstallsSkipEmptyLists(deps: seq<string>, devDeps: seq<string>)
    ensures |InstallCommands(deps, devDeps)| == (if |deps| > 0 then 1 else 0) + (if |devDeps| > 0 then 1 else 0)
    ensures |deps| > 0 ==> InstallCommands(deps, devDeps)[0] == ["install"] + deps
    ensures |devDeps| > 0 ==> InstallCommands(deps, devDeps)[|InstallCommands(deps, devDeps)| - 1] == ["install", "-D"] + devDeps
    ensures forall cmd :: cmd in InstallCommands(deps, devDeps) ==>
      (cmd == ["install"] + deps && |deps| > 0) || (cmd == ["install", "-D"] + devDeps && |devDeps| > 0)
  {
  }

  /**
   * A configuration that selects no feature installs nothing; the development install
   * happens exactly for Tailwind and installs its two packages.
   */
  lemma ConfigInstalls(c: ScaffoldConfig)
    ensures InstallCommands(Deps(c), DevDeps(c)) == [] <==>
      c.styling == NoStyling && c.router == NoRouter && c.state == NoState && c.query == NoQuery && !c.toastify
    ensures ["install", "-D", TAILWINDCSS, TAILWIND_VITE] in InstallCommands(Deps(c), DevDeps(c)) <==> c.styling == Tailwind
  {
    InstallsSkipEmptyLists(Deps(c), DevDeps(c));
    StylingPackagesPlacement(c);
    DepsAreRequested(c);
    if |Deps(c)| > 0 {
      assert Deps(c)[0] in Deps(c);
    } else {
      assert !RuntimeRequested(c, MUI_MATERIAL) && !RuntimeRequested(c, TANSTACK_ROUTER) && !RuntimeRequested(c, REACT_ROUTER_DOM);
      assert !RuntimeRequested(c, REDUX_TOOLKIT) && !RuntimeRequested(c, ZUSTAND) && !RuntimeRequested(c, JOTAI);
      assert !RuntimeRequested(c, TANSTACK_QUERY) && !RuntimeRequested(c, REACT_TOASTIFY);
    }
    var cmd := ["install", "-D", TAILWINDCSS, TAILWIND_VITE];
    if c.styling == Tailwind {
      assert cmd == ["install", "-D"] + DevDeps(c);
    } else {
      assert cmd[2] == TAILWINDCSS && TAILWINDCSS !in ["install"] + Deps(c);
    }
  }

  // ------------------------------------------------------------ which files, in which order

  /**
   * The files are written in this order whatever the configuration: the stylesheets
   * (whether Tailwind's or the empty ones) right after vite.config.ts and before the
   * Navbar, App.tsx last.
   */
  lemma FileOrder(c: ScaffoldConfig)
    ensures WriteOrder(c) ==
      (if c.styling == Tailwind then [ViteConfigFile] else [])
      + (if c.styling != Mui then [IndexCss, AppCss] else [])
      + [NavbarFile, FooterFile, HomeFile, AboutFile]
      + RoutingOrder(c) + StoreOrder(c) + [AppFile]
  {
  }

  /** Whether a file is generated, file by file. */
  predicate Emitted(c: ScaffoldConfig, f: FileId)
  {
    match f
    case ViteConfigFile => c.styling == Tailwind
    case IndexCss | AppCss => c.styling != Mui
    case NavbarFile | FooterFile | HomeFile | AboutFile | AppFile => true
    case RootRouteFile | RouterFile => c.router == TanstackRouter
    case LayoutFile => c.router == ReactRouter
    case StoreFile => c.state == Redux
  }

  /** A file is generated exactly when its row of `Emitted` says so. */
  lemma EmittedFiles(c: ScaffoldConfig)
    ensures forall f :: f in WriteOrder(c) <==> Emitted(c, f)
  {
    FileOrder(c);
  }

  predicate Distinct(ids: seq<FileId>)
  {
    forall i, j :: 0 <= i < j < |ids| ==> ids[i] != ids[j]
  }

  lemma DistinctAppend(a: seq<FileId>, b: seq<FileId>)
    requires Distinct(a) && Distinct(b)
    requires forall f :: f in a ==> f !in b
    ensures Distinct(a + b)
  {
    forall i, j | 0 <= i < j < |a + b|
      ensures (a + b)[i] != (a + b)[j]
    {
      if j < |a| {
        assert (a + b)[i] == a[i] && (a + b)[j] == a[j];
      } else if i < |a| {
        assert (a + b)[i] == a[i] && (a + b)[j] == b[j - |a|];
        assert a[i] in a && b[j - |a|] in b;
      } else {
        assert (a + b)[i] == b[i - |a|] && (a + b)[j] == b[j - |a|];
      }
    }
  }

  lemma BlocksDistinct(c: ScaffoldConfig)
    ensures Distinct(TailwindOrder(c)) && Distinct(CommonOrder(c)) && Distinct(RoutingOrder(c))
    ensures Distinct(StoreOrder(c)) && Distinct([AppFile])
  {
  }

  lemma BlocksDisjoint(c: ScaffoldConfig)
    ensures forall f :: f in TailwindOrder(c) ==> f !in CommonOrder(c)
    ensures forall f :: f in TailwindOrder(c) + CommonOrder(c) ==> f !in RoutingOrder(c)
    ensures forall f :: f in TailwindOrder(c) + CommonOrder(c) + RoutingOrder(c) ==> f !in StoreOrder(c)
    ensures forall f :: f in TemplateOrder(c) ==> f != AppFile
  {
  }

  /** No file is written twice, and App.tsx is written last. */
  lemma WrittenOnce(c: ScaffoldConfig)
    ensures var ids := WriteOrder(c);
      forall i, j :: 0 <= i < j < |ids| ==> ids[i] != ids[j]
    ensures WriteOrder(c)[|WriteOrder(c)| - 1] == AppFile
  {
    BlocksDistinct(c);
    BlocksDisjoint(c);
    DistinctAppend(TailwindOrder(c), CommonOrder(c));
    DistinctAppend(TailwindOrder(c) + CommonOrder(c), RoutingOrder(c));
    DistinctAppend(TailwindOrder(c) + CommonOrder(c) + RoutingOrder(c), StoreOrder(c));
    DistinctAppend(TemplateOrder(c), [AppFile]);
  }

  /** Different files have different paths. */
  lemma PathsDistinct()
    ensures forall f, g :: f != g ==> PathOf(f) != PathOf(g)
  {
  }

  /** The generated files are the emitted ones, each with its content, App.tsx as composed. */
  lemma GeneratedFiles(c: ScaffoldConfig, year: int)
    ensures forall g :: g in Files(c, year) <==>
      Emitted(c, g.file) && g.body == (if g.file == AppFile then AppEntry(AppTsx(c)) else Text(ContentOf(c, year, g.file)))
  {
    TemplateFiles(c, year);
    var files := Files(c, year);
    var app := GeneratedFile(AppFile, AppEntry(AppTsx(c)));
    forall g
      ensures g in files <==> Emitted(c, g.file) && g.body == (if g.file == AppFile then app.body else Text(ContentOf(c, year, g.file)))
    {
      assert g in files <==> g in Render(c, year, TemplateOrder(c)) || g == app;
      if g.file == AppFile {
        assert g !in Render(c, year, TemplateOrder(c));
      }
    }
  }

  lemma TemplateFiles(c: ScaffoldConfig, year: int)
    ensures forall g :: g in Render(c, year, TemplateOrder(c)) <==>
      g.file != AppFile && Emitted(c, g.file) && g.body == Text(ContentOf(c, year, g.file))
  {
    EmittedFiles(c);
    RenderAt(c, year, TemplateOrder(c));
    assert forall f :: f in WriteOrder(c) <==> f in TemplateOrder(c) || f == AppFile;
  }

  /** The i-th generated file is the i-th file of the write order. */
  lemma FilesFollowOrder(c: ScaffoldConfig, year: int)
    ensures |Files(c, year)| == |WriteOrder(c)|
    ensures forall i :: 0 <= i < |WriteOrder(c)| ==> Files(c, year)[i].file == WriteOrder(c)[i]
  {
    RenderAt(c, year, TemplateOrder(c));
    FollowedByApp(Render(c, year, TemplateOrder(c)), TemplateOrder(c), GeneratedFile(AppFile, AppEntry(AppTsx(c))));
  }

  lemma FollowedByApp(rendered: seq<GeneratedFile>, ids: seq<FileId>, app: GeneratedFile)
    requires |rendered| == |ids| && app.file == AppFile
    requires forall i :: 0 <= i < |ids| ==> rendered[i].file == ids[i]
    ensures |rendered + [app]| == |ids + [AppFile]|
    ensures forall i :: 0 <= i < |ids + [AppFile]| ==> (rendered + [app])[i].file == (ids + [AppFile])[i]
  {
  }

  lemma DistinctPaths(files: seq<GeneratedFile>, ids: seq<FileId>)
    requires |files| == |ids| && Distinct(ids)
    requires forall i :: 0 <= i < |ids| ==> files[i].file == ids[i]
    ensures forall i, j :: 0 <= i < j < |files| ==> PathOf(files[i].file) != PathOf(files[j].file)
  {
    PathsDistinct();
  }

  /** No path is written twice. */
  lemma NoPathTwice(c: ScaffoldConfig, year: int)
    ensures var files := Files(c, year);
      forall i, j :: 0 <= i < j < |files| ==> PathOf(files[i].file) != PathOf(files[j].file)
  {
    FilesFollowOrder(c, year);
    WrittenOnce(c);
    DistinctPaths(Files(c, year), WriteOrder(c));
  }

  // ------------------------------------------------------------ stylesheets and modules

  /**
   * index.css and app.css hold Tailwind's directive with Tailwind, are empty without
   * styling, and are not written at all for Material UI.
   */
  lemma Stylesheets(c: ScaffoldConfig, year: int)
    ensures c.styling == Tailwind ==> forall g :: g in Files(c, year) && g.file in {IndexCss, AppCss} ==>
      g.body == Text(Stylesheet(TAILWIND_DIRECTIVE))
    ensures c.styling == NoStyling ==> forall g :: g in Files(c, year) && g.file in {IndexCss, AppCss} ==>
      g.body == Text(Stylesheet(""))
    ensures c.styling == Mui <==> forall g :: g in Files(c, year) ==> g.file !in {IndexCss, AppCss}
  {
    GeneratedFiles(c, year);
    if c.styling == Tailwind {
      TailwindContents(c, year);
    }
    CommonContents(c, year);
    if c.styling != Mui {
      assert GeneratedFile(IndexCss, Text(ContentOf(c, year, IndexCss))) in Files(c, year);
    }
  }

  /** Whether a generated module brings in every identifier its body refers to, file by file. */
  lemma {:induction false} ModuleSelfConsistent(c: ScaffoldConfig, year: int, f: FileId)
    requires f != AppFile
    ensures SelfConsistent(ContentOf(c, year, f)) <==> !(f == NavbarFile && c.styling != NoStyling && c.router == NoRouter)
  {
    match f
    case NavbarFile =>
      CommonContents(c, year);
      NavbarSelfConsistency(c.styling, c.router);
    case FooterFile | HomeFile | AboutFile =>
      CommonContents(c, year);
      PagesSelfConsistent(c.styling, year, c.appName);
    case ViteConfigFile => ViteConfigImports();
    case IndexCss | AppCss =>
    case RootRouteFile => RootRouteContent(c, year); RootRouteSelfConsistent();
    case RouterFile => RouterContent(c, year); RouteTreeSelfConsistent();
    case LayoutFile => LayoutContent(c, year); LayoutSelfConsistent();
    case StoreFile => StoreContent(c, year); StoreSelfConsistent();
  }

  /**
   * Every generated module imports what its body uses, except the Navbar of a styled
   * project without a router, which uses `Link` without importing it.
   */
  lemma ModulesSelfConsistent(c: ScaffoldConfig, year: int)
    ensures forall g :: g in Files(c, year) && g.body.Text? ==>
      (SelfConsistent(g.body.content) <==> !(g.file == NavbarFile && c.styling != NoStyling && c.router == NoRouter))
  {
    GeneratedFiles(c, year);
    forall g | g in Files(c, year) && g.body.Text?
      ensures SelfConsistent(g.body.content) <==> !(g.file == NavbarFile && c.styling != NoStyling && c.router == NoRouter)
    {
      ModuleSelfConsistent(c, year, g.file);
    }
  }

  // ------------------------------------------------------------ imports against installs

  /** The packages present after a run: the Vite template's own and both install lists. */
  function Installed(c: ScaffoldConfig): set<string>
  {
    VITE_TEMPLATE_PACKAGES + (set p | p in Deps(c)) + (set p | p in DevDeps(c))
  }

  /** The npm packages a generated file imports from. */
  function BodyPackages(b: FileBody): set<string>
  {
    match b
    case Text(content) => PackagesOf(content)
    case AppEntry(chunks) => AppPackages(chunks)
  }

  /** A package is installed when the Vite template has it, the configuration asks for it, or Tailwind needs it. */
  lemma InstalledTable(c: ScaffoldConfig)
    ensures forall p :: p in Installed(c) <==> p in VITE_TEMPLATE_PACKAGES || RuntimeRequested(c, p) || p in DevDeps(c)
  {
    DepsAreRequested(c);
  }

  /** The packages of each selected feature are installed. */
  lemma SelectedPackagesInstalled(c: ScaffoldConfig)
    ensures c.router == TanstackRouter ==> TANSTACK_ROUTER in Installed(c)
    ensures c.router == ReactRouter ==> REACT_ROUTER_DOM in Installed(c)
    ensures c.styling == Mui ==> MUI_MATERIAL in Installed(c)
    ensures c.styling == Tailwind ==> TAILWIND_VITE in Installed(c)
    ensures c.state == Redux ==> REDUX_TOOLKIT in Installed(c) && REACT_REDUX in Installed(c)
    ensures c.state == Zustand ==> ZUSTAND in Installed(c)
    ensures c.state == Jotai ==> JOTAI in Installed(c)
    ensures c.query == TanstackQuery ==> TANSTACK_QUERY in Installed(c)
    ensures c.toastify ==> REACT_TOASTIFY in Installed(c)
  {
    EarlyPackagesInstalled(c);
    LatePackagesInstalled(c);
  }

  /** The styling and router packages, pushed first. */
  lemma EarlyPackagesInstalled(c: ScaffoldConfig)
    ensures c.router == TanstackRouter ==> TANSTACK_ROUTER in Installed(c)
    ensures c.router == ReactRouter ==> REACT_ROUTER_DOM in Installed(c)
    ensures c.styling == Mui ==> MUI_MATERIAL in Installed(c)
    ensures c.styling == Tailwind ==> TAILWIND_VITE in Installed(c)
  {
    var deps := Deps(c);
    var s0 := StylingDeps(c.styling);
    var s1 := s0 + RouterDeps(c.router, c.routerDevtools);
    assert deps == s1 + (StateDeps(c.state) + QueryDeps(c.query, c.queryDevtools) + ToastDeps(c.toastify));
    if c.styling == Mui {
      assert MUI_MATERIAL == s0[0] && MUI_MATERIAL in deps;
    }
    if c.styling == Tailwind {
      assert TAILWIND_VITE in DevDeps(c);
    }
    if c.router != NoRouter {
      assert s1[|s0|] in deps;
    }
  }

  /** The state, query and toast packages, pushed last. */
  lemma LatePackagesInstalled(c: ScaffoldConfig)
    ensures c.state == Redux ==> REDUX_TOOLKIT in Installed(c) && REACT_REDUX in Installed(c)
    ensures c.state == Zustand ==> ZUSTAND in Installed(c)
    ensures c.state == Jotai ==> JOTAI in Installed(c)
    ensures c.query == TanstackQuery ==> TANSTACK_QUERY in Installed(c)
    ensures c.toastify ==> REACT_TOASTIFY in Installed(c)
  {
    var deps := Deps(c);
    var s1 := StylingDeps(c.styling) + RouterDeps(c.router, c.routerDevtools);
    var s2 := s1 + StateDeps(c.state);
    var s3 := s2 + QueryDeps(c.query, c.queryDevtools);
    assert deps == s3 + ToastDeps(c.toastify);
    if c.state != NoState {
      assert s2[|s1|] in deps;
    }
    if c.state == Redux {
      assert s2[|s1| + 1] in deps;
    }
    if c.query == TanstackQuery {
      assert s3[|s2|] in deps;
    }
    if c.toastify {
      assert deps[|s3|] in deps;
    }
  }

  /** Every package name the run can install. */
  function KnownPackages(): set<string>
  {
    MUI_PACKAGES + ROUTER_PACKAGES + STATE_PACKAGES + QUERY_PACKAGES
    + {REACT_TOASTIFY, TAILWINDCSS, TAILWIND_VITE} + VITE_TEMPLATE_PACKAGES
  }

  lemma InstalledAreKnown(c: ScaffoldConfig)
    ensures Installed(c) <= KnownPackages()
  {
    DepsAreRequested(c);
  }

  lemma RouterDevtoolsModuleUnknown()
    ensures ROUTER_DEVTOOLS_MODULE !in KnownPackages()
  {
  }

  /** The router devtools module App.tsx imports is never installed: the install uses another name. */
  lemma RouterDevtoolsModuleMissing(c: ScaffoldConfig)
    ensures ROUTER_DEVTOOLS_MODULE !in Installed(c)
  {
    InstalledAreKnown(c);
    RouterDevtoolsModuleUnknown();
  }

  /** The query devtools are installed only when selected along with the query library. */
  lemma QueryDevtoolsInstalled(c: ScaffoldConfig)
    ensures TANSTACK_QUERY_DEVTOOLS in Installed(c) <==> c.query == TanstackQuery && c.queryDevtools
  {
    DevtoolsNeedOwner(c);
    assert TANSTACK_QUERY_DEVTOOLS !in DevDeps(c);
  }

  /** Every package a template-rendered file imports is installed. */
  lemma {:induction false} ModuleImportsInstalled(c: ScaffoldConfig, year: int, f: FileId)
    requires f != AppFile && Emitted(c, f)
    ensures PackagesOf(ContentOf(c, year, f)) <= Installed(c)
  {
    match f
    case NavbarFile =>
      CommonContents(c, year);
      NavbarPackages(c.styling, c.router);
      SelectedPackagesInstalled(c);
    case FooterFile | HomeFile | AboutFile =>
      CommonContents(c, year);
      PagesPackages(c.styling, year, c.appName);
      SelectedPackagesInstalled(c);
    case ViteConfigFile =>
      TailwindContents(c, year);
      ViteConfigImports();
      SelectedPackagesInstalled(c);
    case IndexCss | AppCss =>
    case RootRouteFile => RootRouteContent(c, year); RoutingModulesPackages(); SelectedPackagesInstalled(c);
    case RouterFile => RouterContent(c, year); RoutingModulesPackages(); SelectedPackagesInstalled(c);
    case LayoutFile => LayoutContent(c, year); RoutingModulesPackages(); SelectedPackagesInstalled(c);
    case StoreFile => StoreContent(c, year); RoutingModulesPackages(); SelectedPackagesInstalled(c);
  }

  /**
   * The packages App.tsx imports but no install brings in: the router devtools module
   * (installed under another name) and the query devtools when not selected.
   */
  lemma AppImportsMissing(c: ScaffoldConfig)
    ensures AppPackages(AppTsx(c)) - Installed(c) ==
      (if c.router == TanstackRouter && c.routerDevtools then {ROUTER_DEVTOOLS_MODULE} else {})
      + (if c.query == TanstackQuery && !c.queryDevtools then {TANSTACK_QUERY_DEVTOOLS} else {})
  {
    AppTsxPackages(c);
    PreambleImportsMissing(c);
  }

  lemma PreambleImportsMissing(c: ScaffoldConfig)
    ensures AppPackages(Preamble(c)) - Installed(c) ==
      (if c.router == TanstackRouter && c.routerDevtools then {ROUTER_DEVTOOLS_MODULE} else {})
      + (if c.query == TanstackQuery && !c.queryDevtools then {TANSTACK_QUERY_DEVTOOLS} else {})
  {
    var missing :=
      (if c.router == TanstackRouter && c.routerDevtools then {ROUTER_DEVTOOLS_MODULE} else {})
      + (if c.query == TanstackQuery && !c.queryDevtools then {TANSTACK_QUERY_DEVTOOLS} else {});
    PreambleSplit(c);
    PresentImportsInstalled(c);
    MissingNotInstalled(c);
    MissingPart(AppPackages(Preamble(c)), Installed(c), PresentImports(c), missing);
  }

  /** The packages App.tsx imports that the selection installs. */
  function PresentImports(c: ScaffoldConfig): set<string>
  {
    (if c.router == TanstackRouter then {TANSTACK_ROUTER} else {})
    + (if c.router == ReactRouter then {REACT_ROUTER_DOM} else {})
    + (if c.toastify then {REACT_TOASTIFY} else {})
    + (if c.state == Redux then {REACT_REDUX} else {})
    + (if c.query == TanstackQuery then {TANSTACK_QUERY} else {})
    + (if c.query == TanstackQuery && c.queryDevtools then {TANSTACK_QUERY_DEVTOOLS} else {})
  }

  lemma PresentImportsInstalled(c: ScaffoldConfig)
    ensures PresentImports(c) <= Installed(c)
  {
    SelectedPackagesInstalled(c);
    QueryDevtoolsInstalled(c);
  }

  lemma PreambleSplit(c: ScaffoldConfig)
    ensures AppPackages(Preamble(c)) == PresentImports(c)
      + (if c.router == TanstackRouter && c.routerDevtools then {ROUTER_DEVTOOLS_MODULE} else {})
      + (if c.query == TanstackQuery && !c.queryDevtools then {TANSTACK_QUERY_DEVTOOLS} else {})
  {
    PreamblePackages(c);
  }

  lemma MissingNotInstalled(c: ScaffoldConfig)
    ensures ((if c.router == TanstackRouter && c.routerDevtools then {ROUTER_DEVTOOLS_MODULE} else {})
      + (if c.query == TanstackQuery && !c.queryDevtools then {TANSTACK_QUERY_DEVTOOLS} else {})) !! Installed(c)
  {
    RouterDevtoolsModuleMissing(c);
    QueryDevtoolsInstalled(c);
  }

  lemma MissingPart(imported: set<string>, installed: set<string>, present: set<string>, missing: set<string>)
    requires imported == present + missing
    requires present <= installed && missing !! installed
    ensures imported - installed == missing
  {
  }

  /**
   * Every import of the generated project resolves to an installed package exactly when
   * neither devtools quirk applies.
   */
  lemma ImportsInstalled(c: ScaffoldConfig, year: int)
    ensures (forall g :: g in Files(c, year) ==> BodyPackages(g.body) <= Installed(c)) <==>
      !(c.router == TanstackRouter && c.routerDevtools) && !(c.query == TanstackQuery && !c.queryDevtools)
  {
    GeneratedFiles(c, year);
    AppImportsMissing(c);
    forall g | g in Files(c, year) && g.file != AppFile
      ensures BodyPackages(g.body) <= Installed(c)
    {
      ModuleImportsInstalled(c, year, g.file);
    }
    assert GeneratedFile(AppFile, AppEntry(AppTsx(c))) in Files(c, year);
  }

  // ------------------------------------------------------------ two complete runs

  /**
   * A project with no feature: the stylesheets left empty, the four common files, no
   * install, and an App.tsx whose component returns an empty expression (no JSX node).
   */
  lemma BareProject(appName: string, routerDevtools: bool, queryDevtools: bool, year: int)
    ensures var c := ScaffoldConfig(appName, NoStyling, NoRouter, routerDevtools, NoState, NoQuery, queryDevtools, false);
      && InstallCommands(Deps(c), DevDeps(c)) == []
      && WriteOrder(c) == [IndexCss, AppCss, NavbarFile, FooterFile, HomeFile, AboutFile, AppFile]
      && AppTsx(c) == [CSS_IMPORT, AppStart, AppEnd, ExportApp]
      && Roots(Body(c), 0) == 0
  {
    SingleRoot(ScaffoldConfig(appName, NoStyling, NoRouter, routerDevtools, NoState, NoQuery, queryDevtools, false));
  }

  /**
   * Tailwind with TanStack Router, Zustand and TanStack Query, both devtools and toasts:
   * Zustand needs no provider, so the query client's is the only one, around the router
   * element with its devtools, then the query devtools and the toast container.
   */
  lemma TanstackProject(appName: string, year: int)
    ensures var c := ScaffoldConfig(appName, Tailwind, TanstackRouter, true, Zustand, TanstackQuery, true, true);
      && InstallCommands(Deps(c), DevDeps(c)) == [
           ["install", TANSTACK_ROUTER, TANSTACK_ROUTER_DEVTOOLS, ZUSTAND, TANSTACK_QUERY, TANSTACK_QUERY_DEVTOOLS, REACT_TOASTIFY],
           ["install", "-D", TAILWINDCSS, TAILWIND_VITE]]
      && WriteOrder(c) == [ViteConfigFile, IndexCss, AppCss, NavbarFile, FooterFile, HomeFile, AboutFile,
                           RootRouteFile, RouterFile, AppFile]
      && Body(c) == Wrapped(QueryClientProvider,
           [Element(RouterProvider), Element(RouterDevtools), Element(QueryDevtools), Element(ToastContainer)])
  {
    var c := ScaffoldConfig(appName, Tailwind, TanstackRouter, true, Zustand, TanstackQuery, true, true);
    assert Deps(c) == [TANSTACK_ROUTER, TANSTACK_ROUTER_DEVTOOLS, ZUSTAND, TANSTACK_QUERY, TANSTACK_QUERY_DEVTOOLS, REACT_TOASTIFY];
    assert ["install"] + Deps(c) == ["install", TANSTACK_ROUTER, TANSTACK_ROUTER_DEVTOOLS, ZUSTAND, TANSTACK_QUERY, TANSTACK_QUERY_DEVTOOLS, REACT_TOASTIFY];
    assert ["install", "-D"] + DevDeps(c) == ["install", "-D", TAILWINDCSS, TAILWIND_VITE];
  }

  /**
   * App.tsx imports "./App.css" (the Vite template's stylesheet), while the run writes
   * "src/app.css": no generated file has the imported path.
   */
  lemma AppStylesheetNotGenerated()
    ensures CSS_IMPORT == ImportLine(SideEffect(Local("./App.css")))
    ensures forall f :: PathOf(f) != "src/App.css"
  {
  }
}
