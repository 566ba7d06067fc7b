/**
 * The per-file templates of the generated project. A template body is an opaque token
 * (its exact JSX text is not modelled); what is modelled is the import section of each
 * file, the identifiers the body refers to, and the conditions under which each
 * variant is chosen.
 */
module Templates {
  import opened Config
  import opened Dependencies
  import opened Wrappers

  /** Where an import statement takes its names from. */
  datatype Specifier =
    | Local(path: string)                 // a module of the generated project, as written ("../common/Navbar")
    | Npm(pkg: string, subpath: string)   // an npm package, or a file inside it ("/dist/ReactToastify.css")

  datatype Import =
    | Named(names: seq<string>, from: Specifier)   // import { A, B } from "…"
    | Default(name: string, from: Specifier)       // import A from "…"
    | SideEffect(from: Specifier)                  // import "…"

  function ImportedNames(i: Import): set<string>
  {
    match i
    case Named(names, _) => set n | n in names
    case Default(name, _) => {name}
    case SideEffect(_) => {}
  }

  function ImportedPackage(i: Import): Option<string>
  {
    if i.from.Npm? then Some(i.from.pkg) else None
  }

  /** The identifiers an import section brings into scope. */
  function Provided(imports: seq<Import>): set<string>
  {
    set i, n | i in imports && n in ImportedNames(i) :: n
  }

  lemma ProvidedByImport(imports: seq<Import>, k: nat)
    requires k < |imports|
    ensures ImportedNames(imports[k]) <= Provided(imports)
  {
  }

  /** The npm packages an import section loads from. */
  function ImportedPackages(imports: seq<Import>): set<string>
  {
    set i | i in imports && i.from.Npm? :: i.from.pkg
  }

  datatype Template =
    | NavbarAnchors                                   // styling none: inline-styled <a href> anchors
    | NavbarMui                                       // AppBar and Toolbar, Buttons rendered as the router's Link
    | NavbarTailwind                                  // utility-class <Link> elements
    | Footer(styling: Styling, year: int, appName: string)  // "© year appName", stamped at generation time
    | HomePage(styling: Styling)
    | AboutPage(styling: Styling)
    | Layout                                          // Navbar, an Outlet in <main>, Footer
    | RouteTree                                       // root route, "/" and "/about", router registration
    | StoreSetup                                      // configureStore with an empty reducer map
    | ViteConfig                                      // defineConfig with the react and tailwind plugins

  /** The identifiers a template body refers to. */
  function Uses(t: Template): set<string>
  {
    match t
    case NavbarAnchors => {}
    case NavbarMui => {"AppBar", "Toolbar", "Button", "Link"}
    case NavbarTailwind => {"Link"}
    case Footer(s, _, _) => if s == Mui then {"Box", "Typography"} else {}
    case HomePage(s) => if s == Mui then {"Typography"} else {}
    case AboutPage(s) => if s == Mui then {"Typography"} else {}
    case Layout => {"Outlet", "Navbar", "Footer"}
    case RouteTree => {"createRootRoute", "createRoute", "createRouter", "Layout", "Home", "About"}
    case StoreSetup => {"configureStore"}
    case ViteConfig => {"defineConfig", "react", "tailwindcss"}
  }

  datatype Content =
    | Module(imports: seq<Import>, body: Template)
    | Stylesheet(text: string)

  /** Every identifier the body refers to is brought in by the file's imports. */
  predicate SelfConsistent(f: Content)
  {
    f.Module? ==> Uses(f.body) <= Provided(f.imports)
  }

  function PackagesOf(f: Content): set<string>
  {
    if f.Module? then ImportedPackages(f.imports) else {}
  }

  function MuiComponent(name: string): Import
  {
    Default(name, Npm(MUI_MATERIAL, "/" + name))
  }

  // ---------------------------------------------------------------- Navbar

  /** The `Link` import of the selected router; none without a router. */
  function LinkImport(r: Router): seq<Import>
  {
    match r
    case TanstackRouter => [Named(["Link"], Npm(TANSTACK_ROUTER, ""))]
    case ReactRouter => [Named(["Link"], Npm(REACT_ROUTER_DOM, ""))]
    case NoRouter => []
  }

  /** Navbar.tsx: varies by styling; the router only decides the `Link` import. */
  function Navbar(s: Styling, r: Router): Content
  {
    match s
    case NoStyling => Module([], NavbarAnchors)
    case Mui => Module(LinkImport(r) + [MuiComponent("AppBar"), MuiComponent("Toolbar"), MuiComponent("Button")], NavbarMui)
    case Tailwind => Module(LinkImport(r), NavbarTailwind)
  }

  /** Navbar.tsx as the source builds it, by reassigning its import and its content. */
  method BuildNavbar(s: Styling, r: Router) returns (navbar: Content)
    ensures navbar == Navbar(s, r)
  {
    var navbarImport: seq<Import> := [];
    if r == TanstackRouter {
      navbarImport := [Named(["Link"], Npm(TANSTACK_ROUTER, ""))];
    } else if r == ReactRouter {
      navbarImport := [Named(["Link"], Npm(REACT_ROUTER_DOM, ""))];
    }

    if s == NoStyling {
      navbar := Module([], NavbarAnchors);
    } else if s == Mui {
      navbar := Module(navbarImport + [MuiComponent("AppBar"), MuiComponent("Toolbar"), MuiComponent("Button")], NavbarMui);
    } else {
      navbar := Module(navbarImport, NavbarTailwind);
    }
  }

  /**
   * `Link` is imported from exactly the selected router's package, never the other
   * one's; the unstyled Navbar uses plain anchors and imports nothing.
   */
  lemma NavbarLinkImport(s: Styling, r: Router)
    ensures s == NoStyling ==> Navbar(s, r).imports == [] && "Link" !in Uses(Navbar(s, r).body)
    ensures s != NoStyling ==> "Link" in Uses(Navbar(s, r).body)
    ensures "Link" in Provided(Navbar(s, r).imports) <==> s != NoStyling && r != NoRouter
    ensures forall i :: i in Navbar(s, r).imports && "Link" in ImportedNames(i) ==>
      && (r == TanstackRouter ==> i.from == Npm(TANSTACK_ROUTER, ""))
      && (r == ReactRouter ==> i.from == Npm(REACT_ROUTER_DOM, ""))
  {
    var imports := Navbar(s, r).imports;
    if s != NoStyling && r != NoRouter {
      assert imports[0] in imports && "Link" in ImportedNames(imports[0]);
    }
  }

  /**
   * The Navbar refers only to imported names, except when a styled Navbar renders
   * `Link` while no router was chosen: then `Link` is never imported.
   */
  lemma NavbarSelfConsistency(s: Styling, r: Router)
    ensures SelfConsistent(Navbar(s, r)) <==> s == NoStyling || r != NoRouter
  {
    NavbarLinkImport(s, r);
    var imports := Navbar(s, r).imports;
    if s == Mui {
      var k := |LinkImport(r)|;
      assert imports[k] in imports && "AppBar" in ImportedNames(imports[k]);
      assert imports[k + 1] in imports && "Toolbar" in ImportedNames(imports[k + 1]);
      assert imports[k + 2] in imports && "Button" in ImportedNames(imports[k + 2]);
    }
  }

  /** The npm package `Link` comes from with router `r`. */
  function LinkPackages(r: Router): set<string>
  {
    match r
    case TanstackRouter => {TANSTACK_ROUTER}
    case ReactRouter => {REACT_ROUTER_DOM}
    case NoRouter => {}
  }

  /** The Navbar imports from the router's package only when styled, and from Material UI only with it. */
  lemma NavbarPackages(s: Styling, r: Router)
    ensures PackagesOf(Navbar(s, r)) == (if s == NoStyling then {} else LinkPackages(r)) + (if s == Mui then {MUI_MATERIAL} else {})
  {
    var imports := Navbar(s, r).imports;
    if s == Mui {
      var k := |LinkImport(r)|;
      assert imports[k] in imports && ImportedPackage(imports[k]) == Some(MUI_MATERIAL);
    }
    if s != NoStyling && r != NoRouter {
      assert imports[0] in imports;
    }
  }

  // ------------------------------------------------------ Footer, Home, About

  /** The imports of Footer, Home and About: Material UI's components with it, nothing otherwise. */
  function PageImports(s: Styling, names: seq<string>): seq<Import>
  {
    if s == Mui then seq(|names|, i requires 0 <= i < |names| => MuiComponent(names[i])) else []
  }

  /** Footer.tsx: varies by styling only; the year and the project name are stamped in. */
  function FooterModule(s: Styling, year: int, appName: string): Content
  {
    Module(PageImports(s, ["Typography", "Box"]), Footer(s, year, appName))
  }

  /** Home.tsx: varies by styling only. */
  function HomeModule(s: Styling): Content
  {
    Module(PageImports(s, ["Typography"]), HomePage(s))
  }

  /** About.tsx: varies by styling only. */
  function AboutModule(s: Styling): Content
  {
    Module(PageImports(s, ["Typography"]), AboutPage(s))
  }

  /**
   * Each page component imports from Material UI exactly the components its body uses,
   * with Material UI, and imports nothing otherwise.
   */
  lemma PagesSelfConsistent(s: Styling, year: int, appName: string)
    ensures SelfConsistent(FooterModule(s, year, appName))
    ensures SelfConsistent(HomeModule(s)) && SelfConsistent(AboutModule(s))
  {
    if s == Mui {
      var footer := FooterModule(s, year, appName).imports;
      assert footer[0] == MuiComponent("Typography") && footer[1] == MuiComponent("Box");
      ProvidedByImport(footer, 0); ProvidedByImport(footer, 1);
      var page := HomeModule(s).imports;
      assert page[0] == MuiComponent("Typography");
      ProvidedByImport(page, 0);
    }
  }

  /** The pages import from Material UI with it, and from no package otherwise. */
  lemma PagesPackages(s: Styling, year: int, appName: string)
    ensures PackagesOf(FooterModule(s, year, appName)) == (if s == Mui then {MUI_MATERIAL} else {})
    ensures PackagesOf(HomeModule(s)) == PackagesOf(AboutModule(s)) == (if s == Mui then {MUI_MATERIAL} else {})
  {
    if s == Mui {
      var footer := FooterModule(s, year, appName).imports;
      assert footer[0] in footer;
      var page := HomeModule(s).imports;
      assert page[0] in page;
    }
  }

  // ------------------------------------------------------ routing, store, styling

  /** routes/__root.tsx (TanStack Router): the layout with TanStack's Outlet. */
  function RootRouteModule(): Content
  {
    Module([Named(["Outlet"], Npm(TANSTACK_ROUTER, "")),
            Default("Navbar", Local("../common/Navbar")),
            Default("Footer", Local("../common/Footer"))], Layout)
  }

  /** routes/router.tsx (TanStack Router): the route tree bound to Layout, Home and About. */
  function RouterModule(): Content
  {
    Module([Named(["createRootRoute", "createRoute", "createRouter"], Npm(TANSTACK_ROUTER, "")),
            Default("Layout", Local("./__root")),
            Default("Home", Local("../Pages/Home")),
            Default("About", Local("../Pages/About"))], RouteTree)
  }

  /** routes/Layout.tsx (React Router): the same layout with React Router's Outlet. */
  function ReactRouterLayoutModule(): Content
  {
    Module([Named(["Outlet"], Npm(REACT_ROUTER_DOM, "")),
            Default("Navbar", Local("../common/Navbar")),
            Default("Footer", Local("../common/Footer"))], Layout)
  }

  /** store/store.ts (Redux): a configured store with an empty reducer map. */
  function StoreModule(): Content
  {
    Module([Named(["configureStore"], Npm(REDUX_TOOLKIT, ""))], StoreSetup)
  }

  /** Packages the `react-ts` template of `npm create vite` already installs. */
  const VITE_TEMPLATE_PACKAGES: set<string> := {"react", "react-dom", "vite", "@vitejs/plugin-react"}

  /** vite.config.ts (Tailwind): the React plugin and Tailwind's Vite plugin. */
  function ViteConfigModule(): Content
  {
    Module([Named(["defineConfig"], Npm("vite", "")),
            Default("react", Npm("@vitejs/plugin-react", "")),
            Default("tailwindcss", Npm(TAILWIND_VITE, ""))], ViteConfig)
  }

  /** The TanStack Router root layout imports everything its body uses. */
  lemma RootRouteSelfConsistent()
    ensures SelfConsistent(RootRouteModule())
  {
    var imports := RootRouteModule().imports;
    ProvidedByImport(imports, 0); ProvidedByImport(imports, 1); ProvidedByImport(imports, 2);
  }

  /** The React Router layout imports everything its body uses. */
  lemma LayoutSelfConsistent()
    ensures SelfConsistent(ReactRouterLayoutModule())
  {
    var imports := ReactRouterLayoutModule().imports;
    ProvidedByImport(imports, 0); ProvidedByImport(imports, 1); ProvidedByImport(imports, 2);
  }

  /** The route tree imports everything its body uses. */
  lemma RouteTreeSelfConsistent()
    ensures SelfConsistent(RouterModule())
  {
    var imports := RouterModule().imports;
    ProvidedByImport(imports, 0); ProvidedByImport(imports, 1); ProvidedByImport(imports, 2); ProvidedByImport(imports, 3);
  }

  /** The store imports `configureStore`. */
  lemma StoreSelfConsistent()
    ensures SelfConsistent(StoreModule())
  {
    ProvidedByImport(StoreModule().imports, 0);
  }

  /** Each routing module imports from its own router's package only; the store from Redux Toolkit. */
  lemma RoutingModulesPackages()
    ensures PackagesOf(RootRouteModule()) == PackagesOf(RouterModule()) == {TANSTACK_ROUTER}
    ensures PackagesOf(ReactRouterLayoutModule()) == {REACT_ROUTER_DOM}
    ensures PackagesOf(StoreModule()) == {REDUX_TOOLKIT}
  {
    var root := RootRouteModule().imports;
    assert root[0] in root;
    var tree := RouterModule().imports;
    assert tree[0] in tree;
    var layout := ReactRouterLayoutModule().imports;
    assert layout[0] in layout;
    var store := StoreModule().imports;
    assert store[0] in store;
  }

  /** vite.config.ts imports what it uses, from Vite, its React plugin and Tailwind's plugin. */
  lemma ViteConfigImports()
    ensures SelfConsistent(ViteConfigModule())
    ensures PackagesOf(ViteConfigModule()) == {"vite", "@vitejs/plugin-react", TAILWIND_VITE}
  {
    var imports := ViteConfigModule().imports;
    ProvidedByImport(imports, 0); ProvidedByImport(imports, 1); ProvidedByImport(imports, 2);
    assert imports[0] in imports && imports[1] in imports && imports[2] in imports;
  }

  const TAILWIND_DIRECTIVE := "@import \"tailwindcss\";"
}
