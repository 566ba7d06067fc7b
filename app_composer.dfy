/**
 * Composition of the generated `src/App.tsx`: an import section chosen by the enabled
 * features, then the `App` component whose JSX is a stack of provider wrappers
 * (Redux `Provider` outside TanStack `QueryClientProvider`) around the router element
 * and the trailing devtools and toast siblings. The file is a sequence of chunks; a
 * wrapper is an `Open` chunk and a matching `Close` chunk.
 */
module AppComposer {
  import opened Config
  import opened Dependencies
  import opened Templates
  import opened Wrappers

  /** Elements with children: each is opened and later closed. */
  datatype Tag = ReduxProvider | QueryClientProvider | BrowserRouter | Routes | LayoutRoute

  /** Self-closing elements. */
  datatype Leaf = RouterProvider | RouterDevtools | HomeRoute | AboutRoute | QueryDevtools | ToastContainer

  datatype Chunk =
    | ImportLine(imp: Import)
    | QueryClientDecl          // const queryClient = new QueryClient();
    | AppStart                 // function App() { return (
    | Open(tag: Tag)
    | Close(tag: Tag)
    | Element(leaf: Leaf)
    | AppEnd                   // ); }
    | ExportApp                // export default App;

  /** The module App.tsx loads the router devtools from (not the package that is installed). */
  const ROUTER_DEVTOOLS_MODULE := "@tanstack/react-router-devtools"

  // The blocks the source appends to App.tsx, in order.

  const CSS_IMPORT := ImportLine(SideEffect(Local("./App.css")))

  const TANSTACK_ROUTER_IMPORTS := [
    ImportLine(Named(["RouterProvider"], Npm(TANSTACK_ROUTER, ""))),
    ImportLine(Named(["router"], Local("./routes/router")))]

  const REACT_ROUTER_IMPORTS := [
    ImportLine(Named(["BrowserRouter", "Routes", "Route"], Npm(REACT_ROUTER_DOM, ""))),
    ImportLine(Default("Layout", Local("./routes/Layout"))),
    ImportLine(Default("Home", Local("./Pages/Home"))),
    ImportLine(Default("About", Local("./Pages/About")))]

  const TOASTIFY_IMPORTS := [
    ImportLine(Named(["ToastContainer"], Npm(REACT_TOASTIFY, ""))),
    ImportLine(SideEffect(Npm(REACT_TOASTIFY, "/dist/ReactToastify.css")))]

  const REDUX_IMPORTS := [
    ImportLine(Named(["Provider"], Npm(REACT_REDUX, ""))),
    ImportLine(Named(["store"], Local("./store/store")))]

  const QUERY_IMPORTS := [
    ImportLine(Named(["QueryClient", "QueryClientProvider"], Npm(TANSTACK_QUERY, ""))),
    ImportLine(Named(["ReactQueryDevtools"], Npm(TANSTACK_QUERY_DEVTOOLS, ""))),
    QueryClientDecl]

  const ROUTER_DEVTOOLS_IMPORT := ImportLine(Named(["TanStackRouterDevtools"], Npm(ROUTER_DEVTOOLS_MODULE, "")))

  /** BrowserRouter > Routes > Route "/" with Layout, holding the index Home route and "about". */
  const ROUTE_SWITCH := [
    Open(BrowserRouter), Open(Routes), Open(LayoutRoute),
    Element(HomeRoute), Element(AboutRoute),
    Close(LayoutRoute), Close(Routes), Close(BrowserRouter)]

  // ------------------------------------------------------------ specification

  /** The import section (with the query client declaration), feature by feature. */
  function Preamble(c: ScaffoldConfig): seq<Chunk>
  {
    [CSS_IMPORT]
    + (if c.router == TanstackRouter then TANSTACK_ROUTER_IMPORTS else [])
    + (if c.router == ReactRouter then REACT_ROUTER_IMPORTS else [])
    + (if c.toastify then TOASTIFY_IMPORTS else [])
    + (if c.state == Redux then REDUX_IMPORTS else [])
    + (if c.query == TanstackQuery then QUERY_IMPORTS else [])
    + (if c.router == TanstackRouter && c.routerDevtools then [ROUTER_DEVTOOLS_IMPORT] else [])
  }

  /** `t` opened before `s` and closed after it. */
  function Wrapped(t: Tag, s: seq<Chunk>): seq<Chunk>
  {
    [Open(t)] + s + [Close(t)]
  }

  /** `s` wrapped in `t` when the feature that needs `t` is enabled. */
  function WrapIf(enabled: bool, t: Tag, s: seq<Chunk>): seq<Chunk>
  {
    if enabled then Wrapped(t, s) else s
  }

  /** The routing element: RouterProvider with its devtools, the route switch, or nothing. */
  function RouterView(c: ScaffoldConfig): seq<Chunk>
  {
    match c.router
    case TanstackRouter => [Element(RouterProvider)] + (if c.routerDevtools then [Element(RouterDevtools)] else [])
    case ReactRouter => ROUTE_SWITCH
    case NoRouter => []
  }

  /** The trailing siblings: the query devtools, then the toast container. */
  function Siblings(c: ScaffoldConfig): seq<Chunk>
  {
    (if c.queryDevtools && c.query == TanstackQuery then [Element(QueryDevtools)] else [])
    + (if c.toastify then [Element(ToastContainer)] else [])
  }

  /** What the provider wrappers enclose. */
  function Inner(c: ScaffoldConfig): seq<Chunk>
  {
    RouterView(c) + Siblings(c)
  }

  /** The JSX returned by App: Redux's `Provider` outside `QueryClientProvider`, around the inner elements. */
  function Body(c: ScaffoldConfig): seq<Chunk>
  {
    WrapIf(c.state == Redux, ReduxProvider, WrapIf(c.query == TanstackQuery, QueryClientProvider, Inner(c)))
  }

  function AppTsx(c: ScaffoldConfig): seq<Chunk>
  {
    Preamble(c) + [AppStart] + Body(c) + [AppEnd, ExportApp]
  }

  // ------------------------------------------------------------ the source's procedure

  /** The import section of App.tsx as the source appends it (lines up to the component). */
  method ComposePreamble(c: ScaffoldConfig) returns (app: seq<Chunk>)
    ensures app == Preamble(c)
  {
    app := [CSS_IMPORT];
    ghost var head := app;
    if c.router == TanstackRouter {
      app := app + TANSTACK_ROUTER_IMPORTS;
    } else {
      AppendEmpty(app);
    }
    assert app == head + (if c.router == TanstackRouter then TANSTACK_ROUTER_IMPORTS else []);
    head := app;
    if c.router == ReactRouter {
      app := app + REACT_ROUTER_IMPORTS;
    } else {
      AppendEmpty(app);
    }
    assert app == head + (if c.router == ReactRouter then REACT_ROUTER_IMPORTS else []);
    head := app;
    if c.toastify {
      app := app + TOASTIFY_IMPORTS;
    } else {
      AppendEmpty(app);
    }
    assert app == head + (if c.toastify then TOASTIFY_IMPORTS else []);
    head := app;
    if c.state == Redux {
      app := app + REDUX_IMPORTS;
    } else {
      AppendEmpty(app);
    }
    assert app == head + (if c.state == Redux then REDUX_IMPORTS else []);
    head := app;
    if c.query == TanstackQuery {
      app := app + QUERY_IMPORTS;
    } else {
      AppendEmpty(app);
    }
    assert app == head + (if c.query == TanstackQuery then QUERY_IMPORTS else []);
    if c.router == TanstackRouter && c.routerDevtools {
      app := app + [ROUTER_DEVTOOLS_IMPORT];
    } else {
      AppendEmpty(app);
    }
  }

  /** What the wrappers enclose, as the source appends it: the routing element, then the siblings. */
  method ComposeInner(c: ScaffoldConfig) returns (jsx: seq<Chunk>)
    ensures jsx == Inner(c)
  {
    jsx := [];
    if c.router == TanstackRouter {
      jsx := jsx + [Element(RouterProvider)];
      if c.routerDevtools {
        jsx := jsx + [Element(RouterDevtools)];
      }
    } else if c.router == ReactRouter {
      jsx := jsx + ROUTE_SWITCH;
    }
    ghost var head := jsx;
    assert head == RouterView(c);

    if c.queryDevtools && c.query == TanstackQuery {
      jsx := jsx + [Element(QueryDevtools)];
    }
    if c.toastify {
      jsx := jsx + [Element(ToastContainer)];
      if c.queryDevtools && c.query == TanstackQuery {
        AppendAssoc(head, [Element(QueryDevtools)], [Element(ToastContainer)]);
      }
    } else if !(c.queryDevtools && c.query == TanstackQuery) {
      AppendEmpty(head);
    }
  }

  /**
   * The JSX of App as the source appends it: the opening provider tags, what they
   * enclose, then the closing tags in the reverse order.
   */
  method ComposeBody(c: ScaffoldConfig) returns (jsx: seq<Chunk>)
    ensures jsx == Body(c)
  {
    var redux := c.state == Redux;
    var query := c.query == TanstackQuery;
    var opening: seq<Chunk> := [];
    if redux {
      opening := opening + [Open(ReduxProvider)];
    }
    if query {
      opening := opening + [Open(QueryClientProvider)];
    }
    assert opening == (if redux then [Open(ReduxProvider)] else []) + (if query then [Open(QueryClientProvider)] else []);
    var inner := ComposeInner(c);
    jsx := opening + inner;
    if query {
      jsx := jsx + [Close(QueryClientProvider)];
    }
    if redux {
      jsx := jsx + [Close(ReduxProvider)];
    }
    assert jsx == opening + inner + (if query then [Close(QueryClientProvider)] else []) + (if redux then [Close(ReduxProvider)] else []);
    FlatWrapping(redux, query, inner);
  }

  /** The provider tags appended one after another nest as `WrapIf` says. */
  lemma FlatWrapping(redux: bool, query: bool, inner: seq<Chunk>)
    ensures (if redux then [Open(ReduxProvider)] else []) + (if query then [Open(QueryClientProvider)] else [])
      + inner + (if query then [Close(QueryClientProvider)] else []) + (if redux then [Close(ReduxProvider)] else [])
      == WrapIf(redux, ReduxProvider, WrapIf(query, QueryClientProvider, inner))
  {
    if redux && query {
      assert [Open(ReduxProvider)] + [Open(QueryClientProvider)] + inner + [Close(QueryClientProvider)] + [Close(ReduxProvider)]
        == [Open(ReduxProvider)] + ([Open(QueryClientProvider)] + inner + [Close(QueryClientProvider)]) + [Close(ReduxProvider)];
    } else if !redux && !query {
      assert [] + [] + inner + [] + [] == inner;
    }
  }

  /** App.tsx as the source builds it: imports, the App component around its JSX, the export. */
  method ComposeApp(c: ScaffoldConfig) returns (app: seq<Chunk>)
    ensures app == AppTsx(c)
  {
    var preamble := ComposePreamble(c);
    var jsx := ComposeBody(c);
    app := preamble + [AppStart] + jsx + [AppEnd, ExportApp];
  }

  // ------------------------------------------------------------ wrapper balance

  /**
   * Reads the chunks left to right with a stack of open tags (its top at the end): an
   * opening tag is pushed; a closing tag must match the top, which it pops. `None` when
   * a closing tag does not match.
   */
  function Scan(s: seq<Chunk>, stack: seq<Tag>): Option<seq<Tag>>
    decreases |s|
  {
    if s == [] then Some(stack)
    else match s[0]
      case Open(t) => Scan(s[1..], stack + [t])
      case Close(t) =>
        if stack != [] && stack[|stack| - 1] == t then Scan(s[1..], stack[..|stack| - 1]) else None
      case _ => Scan(s[1..], stack)
  }

  /** Every tag opened in `s` is closed in `s`, innermost first, and nothing else is closed. */
  predicate Balanced(s: seq<Chunk>)
  {
    Scan(s, []) == Some([])
  }

  predicate IsTag(ch: Chunk)
  {
    ch.Open? || ch.Close?
  }

  lemma {:induction false} ScanAppend(a: seq<Chunk>, b: seq<Chunk>, stack: seq<Tag>)
    ensures Scan(a + b, stack) == match Scan(a, stack) case None => None case Some(m) => Scan(b, m)
    decreases |a|
  {
    if a == [] {
      assert a + b == b;
    } else {
      assert (a + b)[0] == a[0] && (a + b)[1..] == a[1..] + b;
      match a[0]
      case Open(t) => ScanAppend(a[1..], b, stack + [t]);
      case Close(t) =>
        if stack != [] && stack[|stack| - 1] == t {
          ScanAppend(a[1..], b, stack[..|stack| - 1]);
        }
      case _ => ScanAppend(a[1..], b, stack);
    }
  }

  /** Chunks that are not tags leave the stack as it is. */
  lemma {:induction false} ScanNoTags(s: seq<Chunk>, stack: seq<Tag>)
    requires forall i :: 0 <= i < |s| ==> !IsTag(s[i])
    ensures Scan(s, stack) == Some(stack)
    decreases |s|
  {
    if s != [] {
      ScanNoTags(s[1..], stack);
    }
  }

  /** A scan that succeeds keeps succeeding when more tags lie below the stack. */
  lemma {:induction false} ScanLifted(s: seq<Chunk>, stack: seq<Tag>, below: seq<Tag>, r: seq<Tag>)
    requires Scan(s, stack) == Some(r)
    ensures Scan(s, below + stack) == Some(below + r)
    decreases |s|
  {
    if s == [] {
    } else {
      match s[0]
      case Open(t) =>
        assert below + stack + [t] == below + (stack + [t]);
        ScanLifted(s[1..], stack + [t], below, r);
      case Close(t) =>
        assert (below + stack)[..|below + stack| - 1] == below + stack[..|stack| - 1];
        ScanLifted(s[1..], stack[..|stack| - 1], below, r);
      case _ =>
        ScanLifted(s[1..], stack, below, r);
    }
  }

  lemma {:induction false} BalancedAppend(a: seq<Chunk>, b: seq<Chunk>)
    requires Balanced(a) && Balanced(b)
    ensures Balanced(a + b)
  {
    ScanAppend(a, b, []);
  }

  /** Wrapping a balanced sequence in a tag keeps it balanced. */
  lemma {:induction false} WrappedBalanced(t: Tag, s: seq<Chunk>)
    requires Balanced(s)
    ensures Balanced(Wrapped(t, s))
  {
    ScanAppend([Open(t)] + s, [Close(t)], []);
    ScanAppend([Open(t)], s, []);
    assert [] + [t] == [t] + [] == [t];
    ScanLifted(s, [], [t], []);
  }

  /** The route switch is three nested elements around the two routes. */
  lemma RouteSwitchIsWrapped()
    ensures ROUTE_SWITCH ==
      Wrapped(BrowserRouter, Wrapped(Routes, Wrapped(LayoutRoute, [Element(HomeRoute), Element(AboutRoute)])))
  {
  }

  lemma PreambleHasNoTags(c: ScaffoldConfig)
    ensures forall i :: 0 <= i < |Preamble(c)| ==> !IsTag(Preamble(c)[i])
    ensures forall ch :: ch in Preamble(c) ==> ch.ImportLine? || ch == QueryClientDecl
  {
  }

  /** What the wrappers enclose is balanced: the route switch closes what it opens. */
  lemma {:induction false} InnerBalanced(c: ScaffoldConfig)
    ensures Balanced(Inner(c))
  {
    if c.router == ReactRouter {
      var routes := [Element(HomeRoute), Element(AboutRoute)];
      RouteSwitchIsWrapped();
      ScanNoTags(routes, []);
      WrappedBalanced(LayoutRoute, routes);
      WrappedBalanced(Routes, Wrapped(LayoutRoute, routes));
      WrappedBalanced(BrowserRouter, Wrapped(Routes, Wrapped(LayoutRoute, routes)));
    } else {
      ScanNoTags(RouterView(c), []);
    }
    ScanNoTags(Siblings(c), []);
    BalancedAppend(RouterView(c), Siblings(c));
  }

  /** The JSX of App is balanced: every wrapper it opens is closed, innermost first. */
  lemma {:induction false} BodyBalanced(c: ScaffoldConfig)
    ensures Balanced(Body(c))
  {
    InnerBalanced(c);
    var mid := WrapIf(c.query == TanstackQuery, QueryClientProvider, Inner(c));
    if c.query == TanstackQuery {
      WrappedBalanced(QueryClientProvider, Inner(c));
    }
    if c.state == Redux {
      WrappedBalanced(ReduxProvider, mid);
    }
  }

  /**
   * App.tsx is balanced: the import section, the component's frame and the export hold
   * no tags, and the JSX closes what it opens.
   */
  lemma {:induction false} AppBalanced(c: ScaffoldConfig)
    ensures Balanced(AppTsx(c))
  {
    BodyBalanced(c);
    var pre := Preamble(c) + [AppStart];
    var post := [AppEnd, ExportApp];
    PreambleHasNoTags(c);
    ScanNoTags(pre, []);
    ScanNoTags(post, []);
    BalancedAppend(pre, Body(c));
    BalancedAppend(pre + Body(c), post);
  }

  // ------------------------------------------------------------ top-level JSX nodes

  /** The depth after one chunk: an opening tag goes one level down, a closing one back up. */
  function Step(ch: Chunk, depth: nat): nat
  {
    match ch
    case Open(_) => depth + 1
    case Close(_) => if depth == 0 then 0 else depth - 1
    case _ => depth
  }

  /** The depth after `s`, starting `depth` levels down. */
  function Depth(s: seq<Chunk>, depth: nat): nat
    decreases |s|
  {
    if s == [] then depth else Depth(s[1..], Step(s[0], depth))
  }

  /**
   * The top-level JSX nodes of `s`, starting `depth` levels down: the elements and the
   * opening tags met at depth 0. The expression a component returns must have exactly one.
   */
  function Roots(s: seq<Chunk>, depth: nat): nat
    decreases |s|
  {
    if s == [] then 0
    else (if depth == 0 && (s[0].Open? || s[0].Element?) then 1 else 0) + Roots(s[1..], Step(s[0], depth))
  }

  lemma {:induction false} RootsAppend(a: seq<Chunk>, b: seq<Chunk>, depth: nat)
    ensures Roots(a + b, depth) == Roots(a, depth) + Roots(b, Depth(a, depth))
    ensures Depth(a + b, depth) == Depth(b, Depth(a, depth))
    decreases |a|
  {
    if a == [] {
      assert a + b == b;
    } else {
      assert (a + b)[0] == a[0] && (a + b)[1..] == a[1..] + b;
      RootsAppend(a[1..], b, Step(a[0], depth));
    }
  }

  /**
   * A scan that succeeds never climbs above where it started: from `k` levels below
   * the scanned stack it ends `k` levels below the final one, meeting no top-level node
   * when `k` is positive.
   */
  lemma {:induction false} ScanDepth(s: seq<Chunk>, stack: seq<Tag>, r: seq<Tag>, k: nat)
    requires Scan(s, stack) == Some(r)
    ensures Depth(s, |stack| + k) == |r| + k
    ensures k > 0 ==> Roots(s, |stack| + k) == 0
    decreases |s|
  {
    if s != [] {
      var depth := |stack| + k;
      assert Roots(s, depth) == (if depth == 0 && (s[0].Open? || s[0].Element?) then 1 else 0) + Roots(s[1..], Step(s[0], depth));
      assert Depth(s, depth) == Depth(s[1..], Step(s[0], depth));
      match s[0]
      case Open(t) =>
        assert Scan(s[1..], stack + [t]) == Some(r) && Step(s[0], depth) == |stack + [t]| + k;
        ScanDepth(s[1..], stack + [t], r, k);
      case Close(t) =>
        assert stack != [] && Scan(s[1..], stack[..|stack| - 1]) == Some(r);
        assert Step(s[0], depth) == |stack[..|stack| - 1]| + k;
        ScanDepth(s[1..], stack[..|stack| - 1], r, k);
      case _ =>
        assert Scan(s[1..], stack) == Some(r) && Step(s[0], depth) == depth;
        ScanDepth(s[1..], stack, r, k);
    }
  }

  /** Elements side by side are that many top-level nodes, at depth 0. */
  lemma {:induction false} ElementsRoots(s: seq<Chunk>, depth: nat)
    requires forall i :: 0 <= i < |s| ==> s[i].Element?
    ensures Roots(s, depth) == (if depth == 0 then |s| else 0)
    ensures Depth(s, depth) == depth
    decreases |s|
  {
    if s != [] {
      ElementsRoots(s[1..], depth);
    }
  }

  /** A wrapper around balanced JSX is a single top-level node. */
  lemma {:induction false} WrappedRoots(t: Tag, s: seq<Chunk>)
    requires Balanced(s)
    ensures Roots(Wrapped(t, s), 0) == 1 && Depth(Wrapped(t, s), 0) == 0
  {
    RootsAppend([Open(t)] + s, [Close(t)], 0);
    RootsAppend([Open(t)], s, 0);
    ScanDepth(s, [], [], 1);
  }

  /** The BrowserRouter tree is a single top-level node. */
  lemma RouteSwitchRoots()
    ensures Roots(ROUTE_SWITCH, 0) == 1 && Depth(ROUTE_SWITCH, 0) == 0
  {
    var routes := [Element(HomeRoute), Element(AboutRoute)];
    RouteSwitchIsWrapped();
    ScanNoTags(routes, []);
    WrappedBalanced(LayoutRoute, routes);
    WrappedBalanced(Routes, Wrapped(LayoutRoute, routes));
    WrappedRoots(BrowserRouter, Wrapped(Routes, Wrapped(LayoutRoute, routes)));
  }

  /** The routing element: RouterProvider and its devtools side by side, the BrowserRouter tree, or nothing. */
  lemma RouterViewRoots(c: ScaffoldConfig)
    ensures Roots(RouterView(c), 0) ==
      (match c.router case TanstackRouter => if c.routerDevtools then 2 else 1 case ReactRouter => 1 case NoRouter => 0)
    ensures Depth(RouterView(c), 0) == 0
  {
    if c.router == ReactRouter {
      RouteSwitchRoots();
    } else {
      ElementsRoots(RouterView(c), 0);
    }
  }

  /**
   * What the providers enclose has one top-level node per router element (RouterProvider
   * and its devtools, or the BrowserRouter tree) and per trailing sibling.
   */
  lemma InnerRoots(c: ScaffoldConfig)
    ensures Roots(Inner(c), 0) ==
      (match c.router case TanstackRouter => if c.routerDevtools then 2 else 1 case ReactRouter => 1 case NoRouter => 0)
      + (if c.queryDevtools && c.query == TanstackQuery then 1 else 0)
      + (if c.toastify then 1 else 0)
  {
    RouterViewRoots(c);
    RootsAppend(RouterView(c), Siblings(c), 0);
    ElementsRoots(Siblings(c), 0);
  }

  /** A provider makes the JSX one node; without one, its nodes are those of what it would enclose. */
  lemma {:induction false} BodyRoots(c: ScaffoldConfig)
    ensures Roots(Body(c), 0) == if c.state == Redux || c.query == TanstackQuery then 1 else Roots(Inner(c), 0)
  {
    InnerBalanced(c);
    var mid := WrapIf(c.query == TanstackQuery, QueryClientProvider, Inner(c));
    if c.query == TanstackQuery {
      WrappedBalanced(QueryClientProvider, Inner(c));
      WrappedRoots(QueryClientProvider, Inner(c));
    }
    if c.state == Redux {
      WrappedRoots(ReduxProvider, mid);
    }
  }

  /**
   * App returns a single JSX node exactly when a provider wraps everything or a single
   * element stands alone: RouterProvider without its devtools, or the BrowserRouter
   * tree, without toasts, or the toast container alone. It returns nothing at all when
   * no feature reaches the JSX.
   */
  lemma SingleRoot(c: ScaffoldConfig)
    ensures Roots(Body(c), 0) == 1 <==>
      || c.state == Redux || c.query == TanstackQuery
      || (c.router == TanstackRouter && !c.routerDevtools && !c.toastify)
      || (c.router == ReactRouter && !c.toastify)
      || (c.router == NoRouter && c.toastify)
    ensures Roots(Body(c), 0) == 0 <==>
      c.state != Redux && c.query != TanstackQuery && c.router == NoRouter && !c.toastify
  {
    InnerRoots(c);
    BodyRoots(c);
  }

  // ------------------------------------------------------------ what App.tsx contains

  /** In an App.tsx of this shape, tags and elements come from the JSX and imports from the import section. */
  lemma FramedMembers(p: seq<Chunk>, b: seq<Chunk>, x: Chunk)
    requires forall ch :: ch in p ==> ch.ImportLine? || ch == QueryClientDecl
    requires forall ch :: ch in b ==> IsTag(ch) || ch.Element?
    ensures IsTag(x) || x.Element? ==> (x in p + [AppStart] + b + [AppEnd, ExportApp] <==> x in b)
    ensures x.ImportLine? ==> (x in p + [AppStart] + b + [AppEnd, ExportApp] <==> x in p)
  {
  }

  /** The JSX holds tags and elements only. */
  lemma BodyChunks(c: ScaffoldConfig)
    ensures forall ch :: ch in Body(c) ==> IsTag(ch) || ch.Element?
  {
  }

  /**
   * The tags and elements of App.tsx are those of its JSX, and the import lines are
   * those of its import section.
   */
  lemma AppTsxParts(c: ScaffoldConfig, x: Chunk)
    ensures IsTag(x) || x.Element? ==> (x in AppTsx(c) <==> x in Body(c))
    ensures x.ImportLine? ==> (x in AppTsx(c) <==> x in Preamble(c))
  {
    PreambleHasNoTags(c);
    BodyChunks(c);
    FramedMembers(Preamble(c), Body(c), x);
  }

  /** App.tsx starts with the import of `./App.css` and ends with its only `export default App`. */
  lemma AppFrame(c: ScaffoldConfig)
    ensures AppTsx(c)[0] == CSS_IMPORT
    ensures AppTsx(c)[|AppTsx(c)| - 1] == ExportApp
    ensures forall k :: 0 <= k < |AppTsx(c)| - 1 ==> AppTsx(c)[k] != ExportApp
  {
    PreambleHasNoTags(c);
    BodyChunks(c);
    var p, b := Preamble(c), Body(c);
    forall k | 0 <= k < |AppTsx(c)| - 1
      ensures AppTsx(c)[k] != ExportApp
    {
      if k < |p| {
        assert AppTsx(c)[k] == p[k] && p[k] in p;
      } else if |p| < k < |p| + 1 + |b| {
        assert AppTsx(c)[k] == b[k - |p| - 1] && b[k - |p| - 1] in b;
      }
    }
  }

  lemma WrapIfMembers(enabled: bool, t: Tag, s: seq<Chunk>, x: Chunk)
    ensures x in WrapIf(enabled, t, s) <==> (enabled && (x == Open(t) || x == Close(t))) || x in s
  {
  }

  /** A chunk of the JSX is a provider tag of an enabled provider or a chunk of what they enclose. */
  lemma BodyMembers(c: ScaffoldConfig, x: Chunk)
    ensures x in Body(c) <==>
      || (c.state == Redux && (x == Open(ReduxProvider) || x == Close(ReduxProvider)))
      || (c.query == TanstackQuery && (x == Open(QueryClientProvider) || x == Close(QueryClientProvider)))
      || x in Inner(c)
  {
    var mid := WrapIf(c.query == TanstackQuery, QueryClientProvider, Inner(c));
    WrapIfMembers(c.query == TanstackQuery, QueryClientProvider, Inner(c), x);
    WrapIfMembers(c.state == Redux, ReduxProvider, mid, x);
  }

  /** What the providers enclose holds no provider tag. */
  lemma InnerProviderFree(c: ScaffoldConfig)
    ensures forall ch :: ch in Inner(c) && IsTag(ch) ==> ch.tag != ReduxProvider && ch.tag != QueryClientProvider
  {
  }

  /** A chunk followed only by closing tags in `s` still is once `s` is wrapped. */
  lemma WrapIfKeepsTail(enabled: bool, t: Tag, s: seq<Chunk>, x: Chunk)
    requires x != Open(t)
    requires forall k, j :: 0 <= k < j < |s| && s[k] == x ==> s[j].Close?
    ensures var w := WrapIf(enabled, t, s);
      forall k, j :: 0 <= k < j < |w| && w[k] == x ==> w[j].Close?
  {
    if enabled {
      var w := Wrapped(t, s);
      assert forall i :: 0 < i <= |s| ==> w[i] == s[i - 1];
      forall k, j | 0 <= k < j < |w| && w[k] == x
        ensures w[j].Close?
      {
        if j <= |s| {
          assert s[k - 1] == x;
        }
      }
    }
  }

  /** A chunk that only ever follows `y` in `s` still does once `s` is wrapped. */
  lemma WrapIfKeepsPredecessor(enabled: bool, t: Tag, s: seq<Chunk>, y: Chunk, x: Chunk)
    requires x != Open(t) && x != Close(t)
    requires forall k :: 0 <= k < |s| && s[k] == x ==> 0 < k && s[k - 1] == y
    ensures var w := WrapIf(enabled, t, s);
      forall k :: 0 <= k < |w| && w[k] == x ==> 0 < k && w[k - 1] == y
  {
    if enabled {
      var w := Wrapped(t, s);
      assert forall i :: 0 < i <= |s| ==> w[i] == s[i - 1];
      forall k | 0 <= k < |w| && w[k] == x
        ensures 0 < k && w[k - 1] == y
      {
        assert s[k - 1] == x;
      }
    }
  }

  /**
   * Redux's `Provider` is rendered iff the state library is Redux, and
   * `QueryClientProvider` iff the query library is TanStack Query; each is opened and closed.
   */
  lemma ProviderPresence(c: ScaffoldConfig)
    ensures Open(ReduxProvider) in Body(c) <==> c.state == Redux
    ensures Close(ReduxProvider) in Body(c) <==> c.state == Redux
    ensures Open(QueryClientProvider) in Body(c) <==> c.query == TanstackQuery
    ensures Close(QueryClientProvider) in Body(c) <==> c.query == TanstackQuery
  {
    InnerProviderFree(c);
    BodyMembers(c, Open(ReduxProvider));
    BodyMembers(c, Close(ReduxProvider));
    BodyMembers(c, Open(QueryClientProvider));
    BodyMembers(c, Close(QueryClientProvider));
  }

  /**
   * `Provider` is the outermost element when present, with `QueryClientProvider` right
   * inside it; `</QueryClientProvider>` comes before `</Provider>`, and neither provider
   * occurs in what they enclose.
   */
  lemma ProviderNesting(c: ScaffoldConfig)
    ensures var b := Body(c);
      c.state == Redux ==> |b| >= 2 && b[0] == Open(ReduxProvider) && b[|b| - 1] == Close(ReduxProvider)
    ensures var b := Body(c);
      c.state == Redux && c.query == TanstackQuery ==>
        |b| >= 4 && b[1] == Open(QueryClientProvider) && b[|b| - 2] == Close(QueryClientProvider)
    ensures var b := Body(c);
      c.state != Redux && c.query == TanstackQuery ==>
        |b| >= 2 && b[0] == Open(QueryClientProvider) && b[|b| - 1] == Close(QueryClientProvider)
    ensures forall ch :: ch in Inner(c) && IsTag(ch) ==> ch.tag != ReduxProvider && ch.tag != QueryClientProvider
  {
    InnerProviderFree(c);
  }

  /** The router's elements in what the providers enclose. */
  lemma InnerRouterElements(c: ScaffoldConfig)
    ensures Element(RouterProvider) in Inner(c) <==> c.router == TanstackRouter
    ensures Open(BrowserRouter) in Inner(c) <==> c.router == ReactRouter
    ensures Element(RouterDevtools) in Inner(c) <==> c.router == TanstackRouter && c.routerDevtools
    ensures forall k :: 0 <= k < |Inner(c)| && Inner(c)[k] == Element(RouterDevtools) ==>
      0 < k && Inner(c)[k - 1] == Element(RouterProvider)
  {
    var rv := RouterView(c);
    assert Inner(c) == rv + Siblings(c);
    assert Element(RouterDevtools) !in Siblings(c);
  }

  /**
   * The routing element follows the router: `RouterProvider` for TanStack Router, the
   * `BrowserRouter` switch for React Router, nothing without a router; the router
   * devtools are rendered only with TanStack Router and its flag, right after `RouterProvider`.
   */
  lemma RouterElements(c: ScaffoldConfig)
    ensures Element(RouterProvider) in Body(c) <==> c.router == TanstackRouter
    ensures Open(BrowserRouter) in Body(c) <==> c.router == ReactRouter
    ensures Element(RouterDevtools) in Body(c) <==> c.router == TanstackRouter && c.routerDevtools
    ensures forall k :: 0 <= k < |Body(c)| && Body(c)[k] == Element(RouterDevtools) ==>
      0 < k && Body(c)[k - 1] == Element(RouterProvider)
  {
    InnerRouterElements(c);
    BodyMembers(c, Element(RouterProvider));
    BodyMembers(c, Open(BrowserRouter));
    BodyMembers(c, Element(RouterDevtools));
    var query := c.query == TanstackQuery;
    WrapIfKeepsPredecessor(query, QueryClientProvider, Inner(c), Element(RouterProvider), Element(RouterDevtools));
    WrapIfKeepsPredecessor(c.state == Redux, ReduxProvider, WrapIf(query, QueryClientProvider, Inner(c)),
      Element(RouterProvider), Element(RouterDevtools));
  }

  /** A chunk of the import section comes from the block of an enabled feature. */
  lemma PreambleMembers(c: ScaffoldConfig, x: Chunk)
    ensures x in Preamble(c) <==>
      || x == CSS_IMPORT
      || (c.router == TanstackRouter && x in TANSTACK_ROUTER_IMPORTS)
      || (c.router == ReactRouter && x in REACT_ROUTER_IMPORTS)
      || (c.toastify && x in TOASTIFY_IMPORTS)
      || (c.state == Redux && x in REDUX_IMPORTS)
      || (c.query == TanstackQuery && x in QUERY_IMPORTS)
      || (c.router == TanstackRouter && c.routerDevtools && x == ROUTER_DEVTOOLS_IMPORT)
  {
  }

  /** The `ReactQueryDevtools` import belongs to the TanStack Query block alone. */
  lemma QueryDevtoolsImportBlock()
    ensures QUERY_IMPORTS[1] != CSS_IMPORT && QUERY_IMPORTS[1] != ROUTER_DEVTOOLS_IMPORT
    ensures QUERY_IMPORTS[1] !in TANSTACK_ROUTER_IMPORTS && QUERY_IMPORTS[1] !in REACT_ROUTER_IMPORTS
    ensures QUERY_IMPORTS[1] !in TOASTIFY_IMPORTS && QUERY_IMPORTS[1] !in REDUX_IMPORTS
  {
  }

  /**
   * `ReactQueryDevtools` is rendered only with TanStack Query and its devtools flag, yet
   * imported whenever TanStack Query is chosen.
   */
  lemma QueryDevtoolsPresence(c: ScaffoldConfig)
    ensures Element(QueryDevtools) in Body(c) <==> c.query == TanstackQuery && c.queryDevtools
    ensures QUERY_IMPORTS[1] in Preamble(c) <==> c.query == TanstackQuery
  {
    BodyMembers(c, Element(QueryDevtools));
    PreambleMembers(c, QUERY_IMPORTS[1]);
    QueryDevtoolsImportBlock();
  }

  /** The toast container is the last element of what the providers enclose. */
  lemma InnerToastLast(c: ScaffoldConfig)
    ensures Element(ToastContainer) in Inner(c) <==> c.toastify
    ensures forall k :: 0 <= k < |Inner(c)| && Inner(c)[k] == Element(ToastContainer) ==> k == |Inner(c)| - 1
  {
    var rv := RouterView(c);
    var sib := Siblings(c);
    assert Inner(c) == rv + sib;
    assert Element(ToastContainer) !in rv;
    assert forall k :: 0 <= k < |rv| ==> Inner(c)[k] == rv[k];
  }

  /**
   * `ToastContainer` is rendered iff toastify is chosen, and then as the last element:
   * only closing tags of the providers follow it.
   */
  lemma ToastContainerLast(c: ScaffoldConfig)
    ensures Element(ToastContainer) in Body(c) <==> c.toastify
    ensures forall k, j :: 0 <= k < j < |Body(c)| && Body(c)[k] == Element(ToastContainer) ==> Body(c)[j].Close?
  {
    InnerToastLast(c);
    BodyMembers(c, Element(ToastContainer));
    var query := c.query == TanstackQuery;
    WrapIfKeepsTail(query, QueryClientProvider, Inner(c), Element(ToastContainer));
    WrapIfKeepsTail(c.state == Redux, ReduxProvider, WrapIf(query, QueryClientProvider, Inner(c)), Element(ToastContainer));
  }

  // ------------------------------------------------------------ names App.tsx uses

  /** The component a tag renders; its closing tag names it again. */
  function TagName(t: Tag): string
  {
    match t
    case ReduxProvider => "Provider"
    case QueryClientProvider => "QueryClientProvider"
    case BrowserRouter => "BrowserRouter"
    case Routes => "Routes"
    case LayoutRoute => "Route"
  }

  /** The identifiers an opening tag refers to: its component and the values of its props. */
  function OpenUses(t: Tag): set<string>
  {
    match t
    case ReduxProvider => {"Provider", "store"}                      // <Provider store={store}>
    case QueryClientProvider => {"QueryClientProvider", "queryClient"}  // client={queryClient}
    case BrowserRouter => {"BrowserRouter"}
    case Routes => {"Routes"}
    case LayoutRoute => {"Route", "Layout"}                         // element={<Layout />}
  }

  /** The identifiers a self-closing element refers to. */
  function LeafUses(l: Leaf): set<string>
  {
    match l
    case RouterProvider => {"RouterProvider", "router"}              // router={router}
    case RouterDevtools => {"TanStackRouterDevtools", "router"}
    case HomeRoute => {"Route", "Home"}
    case AboutRoute => {"Route", "About"}
    case QueryDevtools => {"ReactQueryDevtools"}
    case ToastContainer => {"ToastContainer"}
  }

  /** The identifiers a chunk of App.tsx refers to. */
  function ChunkUses(ch: Chunk): set<string>
  {
    match ch
    case ImportLine(_) => {}
    case QueryClientDecl => {"QueryClient"}   // new QueryClient()
    case AppStart => {}
    case Open(t) => OpenUses(t)
    case Close(t) => {TagName(t)}
    case Element(l) => LeafUses(l)
    case AppEnd => {}
    case ExportApp => {"App"}
  }

  /** The identifiers a chunk brings into scope: imported names and the file's own declarations. */
  function ChunkDeclares(ch: Chunk): set<string>
  {
    match ch
    case ImportLine(i) => ImportedNames(i)
    case QueryClientDecl => {"queryClient"}
    case AppStart => {"App"}
    case _ => {}
  }

  /** The identifiers a chunk sequence brings into scope. */
  function Declared(s: seq<Chunk>): set<string>
  {
    set ch, n | ch in s && n in ChunkDeclares(ch) :: n
  }

  /** Every identifier a chunk of `s` refers to is brought into scope by some chunk of `s`. */
  predicate NamesResolve(s: seq<Chunk>)
  {
    forall ch :: ch in s ==> ChunkUses(ch) <= Declared(s)
  }

  /** A chunk of a sequence contributes its names to what the sequence declares. */
  lemma DeclaredBy(s: seq<Chunk>, ch: Chunk)
    requires ch in s
    ensures ChunkDeclares(ch) <= Declared(s)
  {
  }

  /** Everything a block of chunks declares is declared by a sequence holding all of them. */
  lemma DeclaredWithin(block: seq<Chunk>, s: seq<Chunk>)
    requires forall x :: x in block ==> x in s
    ensures Declared(block) <= Declared(s)
  {
  }

  /** The names TanStack Router's import blocks bring into scope. */
  lemma TanstackRouterBlockNames()
    ensures {"RouterProvider", "router"} <= Declared(TANSTACK_ROUTER_IMPORTS)
    ensures {"TanStackRouterDevtools"} <= Declared([ROUTER_DEVTOOLS_IMPORT])
  {
    assert "RouterProvider" in ChunkDeclares(TANSTACK_ROUTER_IMPORTS[0]);
    assert "router" in ChunkDeclares(TANSTACK_ROUTER_IMPORTS[1]);
    assert "TanStackRouterDevtools" in ChunkDeclares(ROUTER_DEVTOOLS_IMPORT);
  }

  /** The names React Router's import block brings into scope. */
  lemma ReactRouterBlockNames()
    ensures {"BrowserRouter", "Routes", "Route", "Layout", "Home", "About"} <= Declared(REACT_ROUTER_IMPORTS)
  {
    var rr := ChunkDeclares(REACT_ROUTER_IMPORTS[0]);
    assert "BrowserRouter" in rr && "Routes" in rr && "Route" in rr;
    assert "Layout" in ChunkDeclares(REACT_ROUTER_IMPORTS[1]);
    assert "Home" in ChunkDeclares(REACT_ROUTER_IMPORTS[2]);
    assert "About" in ChunkDeclares(REACT_ROUTER_IMPORTS[3]);
  }

  /** The name the toast block brings into scope. */
  lemma ToastBlockNames()
    ensures {"ToastContainer"} <= Declared(TOASTIFY_IMPORTS)
  {
    assert "ToastContainer" in ChunkDeclares(TOASTIFY_IMPORTS[0]);
  }

  /** The names the Redux block brings into scope. */
  lemma ReduxBlockNames()
    ensures {"Provider", "store"} <= Declared(REDUX_IMPORTS)
  {
    assert "Provider" in ChunkDeclares(REDUX_IMPORTS[0]);
    assert "store" in ChunkDeclares(REDUX_IMPORTS[1]);
  }

  /** The names the TanStack Query block brings into scope, the query client included. */
  lemma QueryBlockNames()
    ensures {"QueryClient", "QueryClientProvider", "ReactQueryDevtools", "queryClient"} <= Declared(QUERY_IMPORTS)
  {
    var q := ChunkDeclares(QUERY_IMPORTS[0]);
    assert "QueryClient" in q && "QueryClientProvider" in q;
    assert "ReactQueryDevtools" in ChunkDeclares(QUERY_IMPORTS[1]);
    assert "queryClient" in ChunkDeclares(QUERY_IMPORTS[2]);
  }

  /** A block whose chunks are all in the import section declares nothing the section does not. */
  lemma BlockWithin(c: ScaffoldConfig, block: seq<Chunk>)
    requires
      || (c.router == TanstackRouter && block == TANSTACK_ROUTER_IMPORTS)
      || (c.router == ReactRouter && block == REACT_ROUTER_IMPORTS)
      || (c.toastify && block == TOASTIFY_IMPORTS)
      || (c.state == Redux && block == REDUX_IMPORTS)
      || (c.query == TanstackQuery && block == QUERY_IMPORTS)
      || (c.router == TanstackRouter && c.routerDevtools && block == [ROUTER_DEVTOOLS_IMPORT])
    ensures Declared(block) <= Declared(Preamble(c))
  {
    forall x | x in block
      ensures x in Preamble(c)
    {
      PreambleMembers(c, x);
    }
    DeclaredWithin(block, Preamble(c));
  }

  /** With TanStack Router, its import block (and the devtools import) bring its names into scope. */
  lemma TanstackRouterInScope(c: ScaffoldConfig)
    requires c.router == TanstackRouter
    ensures "RouterProvider" in Declared(Preamble(c)) && "router" in Declared(Preamble(c))
    ensures c.routerDevtools ==> "TanStackRouterDevtools" in Declared(Preamble(c))
  {
    TanstackRouterBlockNames();
    BlockWithin(c, TANSTACK_ROUTER_IMPORTS);
    if c.routerDevtools {
      BlockWithin(c, [ROUTER_DEVTOOLS_IMPORT]);
    }
  }

  /** With React Router, its import block brings its components and the three pages into scope. */
  lemma ReactRouterInScope(c: ScaffoldConfig)
    requires c.router == ReactRouter
    ensures {"BrowserRouter", "Routes", "Route", "Layout", "Home", "About"} <= Declared(Preamble(c))
  {
    ReactRouterBlockNames();
    BlockWithin(c, REACT_ROUTER_IMPORTS);
  }

  /** With toastify, its import block brings `ToastContainer` into scope. */
  lemma ToastInScope(c: ScaffoldConfig)
    requires c.toastify
    ensures "ToastContainer" in Declared(Preamble(c))
  {
    ToastBlockNames();
    BlockWithin(c, TOASTIFY_IMPORTS);
  }

  /** With Redux, its import block brings `Provider` and `store` into scope. */
  lemma ReduxInScope(c: ScaffoldConfig)
    requires c.state == Redux
    ensures "Provider" in Declared(Preamble(c)) && "store" in Declared(Preamble(c))
  {
    ReduxBlockNames();
    BlockWithin(c, REDUX_IMPORTS);
  }

  /** With TanStack Query, its block brings its components and the declared query client into scope. */
  lemma QueryInScope(c: ScaffoldConfig)
    requires c.query == TanstackQuery
    ensures "QueryClient" in Declared(Preamble(c)) && "QueryClientProvider" in Declared(Preamble(c))
    ensures "ReactQueryDevtools" in Declared(Preamble(c)) && "queryClient" in Declared(Preamble(c))
  {
    QueryBlockNames();
    BlockWithin(c, QUERY_IMPORTS);
  }

  /** The route switch refers to React Router's components and the three pages. */
  lemma RouteSwitchUses(ch: Chunk)
    requires ch in ROUTE_SWITCH
    ensures ChunkUses(ch) <= {"BrowserRouter", "Routes", "Route", "Layout", "Home", "About"}
  {
  }

  /** The routing element refers only to names the router's import blocks bring in. */
  lemma RouterViewNamesDeclared(c: ScaffoldConfig, ch: Chunk)
    requires ch in RouterView(c)
    ensures ChunkUses(ch) <= Declared(Preamble(c))
  {
    match c.router
    case TanstackRouter =>
      TanstackRouterInScope(c);
    case ReactRouter =>
      ReactRouterInScope(c);
      RouteSwitchUses(ch);
  }

  /** The trailing siblings are the query devtools and the toast container, each under its flags. */
  lemma SiblingsMembers(c: ScaffoldConfig, x: Chunk)
    ensures x in Siblings(c) <==>
      || (x == Element(QueryDevtools) && c.queryDevtools && c.query == TanstackQuery)
      || (x == Element(ToastContainer) && c.toastify)
  {
  }

  /** The query devtools and the toast container are imported by their features' blocks. */
  lemma SiblingsNamesDeclared(c: ScaffoldConfig, ch: Chunk)
    requires ch in Siblings(c)
    ensures ChunkUses(ch) <= Declared(Preamble(c))
  {
    SiblingsMembers(c, ch);
    if ch == Element(QueryDevtools) {
      QueryInScope(c);
      assert ChunkUses(ch) == {"ReactQueryDevtools"};
    } else {
      ToastInScope(c);
      assert ChunkUses(ch) == {"ToastContainer"};
    }
  }

  /** Every identifier the JSX refers to is imported (or declared) by the import section. */
  lemma BodyNamesDeclared(c: ScaffoldConfig, ch: Chunk)
    requires ch in Body(c)
    ensures ChunkUses(ch) <= Declared(Preamble(c))
  {
    InnerProviderFree(c);
    BodyMembers(c, ch);
    if ch in Inner(c) {
      if ch in RouterView(c) {
        RouterViewNamesDeclared(c, ch);
      } else {
        SiblingsNamesDeclared(c, ch);
      }
    } else if ch == Open(ReduxProvider) || ch == Close(ReduxProvider) {
      ReduxInScope(c);
    } else {
      QueryInScope(c);
    }
  }

  /** The only chunk of the import section that uses a name, the query client declaration, uses an imported one. */
  lemma PreambleNamesDeclared(c: ScaffoldConfig)
    ensures forall ch :: ch in Preamble(c) ==> ChunkUses(ch) <= Declared(Preamble(c))
  {
    forall ch | ch in Preamble(c)
      ensures ChunkUses(ch) <= Declared(Preamble(c))
    {
      if ch == QueryClientDecl {
        PreambleMembers(c, ch);
        QueryInScope(c);
      }
    }
  }

  /**
   * Framed by the component and its export, names resolve in the file when the import
   * section and the JSX refer only to names the import section brings in.
   */
  lemma FramedNamesResolve(p: seq<Chunk>, b: seq<Chunk>)
    requires forall ch :: ch in p ==> ChunkUses(ch) <= Declared(p)
    requires forall ch :: ch in b ==> ChunkUses(ch) <= Declared(p)
    ensures NamesResolve(p + [AppStart] + b + [AppEnd, ExportApp])
  {
    var app := p + [AppStart] + b + [AppEnd, ExportApp];
    DeclaredWithin(p, app);
    DeclaredBy(app, AppStart);
  }

  /**
   * App.tsx refers only to names it brings into scope: each provider, router element
   * and sibling is imported by the block of the feature that renders it, the query
   * client is constructed from an imported `QueryClient`, and `App` is declared before
   * it is exported.
   */
  lemma AppSelfConsistent(c: ScaffoldConfig)
    ensures NamesResolve(AppTsx(c))
  {
    var p, b := Preamble(c), Body(c);
    PreambleNamesDeclared(c);
    forall ch | ch in b
      ensures ChunkUses(ch) <= Declared(p)
    {
      BodyNamesDeclared(c, ch);
    }
    FramedNamesResolve(p, b);
  }

  // ------------------------------------------------------------ packages App.tsx imports

  /** The npm packages a chunk sequence imports from. */
  function AppPackages(app: seq<Chunk>): set<string>
  {
    set ch | ch in app && ch.ImportLine? && ch.imp.from.Npm? :: ch.imp.from.pkg
  }

  lemma AppPackagesAppend(a: seq<Chunk>, b: seq<Chunk>)
    ensures AppPackages(a + b) == AppPackages(a) + AppPackages(b)
  {
  }

  /** Appending a block only when its feature is enabled adds its packages only then. */
  lemma PackagesStep(acc: seq<Chunk>, enabled: bool, block: seq<Chunk>, before: set<string>, added: set<string>)
    requires AppPackages(acc) == before && AppPackages(block) == added
    ensures AppPackages(acc + (if enabled then block else [])) == before + (if enabled then added else {})
  {
    AppPackagesAppend(acc, if enabled then block else []);
  }

  /** No router package is named like a package of the other features. */
  lemma RouterPackagesDistinct()
    ensures {TANSTACK_ROUTER, REACT_ROUTER_DOM, ROUTER_DEVTOOLS_MODULE}
      !! {REACT_TOASTIFY, REACT_REDUX, TANSTACK_QUERY, TANSTACK_QUERY_DEVTOOLS}
  {
  }

  /** The packages of each block the source may append. */
  lemma BlockPackages()
    ensures AppPackages([CSS_IMPORT]) == {}
    ensures AppPackages(TANSTACK_ROUTER_IMPORTS) == {TANSTACK_ROUTER}
    ensures AppPackages(REACT_ROUTER_IMPORTS) == {REACT_ROUTER_DOM}
    ensures AppPackages(TOASTIFY_IMPORTS) == {REACT_TOASTIFY}
    ensures AppPackages(REDUX_IMPORTS) == {REACT_REDUX}
    ensures AppPackages(QUERY_IMPORTS) == {TANSTACK_QUERY, TANSTACK_QUERY_DEVTOOLS}
    ensures AppPackages([ROUTER_DEVTOOLS_IMPORT]) == {ROUTER_DEVTOOLS_MODULE}
  {
    assert TANSTACK_ROUTER_IMPORTS[0].imp.from.pkg == TANSTACK_ROUTER;
    assert REACT_ROUTER_IMPORTS[0].imp.from.pkg == REACT_ROUTER_DOM;
    assert TOASTIFY_IMPORTS[0].imp.from.pkg == REACT_TOASTIFY;
    assert REDUX_IMPORTS[0].imp.from.pkg == REACT_REDUX;
    assert QUERY_IMPORTS[0].imp.from.pkg == TANSTACK_QUERY;
    assert QUERY_IMPORTS[1].imp.from.pkg == TANSTACK_QUERY_DEVTOOLS;
    assert ROUTER_DEVTOOLS_IMPORT.imp.from.pkg == ROUTER_DEVTOOLS_MODULE;
  }

  /**
   * The import section loads exactly these packages: the router's (and, with TanStack
   * Router's devtools, `@tanstack/react-router-devtools`), react-toastify, react-redux,
   * and TanStack Query together with its devtools whenever TanStack Query is chosen.
   */
  lemma {:induction false} PreamblePackages(c: ScaffoldConfig)
    ensures AppPackages(Preamble(c)) ==
      (if c.router == TanstackRouter then {TANSTACK_ROUTER} else {})
      + (if c.router == ReactRouter then {REACT_ROUTER_DOM} else {})
      + (if c.toastify then {REACT_TOASTIFY} else {})
      + (if c.state == Redux then {REACT_REDUX} else {})
      + (if c.query == TanstackQuery then {TANSTACK_QUERY, TANSTACK_QUERY_DEVTOOLS} else {})
      + (if c.router == TanstackRouter && c.routerDevtools then {ROUTER_DEVTOOLS_MODULE} else {})
  {
    BlockPackages();
    var p0 := [CSS_IMPORT];
    var p1 := p0 + (if c.router == TanstackRouter then TANSTACK_ROUTER_IMPORTS else []);
    var s1 := if c.router == TanstackRouter then {TANSTACK_ROUTER} else {};
    AppPackagesAppend(p0, if c.router == TanstackRouter then TANSTACK_ROUTER_IMPORTS else []);
    var p2 := p1 + (if c.router == ReactRouter then REACT_ROUTER_IMPORTS else []);
    PackagesStep(p1, c.router == ReactRouter, REACT_ROUTER_IMPORTS, s1, {REACT_ROUTER_DOM});
    var s2 := s1 + (if c.router == ReactRouter then {REACT_ROUTER_DOM} else {});
    var p3 := p2 + (if c.toastify then TOASTIFY_IMPORTS else []);
    PackagesStep(p2, c.toastify, TOASTIFY_IMPORTS, s2, {REACT_TOASTIFY});
    var s3 := s2 + (if c.toastify then {REACT_TOASTIFY} else {});
    var p4 := p3 + (if c.state == Redux then REDUX_IMPORTS else []);
    PackagesStep(p3, c.state == Redux, REDUX_IMPORTS, s3, {REACT_REDUX});
    var s4 := s3 + (if c.state == Redux then {REACT_REDUX} else {});
    var p5 := p4 + (if c.query == TanstackQuery then QUERY_IMPORTS else []);
    PackagesStep(p4, c.query == TanstackQuery, QUERY_IMPORTS, s4, {TANSTACK_QUERY, TANSTACK_QUERY_DEVTOOLS});
    var s5 := s4 + (if c.query == TanstackQuery then {TANSTACK_QUERY, TANSTACK_QUERY_DEVTOOLS} else {});
    PackagesStep(p5, c.router == TanstackRouter && c.routerDevtools, [ROUTER_DEVTOOLS_IMPORT], s5, {ROUTER_DEVTOOLS_MODULE});
  }

  /** App.tsx loads exactly the packages of its import section: its JSX imports nothing. */
  lemma {:induction false} AppTsxPackages(c: ScaffoldConfig)
    ensures AppPackages(AppTsx(c)) == AppPackages(Preamble(c))
  {
    var p := Preamble(c);
    var b := Body(c);
    BodyChunks(c);
    assert AppPackages(b) == {};
    AppPackagesAppend(p, [AppStart]);
    AppPackagesAppend(p + [AppStart], b);
    AppPackagesAppend(p + [AppStart] + b, [AppEnd, ExportApp]);
  }

  /**
   * Without a router App.tsx loads nothing from a router package, whatever the router
   * devtools flag says.
   */
  lemma NoRouterNoRouterImports(c: ScaffoldConfig)
    requires c.router == NoRouter
    ensures TANSTACK_ROUTER !in AppPackages(AppTsx(c)) && REACT_ROUTER_DOM !in AppPackages(AppTsx(c))
    ensures ROUTER_DEVTOOLS_MODULE !in AppPackages(AppTsx(c))
  {
    AppTsxPackages(c);
    PreamblePackages(c);
    RouterPackagesDistinct();
  }

  /** Without a router App.tsx renders no routing element, whatever the router devtools flag says. */
  lemma NoRouterNoRoutingElements(c: ScaffoldConfig)
    requires c.router == NoRouter
    ensures Element(RouterProvider) !in AppTsx(c) && Element(RouterDevtools) !in AppTsx(c)
    ensures Open(BrowserRouter) !in AppTsx(c)
  {
    RouterElements(c);
    AppTsxParts(c, Element(RouterProvider));
    AppTsxParts(c, Element(RouterDevtools));
    AppTsxParts(c, Open(BrowserRouter));
  }
}
