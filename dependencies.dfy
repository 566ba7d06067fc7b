/**
 * Dependency selection: which npm packages a configuration installs, as two ordered
 * lists, the runtime dependencies (`deps`) and the development dependencies
 * (`devDeps`). The source builds both with `push` along a chain of conditionals, one
 * axis after the other: styling, router, state, query, toastify.
 */
module Dependencies {
  import opened Config
  import opened Wrappers

  const TAILWINDCSS := "tailwindcss"
  const TAILWIND_VITE := "@tailwindcss/vite"
  const MUI_MATERIAL := "@mui/material"
  const EMOTION_REACT := "@emotion/react"
  const EMOTION_STYLED := "@emotion/styled"
  const TANSTACK_ROUTER := "@tanstack/react-router"
  const TANSTACK_ROUTER_DEVTOOLS := "@tanstack/router-devtools"
  const REACT_ROUTER_DOM := "react-router-dom"
  const REDUX_TOOLKIT := "@reduxjs/toolkit"
  const REACT_REDUX := "react-redux"
  const ZUSTAND := "zustand"
  const JOTAI := "jotai"
  const TANSTACK_QUERY := "@tanstack/react-query"
  const TANSTACK_QUERY_DEVTOOLS := "@tanstack/react-query-devtools"
  const REACT_TOASTIFY := "react-toastify"

  /** The runtime packages each axis may contribute. */
  const MUI_PACKAGES: set<string> := {MUI_MATERIAL, EMOTION_REACT, EMOTION_STYLED}
  const ROUTER_PACKAGES: set<string> := {TANSTACK_ROUTER, TANSTACK_ROUTER_DEVTOOLS, REACT_ROUTER_DOM}
  const STATE_PACKAGES: set<string> := {REDUX_TOOLKIT, REACT_REDUX, ZUSTAND, JOTAI}
  const QUERY_PACKAGES: set<string> := {TANSTACK_QUERY, TANSTACK_QUERY_DEVTOOLS}

  /**
   * Position of a package's axis in the order the source visits the axes: styling 0,
   * router 1, state 2, query 3, toastify 4; any other package 5.
   */
  function AxisOf(p: string): nat
  {
    if p in MUI_PACKAGES || p == TAILWINDCSS || p == TAILWIND_VITE then 0
    else if p in ROUTER_PACKAGES then 1
    else if p in STATE_PACKAGES then 2
    else if p in QUERY_PACKAGES then 3
    else if p == REACT_TOASTIFY then 4
    else 5
  }

  predicate NoDuplicates(s: seq<string>)
  {
    forall i, j :: 0 <= i < j < |s| ==> s[i] != s[j]
  }

  /** The entries of `s` come in the fixed axis order. */
  predicate InAxisOrder(s: seq<string>)
  {
    forall i, j :: 0 <= i < j < |s| ==> AxisOf(s[i]) <= AxisOf(s[j])
  }

  /**
   * Reference table, package by package: the condition under which the configuration
   * asks for a runtime package.
   */
  predicate RuntimeRequested(c: ScaffoldConfig, p: string)
  {
    || (p in MUI_PACKAGES && c.styling == Mui)
    || (p == TANSTACK_ROUTER && c.router == TanstackRouter)
    || (p == TANSTACK_ROUTER_DEVTOOLS && c.router == TanstackRouter && c.routerDevtools)
    || (p == REACT_ROUTER_DOM && c.router == ReactRouter)
    || ((p == REDUX_TOOLKIT || p == REACT_REDUX) && c.state == Redux)
    || (p == ZUSTAND && c.state == Zustand)
    || (p == JOTAI && c.state == Jotai)
    || (p == TANSTACK_QUERY && c.query == TanstackQuery)
    || (p == TANSTACK_QUERY_DEVTOOLS && c.query == TanstackQuery && c.queryDevtools)
    || (p == REACT_TOASTIFY && c.toastify)
  }

  // The groups each axis pushes onto `deps`, in push order.

  function StylingDeps(s: Styling): seq<string>
  {
    if s == Mui then [MUI_MATERIAL, EMOTION_REACT, EMOTION_STYLED] else []
  }

  function RouterDeps(r: Router, devtools: bool): seq<string>
  {
    match r
    case TanstackRouter => [TANSTACK_ROUTER] + (if devtools then [TANSTACK_ROUTER_DEVTOOLS] else [])
    case ReactRouter => [REACT_ROUTER_DOM]
    case NoRouter => []
  }

  function StateDeps(s: StateLib): seq<string>
  {
    match s
    case Redux => [REDUX_TOOLKIT, REACT_REDUX]
    case Zustand => [ZUSTAND]
    case Jotai => [JOTAI]
    case NoState => []
  }

  function QueryDeps(q: Query, devtools: bool): seq<string>
  {
    if q == TanstackQuery then [TANSTACK_QUERY] + (if devtools then [TANSTACK_QUERY_DEVTOOLS] else []) else []
  }

  function ToastDeps(toastify: bool): seq<string>
  {
    if toastify then [REACT_TOASTIFY] else []
  }

  /** The runtime dependency list: the axis groups in axis order. */
  function Deps(c: ScaffoldConfig): seq<string>
  {
    StylingDeps(c.styling) + RouterDeps(c.router, c.routerDevtools) + StateDeps(c.state)
      + QueryDeps(c.query, c.queryDevtools) + ToastDeps(c.toastify)
  }

  /** The development dependency list: only Tailwind contributes. */
  function DevDeps(c: ScaffoldConfig): seq<string>
  {
    if c.styling == Tailwind then [TAILWINDCSS, TAILWIND_VITE] else []
  }

  /** The selection as the source performs it, pushing onto two initially empty lists. */
  method SelectDependencies(c: ScaffoldConfig) returns (deps: seq<string>, devDeps: seq<string>)
    ensures deps == Deps(c) && devDeps == DevDeps(c)
  {
    deps, devDeps := [], [];

    if c.styling == Tailwind {
      devDeps := devDeps + [TAILWINDCSS, TAILWIND_VITE];
    } else if c.styling == Mui {
      deps := deps + [MUI_MATERIAL, EMOTION_REACT, EMOTION_STYLED];
    }
    assert deps == StylingDeps(c.styling);

    ghost var before := deps;
    if c.router == TanstackRouter {
      deps := deps + [TANSTACK_ROUTER];
      if c.routerDevtools {
        deps := deps + [TANSTACK_ROUTER_DEVTOOLS];
        AppendAssoc(before, [TANSTACK_ROUTER], [TANSTACK_ROUTER_DEVTOOLS]);
      }
    } else if c.router == ReactRouter {
      deps := deps + [REACT_ROUTER_DOM];
    }
    assert deps == before + RouterDeps(c.router, c.routerDevtools);

    before := deps;
    if c.state == Redux {
      deps := deps + [REDUX_TOOLKIT, REACT_REDUX];
    } else if c.state == Zustand {
      deps := deps + [ZUSTAND];
    } else if c.state == Jotai {
      deps := deps + [JOTAI];
    }
    assert deps == before + StateDeps(c.state);

    before := deps;
    if c.query == TanstackQuery {
      deps := deps + [TANSTACK_QUERY];
      if c.queryDevtools {
        deps := deps + [TANSTACK_QUERY_DEVTOOLS];
        AppendAssoc(before, [TANSTACK_QUERY], [TANSTACK_QUERY_DEVTOOLS]);
      }
    }
    assert deps == before + QueryDeps(c.query, c.queryDevtools);

    before := deps;
    if c.toastify {
      deps := deps + [REACT_TOASTIFY];
    }
    assert deps == before + ToastDeps(c.toastify);
  }

  /** A runtime package is selected exactly when the reference table asks for it. */
  lemma DepsAreRequested(c: ScaffoldConfig)
    ensures forall p :: p in Deps(c) <==> RuntimeRequested(c, p)
  {
  }

  /**
   * The devtools packages are installed only together with their owning feature and
   * flag; a devtools flag alone installs nothing.
   */
  lemma DevtoolsNeedOwner(c: ScaffoldConfig)
    ensures TANSTACK_ROUTER_DEVTOOLS in Deps(c) <==> c.router == TanstackRouter && c.routerDevtools
    ensures TANSTACK_QUERY_DEVTOOLS in Deps(c) <==> c.query == TanstackQuery && c.queryDevtools
  {
    DepsAreRequested(c);
  }

  /**
   * Tailwind's two packages are the whole development list, and only for Tailwind; the
   * Material UI packages go to the runtime list only, and only for Material UI.
   */
  lemma StylingPackagesPlacement(c: ScaffoldConfig)
    ensures c.styling == Tailwind ==> DevDeps(c) == [TAILWINDCSS, TAILWIND_VITE]
    ensures c.styling != Tailwind ==> DevDeps(c) == []
    ensures forall p :: p in MUI_PACKAGES ==> (p in Deps(c) <==> c.styling == Mui) && p !in DevDeps(c)
    ensures TAILWINDCSS !in Deps(c) && TAILWIND_VITE !in Deps(c)
  {
    DepsAreRequested(c);
  }

  /** `s` is one axis's group: duplicate-free, and every entry on axis `k`. */
  predicate AxisGroup(s: seq<string>, k: nat)
  {
    NoDuplicates(s) && forall p :: p in s ==> AxisOf(p) == k
  }

  lemma GroupsAreAxisGroups(c: ScaffoldConfig)
    ensures AxisGroup(StylingDeps(c.styling), 0)
    ensures AxisGroup(RouterDeps(c.router, c.routerDevtools), 1)
    ensures AxisGroup(StateDeps(c.state), 2)
    ensures AxisGroup(QueryDeps(c.query, c.queryDevtools), 3)
    ensures AxisGroup(ToastDeps(c.toastify), 4)
  {
    EarlyAxes(c);
    LateAxes(c);
  }

  lemma EarlyAxes(c: ScaffoldConfig)
    ensures AxisGroup(StylingDeps(c.styling), 0)
    ensures AxisGroup(RouterDeps(c.router, c.routerDevtools), 1)
  {
  }

  lemma LateAxes(c: ScaffoldConfig)
    ensures AxisGroup(StateDeps(c.state), 2)
    ensures AxisGroup(QueryDeps(c.query, c.queryDevtools), 3)
    ensures AxisGroup(ToastDeps(c.toastify), 4)
  {
  }

  /** Appending the group of a later axis keeps the list ordered and duplicate-free. */
  lemma AppendGroup(a: seq<string>, b: seq<string>, k: nat)
    requires InAxisOrder(a) && NoDuplicates(a)
    requires forall p :: p in a ==> AxisOf(p) < k
    requires AxisGroup(b, k)
    ensures InAxisOrder(a + b) && NoDuplicates(a + b)
    ensures forall p :: p in a + b ==> AxisOf(p) <= k
  {
    forall i, j | 0 <= i < j < |a + b|
      ensures AxisOf((a + b)[i]) <= AxisOf((a + b)[j]) && (a + b)[i] != (a + b)[j]
    {
      if j < |a| {
        assert (a + b)[i] == a[i] && (a + b)[j] == a[j];
      } else if i < |a| {
        assert (a + b)[i] == a[i] && a[i] in a;
        assert (a + b)[j] == b[j - |a|] && b[j - |a|] in b;
      } else {
        assert (a + b)[i] == b[i - |a|] && b[i - |a|] in b;
        assert (a + b)[j] == b[j - |a|] && b[j - |a|] in b;
      }
    }
  }

  /**
   * The runtime list follows the axis order styling, router, state, query, toastify,
   * and neither list holds a package twice.
   */
  lemma {:induction false} DepsOrderedAndDistinct(c: ScaffoldConfig)
    ensures InAxisOrder(Deps(c)) && NoDuplicates(Deps(c))
    ensures forall p :: p in Deps(c) ==> AxisOf(p) < 5
    ensures NoDuplicates(DevDeps(c))
  {
    GroupsAreAxisGroups(c);
    var s0 := StylingDeps(c.styling);
    var s1 := s0 + RouterDeps(c.router, c.routerDevtools);
    var s2 := s1 + StateDeps(c.state);
    var s3 := s2 + QueryDeps(c.query, c.queryDevtools);
    AppendGroup([], s0, 0);
    assert [] + s0 == s0;
    AppendGroup(s0, RouterDeps(c.router, c.routerDevtools), 1);
    AppendGroup(s1, StateDeps(c.state), 2);
    AppendGroup(s2, QueryDeps(c.query, c.queryDevtools), 3);
    AppendGroup(s3, ToastDeps(c.toastify), 4);
  }
}
