# TSX-stack scaffold generator, modelled in Dafny

TSX-stack is a command-line generator for React + TypeScript projects built on Vite.
From a small configuration it does three things. It picks the npm packages to install.
It writes a fixed family of source files: the Navbar, Footer, Home and About pages, the
routing files, the Redux store, the Vite configuration and the stylesheets. It composes
`src/App.tsx`, in which provider components wrap the router element. All of this lives
in `scaffoldProject` (`scaffold.ts`).

The model takes that function apart into six modules, one file each:

- `Config` (`config.dfy`): `ScaffoldConfig` as a datatype over closed enumerations. An
  absent optional boolean is `false`. It also models how a query value chosen at the
  prompt is read.
- `Dependencies` (`dependencies.dfy`): the two package lists.
  - `Deps` and `DevDeps` are a pure specification, one axis at a time.
  - `SelectDependencies` is the source's `push` chain, proved equal to that specification.
  - Lemmas cover what is installed under which condition, the axis order and the absence
    of duplicates.
- `Templates` (`templates.dfy`): each generated module is an import section plus an
  opaque body token.
  - Each token carries the identifiers its JSX uses.
  - A module is *self-consistent* when its imports bring in every identifier it uses.
  - The Navbar is built imperatively (`BuildNavbar`). Footer, Home and About are pure
    conditional expressions.
- `AppComposer` (`app_composer.dfy`): App.tsx as a sequence of chunks (import lines, the
  component frame, `Open`/`Close` wrapper tags and self-closing elements).
  - `ComposeApp` mirrors the source's `appTsx +=` chain and is proved equal to `AppTsx`.
  - `AppTsx` is a fold of wrappers, outside in.
  - Balance is checked by a stack scanner `Scan`.
  - Each chunk records the identifiers it uses and the ones it brings into scope, so
    App.tsx's self-consistency is stated like that of the other modules.
- `Scaffold` (`scaffold.dfy`): the run itself.
  - It fails when the directory exists; otherwise it produces the install commands and
    the generated files in write order, App.tsx last.
  - Lemmas cover which files are emitted, their order and uniqueness, their contents,
    their self-consistency, and how their imports compare with what is installed.
- `Wrappers` (`wrappers.dfy`): Option, Result and two facts about concatenation.

The model keeps four behaviours of the code as they are:

- A styled Navbar without a router renders `Link` but imports nothing.
- The router devtools are installed as `@tanstack/router-devtools` but imported from
  `@tanstack/react-router-devtools`.
- App.tsx imports `ReactQueryDevtools` whenever TanStack Query is selected, even when its
  devtools are not.
- The prompt's `"react-query"` value behaves as no query library.

Three further facts about the code:

- The code never deduplicates its package lists. `DepsOrderedAndDistinct` proves that
  the lists it builds cannot hold a duplicate anyway.
- App.tsx imports `./App.css`, but the run writes `src/app.css` (lower case). The model
  keeps both names.
- App.tsx is not always a valid component. Its `return ( … )` holds exactly one JSX node
  only when a provider wraps everything or a single element stands alone. It holds no
  node when no feature reaches the JSX (scaffold.ts:359, 398). Without Redux or TanStack
  Query it holds two or three nodes side by side whenever more than one element is
  rendered. RouterProvider and its devtools are two (365-367). A router element followed
  by the toast container is two (365-392). RouterProvider, its devtools and the toast
  container together are three. The model reproduces this and counts the nodes
  (`InnerRoots`, `BodyRoots`, `SingleRoot`).

## Model

| member | source | states |
|---|---|---|
| Config.ReactQueryPromptIsNoQuery | index.ts:92 | The prompt value "react-query" reaches the generator as no query library. Only "tanstack-query" selects TanStack Query. |
| Dependencies.SelectDependencies | scaffold.ts:33-64 | The two lists the push chain builds are exactly the specification lists `Deps(c)` and `DevDeps(c)`. |
| Dependencies.DepsAreRequested | scaffold.ts:36-64 | A package is in `deps` if and only if the reference table `RuntimeRequested` asks for it under the configuration. |
| Dependencies.DevtoolsNeedOwner | scaffold.ts:42-59 | `@tanstack/router-devtools` is in `deps` iff the router is TanStack Router and its devtools are on. `@tanstack/react-query-devtools` is in `deps` iff the query library is TanStack Query and its devtools are on. |
| Dependencies.StylingPackagesPlacement | scaffold.ts:36-40 | `devDeps` is exactly [tailwindcss, @tailwindcss/vite] for Tailwind and empty otherwise. The Material UI packages are in `deps` iff styling is Material UI, and never in `devDeps`. Tailwind's packages are never in `deps`. |
| Dependencies.GroupsAreAxisGroups | scaffold.ts:36-64 | Each axis contributes a duplicate-free group of its own packages only. |
| Dependencies.AppendGroup | scaffold.ts:33-64 | Appending an axis's group to a list of earlier axes keeps the list duplicate-free and in axis order. |
| Dependencies.DepsOrderedAndDistinct | scaffold.ts:33-64 | `deps` holds no duplicate. Its entries follow the axis order styling, router, state, query, toastify. `devDeps` holds no duplicate. |
| Templates.BuildNavbar | scaffold.ts:94-141 | Reassigning the `Link` import and then the Navbar content produces exactly the Navbar of the styling and router. |
| Templates.NavbarLinkImport | scaffold.ts:97-131 | The unstyled Navbar has no import and no `Link`. A styled Navbar uses `Link`, which is imported iff a router is selected, and only from that router's package. |
| Templates.NavbarSelfConsistency | scaffold.ts:94-141 | The Navbar imports everything it uses iff it is unstyled or a router is selected. |
| Templates.NavbarPackages | scaffold.ts:97-141 | The Navbar imports from the router's package only when styled, and from @mui/material only with Material UI. |
| Templates.PagesSelfConsistent | scaffold.ts:157-220 | Footer, Home and About import every component they use, under every styling. |
| Templates.PagesPackages | scaffold.ts:157-220 | Footer, Home and About import from @mui/material with Material UI, and from no package otherwise. |
| Templates.RootRouteSelfConsistent | scaffold.ts:229-246 | The TanStack root layout imports `Outlet`, `Navbar` and `Footer`, which is everything it uses. |
| Templates.RouteTreeSelfConsistent | scaffold.ts:248-278 | The TanStack route tree imports the route constructors and the three page components it uses. |
| Templates.LayoutSelfConsistent | scaffold.ts:284-302 | The React Router layout imports everything it uses. |
| Templates.StoreSelfConsistent | scaffold.ts:308-320 | The Redux store imports `configureStore`. |
| Templates.RoutingModulesPackages | scaffold.ts:225-321 | The TanStack files import only @tanstack/react-router. The React Router layout imports only react-router-dom. The store imports only @reduxjs/toolkit. |
| Templates.ViteConfigImports | scaffold.ts:75-85 | vite.config.ts imports what it uses, from vite, @vitejs/plugin-react and @tailwindcss/vite. |
| AppComposer.ComposePreamble | scaffold.ts:324-357 | The import section appended feature by feature equals the specification `Preamble(c)`. |
| AppComposer.ComposeInner | scaffold.ts:364-393 | The router element and the trailing siblings, as appended, equal `Inner(c)`. |
| AppComposer.ComposeBody | scaffold.ts:361-396 | The openings, the inner elements and the closings in reverse order equal the nested wrapping `Body(c)`. |
| AppComposer.FlatWrapping | scaffold.ts:361-396 | Opening Provider then QueryClientProvider and closing them in reverse is the same as wrapping QueryClientProvider inside Provider. |
| AppComposer.ComposeApp | scaffold.ts:324-398 | The whole `appTsx +=` chain produces exactly `AppTsx(c)`. |
| AppComposer.ScanAppend | scaffold.ts:359-398 | Scanning a concatenation scans the first part, then the second from the stack the first left. |
| AppComposer.WrappedBalanced | scaffold.ts:361-396 | Wrapping balanced JSX in an opening and its closing tag keeps it balanced. |
| AppComposer.RouteSwitchIsWrapped | scaffold.ts:370-377 | The React Router block is BrowserRouter around Routes around the Layout route, which holds the Home and About routes. |
| AppComposer.InnerBalanced | scaffold.ts:364-393 | What the providers enclose closes every tag it opens. |
| AppComposer.BodyBalanced | scaffold.ts:361-396 | The JSX of App is balanced: every wrapper opened is closed, innermost first. |
| AppComposer.AppBalanced | scaffold.ts:324-398 | The whole of App.tsx is balanced under every configuration. |
| AppComposer.ScanDepth | scaffold.ts:359-398 | JSX that the balance scanner accepts never climbs above its starting depth. Started one level down or deeper, it has no top-level node. |
| AppComposer.WrappedRoots | scaffold.ts:361-396 | A wrapper around balanced JSX is exactly one top-level node. |
| AppComposer.RouteSwitchRoots | scaffold.ts:370-377 | The BrowserRouter tree is one top-level node. |
| AppComposer.RouterViewRoots | scaffold.ts:364-378 | The routing element is two top-level nodes for RouterProvider with its devtools, one for RouterProvider alone or the BrowserRouter tree, and none without a router. |
| AppComposer.InnerRoots | scaffold.ts:364-393 | What the providers enclose has one top-level node per router element and per trailing sibling (query devtools, ToastContainer). |
| AppComposer.BodyRoots | scaffold.ts:361-396 | With Redux or TanStack Query, the JSX of App is one node. Otherwise it has as many nodes as what the providers would enclose. |
| AppComposer.SingleRoot | scaffold.ts:359-398 | App returns exactly one JSX node iff one of these holds: Redux or TanStack Query is selected; RouterProvider stands alone, without devtools or toasts; the BrowserRouter tree stands without toasts; or ToastContainer stands without a router. It returns no node iff none of the features reaches the JSX. |
| AppComposer.AppTsxParts | scaffold.ts:324-398 | The tags and elements of App.tsx are those of its JSX. Its import lines are those of its import section. |
| AppComposer.AppFrame | scaffold.ts:324-398 | App.tsx begins with `import "./App.css"` and ends with `export default App`, which occurs nowhere else. |
| AppComposer.BodyMembers | scaffold.ts:361-396 | A JSX chunk is a tag of an enabled provider or a chunk of what the providers enclose. |
| AppComposer.ProviderPresence | scaffold.ts:361-396 | `<Provider>` is opened and closed iff state is Redux. `<QueryClientProvider>` is opened and closed iff query is TanStack Query. |
| AppComposer.ProviderNesting | scaffold.ts:361-396 | Provider is first and last in the JSX. With both providers, QueryClientProvider is second and second-to-last, so Provider strictly encloses it. Without Redux, QueryClientProvider is outermost. Nothing inside is a provider tag. |
| AppComposer.RouterElements | scaffold.ts:364-378 | RouterProvider is present iff TanStack Router is selected. BrowserRouter is present iff React Router is selected. The router devtools are present iff TanStack Router is selected with its devtools, and they immediately follow RouterProvider. |
| AppComposer.PreambleMembers | scaffold.ts:324-357 | An import line is in App.tsx iff it is the stylesheet import or belongs to the block of an enabled feature. |
| AppComposer.QueryDevtoolsPresence | scaffold.ts:348-382 | The `ReactQueryDevtools` element is present iff TanStack Query is selected with its devtools. Its import is present whenever TanStack Query is selected. |
| AppComposer.ToastContainerLast | scaffold.ts:380-396 | ToastContainer is present iff toastify. Only closing tags follow it. |
| AppComposer.BlockPackages | scaffold.ts:324-357 | Each import block loads from exactly its feature's packages. The router devtools import loads from @tanstack/react-router-devtools. |
| AppComposer.PreamblePackages | scaffold.ts:324-357 | The packages App.tsx imports from are exactly those of the enabled features' blocks. The query block always includes @tanstack/react-query-devtools. |
| AppComposer.TanstackRouterBlockNames | scaffold.ts:325-357 | The TanStack Router block brings `RouterProvider` and `router` into scope, and the devtools import brings `TanStackRouterDevtools`. |
| AppComposer.ReactRouterBlockNames | scaffold.ts:330-335 | The React Router block brings `BrowserRouter`, `Routes`, `Route`, `Layout`, `Home` and `About` into scope. |
| AppComposer.ToastBlockNames | scaffold.ts:337-340 | The toast block brings `ToastContainer` into scope. |
| AppComposer.ReduxBlockNames | scaffold.ts:342-345 | The Redux block brings `Provider` and `store` into scope. |
| AppComposer.QueryBlockNames | scaffold.ts:347-353 | The TanStack Query block brings `QueryClient`, `QueryClientProvider`, `ReactQueryDevtools` and the declared `queryClient` into scope. |
| AppComposer.TanstackRouterInScope | scaffold.ts:325-357 | With TanStack Router, App.tsx's import section brings `RouterProvider` and `router` into scope, and `TanStackRouterDevtools` as well when the router devtools are on. |
| AppComposer.ReactRouterInScope | scaffold.ts:330-335 | With React Router, the import section brings React Router's three components and Layout, Home and About into scope. |
| AppComposer.ToastInScope | scaffold.ts:337-340 | With toastify, the import section brings `ToastContainer` into scope. |
| AppComposer.ReduxInScope | scaffold.ts:342-345 | With Redux, the import section brings `Provider` and `store` into scope. |
| AppComposer.QueryInScope | scaffold.ts:347-353 | With TanStack Query, the import section brings `QueryClient`, `QueryClientProvider`, `ReactQueryDevtools` and `queryClient` into scope. |
| AppComposer.SiblingsMembers | scaffold.ts:380-393 | The trailing siblings are the query devtools (with TanStack Query and its devtools) and ToastContainer (with toastify), and nothing else. |
| AppComposer.PreambleNamesDeclared | scaffold.ts:324-357 | In the import section, only `new QueryClient()` uses a name, and `QueryClient` is imported by the same block. |
| AppComposer.FramedNamesResolve | scaffold.ts:359-398 | Wrapping an import section and JSX in the component frame and its export keeps every name resolved, since `App` is declared before it is exported. |
| AppComposer.RouteSwitchUses | scaffold.ts:370-377 | The BrowserRouter tree refers only to React Router's three components and to Layout, Home and About. |
| AppComposer.RouterViewNamesDeclared | scaffold.ts:325-378 | Every identifier the routing element uses (`RouterProvider`, `router`, `TanStackRouterDevtools`, the route switch's names) is brought in by App.tsx's import section. |
| AppComposer.SiblingsNamesDeclared | scaffold.ts:337-393 | `ReactQueryDevtools` and `ToastContainer`, when rendered, are imported by the import section. |
| AppComposer.BodyNamesDeclared | scaffold.ts:324-396 | Every identifier the JSX of App uses, the providers' `store` and `queryClient` included, is brought into scope by the import section. |
| AppComposer.AppSelfConsistent | scaffold.ts:324-398 | Every identifier any chunk of App.tsx uses is brought into scope by App.tsx itself, under every configuration: the JSX's names by the import section, `QueryClient` by its import, and `App` by its declaration before the export. |
| AppComposer.AppTsxPackages | scaffold.ts:324-398 | Only the import section of App.tsx imports packages. |
| AppComposer.NoRouterNoRouterImports | scaffold.ts:326-357 | Without a router, App.tsx imports neither router package nor the router devtools, even when routerDevtools is on. |
| AppComposer.NoRouterNoRoutingElements | scaffold.ts:364-378 | Without a router, App.tsx has no RouterProvider, no router devtools and no BrowserRouter. |
| Scaffold.Install | scaffold.ts:66-72 | The install step issues exactly `InstallCommands(deps, devDeps)`. |
| Scaffold.InstallsSkipEmptyLists | scaffold.ts:66-72 | An `npm install` is issued only for a nonempty list: the runtime one first, the `-D` one last, and no other command. |
| Scaffold.ConfigInstalls | scaffold.ts:33-72 | Nothing is installed iff no feature is selected. The `-D` install happens iff styling is Tailwind, and it installs its two packages. |
| Scaffold.WriteTailwind | scaffold.ts:74-88 | Writes vite.config.ts and both Tailwind stylesheets for Tailwind, and nothing otherwise. |
| Scaffold.WriteCommon | scaffold.ts:93-223 | Writes the empty stylesheets when unstyled, then the Navbar, Footer, Home and About with their contents. |
| Scaffold.WriteRouting | scaffold.ts:225-303 | Writes `__root.tsx` and `router.tsx` for TanStack Router, `Layout.tsx` for React Router, and nothing otherwise. |
| Scaffold.WriteStore | scaffold.ts:305-321 | Writes `store.ts` for Redux only. |
| Scaffold.WriteFiles | scaffold.ts:74-400 | The files written, in order, are exactly `Files(c, year)`: the rendered templates, then App.tsx. |
| Scaffold.ScaffoldProject | scaffold.ts:17-72 | Fails with `Directory "<appName>" already exists.` when the directory exists, before installing or writing anything. Otherwise it returns the selected installs and the generated files. |
| Scaffold.FileOrder | scaffold.ts:74-400 | The write order is vite.config.ts (Tailwind), the two stylesheets (unless Material UI), Navbar, Footer, Home, About, the routing files, the store, then App.tsx. |
| Scaffold.EmittedFiles | scaffold.ts:75-321 | A file is written iff its condition holds. vite.config.ts is written iff Tailwind. The stylesheets are written unless Material UI. The common files and App.tsx are always written. `__root.tsx`/`router.tsx` are written iff TanStack Router, `Layout.tsx` iff React Router, `store.ts` iff Redux. |
| Scaffold.WrittenOnce | scaffold.ts:75-400 | No file is written twice, and App.tsx is written last. |
| Scaffold.PathsDistinct | scaffold.ts:76-400 | Different files have different paths. |
| Scaffold.GeneratedFiles | scaffold.ts:75-400 | A generated file is an emitted file with its template content. App.tsx carries the composed chunks. |
| Scaffold.FilesFollowOrder | scaffold.ts:75-400 | The i-th generated file is the i-th file of the write order. |
| Scaffold.NoPathTwice | scaffold.ts:76-400 | No path is emitted twice. |
| Scaffold.Stylesheets | scaffold.ts:86-105 | index.css and app.css hold `@import "tailwindcss";` for Tailwind, are empty without styling, and are not written at all for Material UI. |
| Scaffold.ModuleSelfConsistent | scaffold.ts:94-321 | A generated module imports everything it uses, except the Navbar of a styled project without a router. |
| Scaffold.ModulesSelfConsistent | scaffold.ts:75-321 | Over all generated files: every module is self-consistent, except that one Navbar. |
| Scaffold.InstalledTable | scaffold.ts:29-72 | A package is present after the run iff the Vite template brings it, the configuration requests it, or it is one of Tailwind's dev packages. |
| Scaffold.SelectedPackagesInstalled | scaffold.ts:36-64 | The packages of each selected feature are installed: the router's, @mui/material, @tailwindcss/vite, Redux Toolkit and react-redux, zustand, jotai, TanStack Query and react-toastify. |
| Scaffold.RouterDevtoolsModuleMissing | scaffold.ts:355-356 | `@tanstack/react-router-devtools`, imported by App.tsx, is never installed, because line 44 installs `@tanstack/router-devtools`. |
| Scaffold.QueryDevtoolsInstalled | scaffold.ts:57-59 | @tanstack/react-query-devtools is installed iff TanStack Query is selected with its devtools. |
| Scaffold.ModuleImportsInstalled | scaffold.ts:75-321 | Every package that a template-rendered file imports is installed. |
| Scaffold.AppImportsMissing | scaffold.ts:348-357 | App.tsx's imports that no install provides are exactly the router devtools module (TanStack Router with devtools) and @tanstack/react-query-devtools (TanStack Query without its devtools). |
| Scaffold.ImportsInstalled | scaffold.ts:33-400 | Every import of the generated project resolves to an installed package iff neither devtools quirk applies. |
| Scaffold.BareProject | scaffold.ts:17-400 | With no feature, nothing is installed and only the empty stylesheets, the four common files and App.tsx are written. App.tsx has only the stylesheet import, the component frame and the export. Its `return ( )` holds no JSX node at all, so the bare project does not get a complete entry point. |
| Scaffold.TanstackProject | scaffold.ts:17-400 | Tailwind + TanStack Router + Zustand + TanStack Query with both devtools and toastify gives these exact install commands and this exact write order. The only provider is QueryClientProvider, around RouterProvider, the router devtools, the query devtools and ToastContainer. |
| Scaffold.AppStylesheetNotGenerated | scaffold.ts:324 | App.tsx imports `./App.css`, but no generated file has the path `src/App.css`; the run writes `src/app.css`. |

## Left out

- Running `npm create vite` and `npm install` (scaffold.ts:29-31, 67-72) is not modelled.
  These are external processes. The model returns the install argument lists, and
  `InstallCommands` keeps the rule that an empty list is skipped.
- The Vite template's own files are not modelled. `VITE_TEMPLATE_PACKAGES` stands in for
  the packages it brings (react, react-dom, vite, @vitejs/plugin-react).
- The file system (`existsSync`, `mkdirp`, `outputFile`, `writeFile`) is not modelled.
  Whether the directory exists is a parameter, and the files come back as a list of
  (file, content) pairs in write order. Directory creation is not modelled.
- The clock: the year `new Date().getFullYear()` stamps in the Footer is a parameter.
- The spinner text and the console output are user interface only.
- index.ts (prompts, argument handling, the interrupt handler, exit codes) is command-line
  plumbing with no generation logic. Only the prompt's "react-query" value is modelled,
  in `Config.QueryOfPromptValue`.
- The exact JSX, whitespace and text of the templates are not modelled. A body is a token
  that records the identifiers it uses. App.tsx records which chunks appear and in what
  order, not their text.
- Templates.BuildNavbar: the fourth branch at scaffold.ts:142-152 is not modelled. With the
  closed styling type it cannot be reached: none, mui and tailwind are handled before it.
- AppComposer.AppTsx: the model does not promise that App.tsx is a valid component. The
  source does not produce one in the cases `SingleRoot` names: an empty `return ( )`, or
  two or three JSX nodes side by side (`InnerRoots` gives the count). The model reproduces that output rather than correcting it.
  Beyond balance and the count of top-level nodes, the JSX is not checked.
