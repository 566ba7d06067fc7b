/**
 * The configuration a scaffold run is driven by (`ScaffoldConfig`). Every axis is a
 * closed enumeration; the three optional booleans of the source are plain booleans
 * here, an absent one being `false` (the source only ever tests them for truth).
 */
module Config {

  datatype Styling = Tailwind | Mui | NoStyling

  datatype Router = TanstackRouter | ReactRouter | NoRouter

  datatype StateLib = Redux | Zustand | Jotai | NoState

  datatype Query = TanstackQuery | NoQuery

  datatype ScaffoldConfig = ScaffoldConfig(
    appName: string,
    styling: Styling,
    router: Router,
    routerDevtools: bool,
    state: StateLib,
    query: Query,
    queryDevtools: bool,
    toastify: bool)

  /**
   * The query library as the scaffold sees a value chosen at the prompt: every test in
   * the generator is `query === "tanstack-query"`, so any other value (the prompt also
   * offers "react-query") behaves as no query library at all.
   */
  function QueryOfPromptValue(v: string): (q: Query)
  {
    if v == "tanstack-query" then TanstackQuery else NoQuery
  }

  /** The prompt's "react-query" choice is silently treated as no query library. */
  lemma ReactQueryPromptIsNoQuery()
    ensures QueryOfPromptValue("react-query") == NoQuery
    ensures QueryOfPromptValue("tanstack-query") == TanstackQuery
    ensures QueryOfPromptValue("none") == NoQuery
  {
  }
}
