/**
 * The application layout state of the root provider (src/App.tsx): two flags, the sidebar and the
 * dark theme, each with an "update" and a "toggle" action.
 */
module AppLayout {
  datatype AppLayoutState = AppLayoutState(sidebarOpen: bool, darkTheme: bool)

  /** `INITIAL_APP_LAYOUT_STATE`: the sidebar open, the light theme. */
  const InitialAppLayoutState := AppLayoutState(true, false)

  /** The four actions; `Unknown` stands for any other `type` tag. */
  datatype AppLayoutAction =
    | SidebarUpdate(data: bool)
    | SidebarToggle
    | ThemeUpdate(data: bool)
    | ThemeToggle
    | Unknown

  /** `appLayoutReducer`. */
  function AppLayoutReducer(state: AppLayoutState, action: AppLayoutAction): AppLayoutState
  {
    match action
    case SidebarUpdate(data) => state.(sidebarOpen := data)
    case SidebarToggle => state.(sidebarOpen := !state.sidebarOpen)
    case ThemeUpdate(data) => state.(darkTheme := data)
    case ThemeToggle => state.(darkTheme := !state.darkTheme)
    case Unknown => state
  }

  /** The state after dispatching `actions` in order. */
  function Run(state: AppLayoutState, actions: seq<AppLayoutAction>): AppLayoutState
    decreases |actions|
  {
    if actions == [] then state else Run(AppLayoutReducer(state, actions[0]), actions[1..])
  }

  /**
   * Updating a flag sets it to the payload and leaves the other flag alone, so doing it twice is
   * doing it once; toggling flips it and leaves the other flag alone, so doing it twice restores
   * the state; an unknown action changes nothing.
   */
  lemma {:induction false} ReducerFacts(state: AppLayoutState, data: bool)
    ensures AppLayoutReducer(state, SidebarUpdate(data)) == AppLayoutState(data, state.darkTheme)
    ensures AppLayoutReducer(AppLayoutReducer(state, SidebarUpdate(data)), SidebarUpdate(data)) ==
      AppLayoutReducer(state, SidebarUpdate(data))
    ensures AppLayoutReducer(state, SidebarToggle) == AppLayoutState(!state.sidebarOpen, state.darkTheme)
    ensures AppLayoutReducer(AppLayoutReducer(state, SidebarToggle), SidebarToggle) == state
    ensures AppLayoutReducer(state, ThemeUpdate(data)) == AppLayoutState(state.sidebarOpen, data)
    ensures AppLayoutReducer(AppLayoutReducer(state, ThemeUpdate(data)), ThemeUpdate(data)) ==
      AppLayoutReducer(state, ThemeUpdate(data))
    ensures AppLayoutReducer(state, ThemeToggle) == AppLayoutState(state.sidebarOpen, !state.darkTheme)
    ensures AppLayoutReducer(AppLayoutReducer(state, ThemeToggle), ThemeToggle) == state
    ensures AppLayoutReducer(state, Unknown) == state
  {
  }

  /** The sidebar flag after a run, computed from the sidebar actions alone. */
  function SidebarAfter(open: bool, actions: seq<AppLayoutAction>): bool
    decreases |actions|
  {
    if actions == [] then open
    else
      var next := match actions[0]
        case SidebarUpdate(data) => data
        case SidebarToggle => !open
        case _ => open;
      SidebarAfter(next, actions[1..])
  }

  /** The theme flag after a run, computed from the theme actions alone. */
  function ThemeAfter(dark: bool, actions: seq<AppLayoutAction>): bool
    decreases |actions|
  {
    if actions == [] then dark
    else
      var next := match actions[0]
        case ThemeUpdate(data) => data
        case ThemeToggle => !dark
        case _ => dark;
      ThemeAfter(next, actions[1..])
  }

  /**
   * The two flags are independent: over any run, each ends as its own actions alone make it,
   * whatever the other flag was and whatever the other flag's actions were.
   */
  lemma {:induction false} FlagsIndependent(state: AppLayoutState, actions: seq<AppLayoutAction>)
    ensures Run(state, actions) ==
      AppLayoutState(SidebarAfter(state.sidebarOpen, actions), ThemeAfter(state.darkTheme, actions))
    decreases |actions|
  {
    if actions != [] {
      FlagsIndependent(AppLayoutReducer(state, actions[0]), actions[1..]);
    }
  }

  /** A run of sidebar actions ends with the sidebar as the last update left it, flipped once per later toggle. */
  lemma {:induction false} SidebarAfterUpdate(open: bool, data: bool, toggles: nat)
    ensures SidebarAfter(open, [SidebarUpdate(data)] + Toggles(toggles)) == (data != (toggles % 2 == 1))
  {
    assert ([SidebarUpdate(data)] + Toggles(toggles))[1..] == Toggles(toggles);
    TogglesParity(data, toggles);
  }

  /** `n` sidebar toggles. */
  function Toggles(n: nat): seq<AppLayoutAction>
  {
    if n == 0 then [] else [SidebarToggle] + Toggles(n - 1)
  }

  /** An even number of toggles restores the sidebar, an odd number flips it. */
  lemma {:induction false} TogglesParity(open: bool, n: nat)
    ensures SidebarAfter(open, Toggles(n)) == (open != (n % 2 == 1))
    decreases n
  {
    if n > 0 {
      assert Toggles(n)[1..] == Toggles(n - 1);
      TogglesParity(!open, n - 1);
    }
  }
}
