/** The `global` slice of the Redux store: the sidebar and dark-mode flags. */
module GlobalSlice {
  datatype GlobalState = GlobalState(isSidebarCollapsed: bool, isSidebarVisible: bool, isDarkMode: bool)

  const InitialState := GlobalState(false, false, false)

  datatype Action =
    | SetIsSidebarCollapsed(collapsed: bool)
    | SetIsSidebarVisible(visible: bool)
    | SetIsDarkMode(dark: bool)

  /** What the reducer makes of state `s` under `a`: the one flag the action names takes the
      payload, the other two stay. */
  function Reduce(s: GlobalState, a: Action): (r: GlobalState)
    ensures a.SetIsSidebarCollapsed? ==> r == s.(isSidebarCollapsed := a.collapsed)
    ensures a.SetIsSidebarVisible? ==> r == s.(isSidebarVisible := a.visible)
    ensures a.SetIsDarkMode? ==> r == s.(isDarkMode := a.dark)
  {
    match a
    case SetIsSidebarCollapsed(b) => s.(isSidebarCollapsed := b)
    case SetIsSidebarVisible(b) => s.(isSidebarVisible := b)
    case SetIsDarkMode(b) => s.(isDarkMode := b)
  }

  /** Dispatching a setter twice is the same as dispatching it once. */
  lemma ReduceIdempotent(s: GlobalState, a: Action)
    ensures Reduce(Reduce(s, a), a) == Reduce(s, a)
  {
  }

  /** Setters of different flags commute. */
  lemma ReduceCommutes(s: GlobalState, a: Action, b: Action)
    requires a.SetIsSidebarCollapsed? ==> !b.SetIsSidebarCollapsed?
    requires a.SetIsSidebarVisible? ==> !b.SetIsSidebarVisible?
    requires a.SetIsDarkMode? ==> !b.SetIsDarkMode?
    ensures Reduce(Reduce(s, a), b) == Reduce(Reduce(s, b), a)
  {
  }

  class GlobalStore {
    var isSidebarCollapsed: bool
    var isSidebarVisible: bool
    var isDarkMode: bool

    function State(): GlobalState
      reads this
    {
      GlobalState(isSidebarCollapsed, isSidebarVisible, isDarkMode)
    }

    /** `initialState`: every flag false. */
    constructor ()
      ensures !isSidebarCollapsed && !isSidebarVisible && !isDarkMode
      ensures State() == InitialState
    {
      isSidebarCollapsed := false;
      isSidebarVisible := false;
      isDarkMode := false;
    }

    /** `setIsSidebarCollapsed(payload)` */
    method SetIsSidebarCollapsed(payload: bool)
      modifies this
      ensures isSidebarCollapsed == payload
      ensures isSidebarVisible == old(isSidebarVisible) && isDarkMode == old(isDarkMode)
      ensures State() == Reduce(old(State()), Action.SetIsSidebarCollapsed(payload))
    {
      isSidebarCollapsed := payload;
    }

    /** `setIsSidebarVisible(payload)` */
    method SetIsSidebarVisible(payload: bool)
      modifies this
      ensures isSidebarVisible == payload
      ensures isSidebarCollapsed == old(isSidebarCollapsed) && isDarkMode == old(isDarkMode)
      ensures State() == Reduce(old(State()), Action.SetIsSidebarVisible(payload))
    {
      isSidebarVisible := payload;
    }

    /** `setIsDarkMode(payload)` */
    method SetIsDarkMode(payload: bool)
      modifies this
      ensures isDarkMode == payload
      ensures isSidebarCollapsed == old(isSidebarCollapsed) && isSidebarVisible == old(isSidebarVisible)
      ensures State() == Reduce(old(State()), Action.SetIsDarkMode(payload))
    {
      isDarkMode := payload;
    }
  }
}
