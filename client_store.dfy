/**
  store/store.ts: the client's global zustand store. Each setter replaces one field through
  `set((state) => ({ ...state, field }))`, so every other field keeps its value.
 */
module ClientStore {
  import opened Outcomes
  import opened UserModel

  /** The fields of `UserInterface` the client reads. */
  datatype UserInterface = UserInterface(id: string, email: string, name: string, surname: string,
                                         role: Role, phonenumber: string)

  datatype SearchParams = SearchParams(propertyType: string, propertyState: string, propertyAddress: string)

  /** A snapshot of the three state fields. */
  datatype State = State(authorizedUser: Option<UserInterface>, searchParams: Option<SearchParams>, darkMode: bool)

  class Store {
    var authorizedUser: Option<UserInterface>
    var searchParams: Option<SearchParams>
    var darkMode: bool

    function View(): (s: State)
      reads this
      ensures s.authorizedUser == authorizedUser && s.searchParams == searchParams && s.darkMode == darkMode
    {
      State(authorizedUser, searchParams, darkMode)
    }

    /** `create(...)`: no user, no search parameters, dark mode on. */
    constructor ()
      ensures View() == State(None, None, true)
    {
      authorizedUser := None;
      searchParams := None;
      darkMode := true;
    }

    method SetAuthorizedUser(user: UserInterface)
      modifies this
      ensures View() == old(View()).(authorizedUser := Some(user))
    {
      authorizedUser := Some(user);
    }

    method SetSearchParams(params: SearchParams)
      modifies this
      ensures View() == old(View()).(searchParams := Some(params))
    {
      searchParams := Some(params);
    }

    method ToggleDarkMode()
      modifies this
      ensures View() == old(View()).(darkMode := !old(darkMode))
    {
      darkMode := !darkMode;
    }
  }

  /** Toggling dark mode twice restores the whole state. */
  method ToggleTwiceRestores(s: Store)
    modifies s
    ensures s.View() == old(s.View())
  {
    s.ToggleDarkMode();
    s.ToggleDarkMode();
  }
}
