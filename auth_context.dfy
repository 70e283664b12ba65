/**
 * The authentication provider: a logged-in flag kept in memory and a bearer
 * token kept in `localStorage`. The provider exposes `isLoggedIn`, `login` and
 * `logout` and nothing else; in particular there is no user id in its state.
 */
module AuthContext {
  import opened Common
  import opened Storage

  /** The provider's observable state: the in-memory flag and the storage it writes. */
  datatype Session = Session(isLoggedIn: bool, storage: Store)

  /** `!!localStorage.getItem('token')`: a token is stored and it is not "". */
  predicate HasToken(s: Store): (r: bool)
    ensures r <==> TokenKey in s && s[TokenKey] != ""
  {
    Truthy(GetItem(s, TokenKey))
  }

  /** The invariant "the flag says what re-initialisation would read". */
  predicate Consistent(s: Session)
  {
    s.isLoggedIn == HasToken(s.storage)
  }

  /** Before the mount effect runs, the provider is logged out over whatever is stored. */
  function Mounted(storage: Store): (r: Session)
    ensures !r.isLoggedIn && r.storage == storage
  {
    Session(false, storage)
  }

  /** The mount effect: read the stored token and set the flag from its truthiness. */
  function Initialised(s: Session): (r: Session)
    ensures r.storage == s.storage
    ensures r.isLoggedIn <==> TokenKey in s.storage && s.storage[TokenKey] != ""
    ensures Consistent(r)
  {
    Session(HasToken(s.storage), s.storage)
  }

  /** `login(token)`: store the token under "token" and set the flag, from any state. */
  function AfterLogin(s: Session, token: string): (r: Session)
    ensures r.isLoggedIn
    ensures GetItem(r.storage, TokenKey) == Some(token)
    ensures forall k :: k != TokenKey ==> GetItem(r.storage, k) == GetItem(s.storage, k)
    ensures r.storage.Keys == s.storage.Keys + {TokenKey}
  {
    Session(true, SetItem(s.storage, TokenKey, token))
  }

  /**
   * `logout()`: once the logout request completes, with any status, remove the
   * token and clear the flag; when the request throws, the error is only
   * logged and nothing changes.
   */
  function AfterLogout(s: Session, request: FetchOutcome): (r: Session)
    ensures request.Completed? ==> !r.isLoggedIn && GetItem(r.storage, TokenKey) == None
    ensures request.Completed? ==> forall k :: k != TokenKey ==> GetItem(r.storage, k) == GetItem(s.storage, k)
    ensures request.Threw? ==> r == s
  {
    match request
    case Completed(_) => Session(false, RemoveItem(s.storage, TokenKey))
    case Threw(_) => s
  }

  /** Re-running the mount effect reads the same answer. */
  lemma InitialisedIdempotent(s: Session)
    ensures Initialised(Initialised(s)) == Initialised(s)
  {
  }

  /** After `login(t)` the invariant holds exactly when `t` is not "". */
  lemma LoginConsistentIffNonEmpty(s: Session, token: string)
    ensures Consistent(AfterLogin(s, token)) <==> token != ""
  {
    assert GetItem(AfterLogin(s, token).storage, TokenKey) == Some(token);
  }

  /** `login("")` sets the flag, yet a reload would read logged out. */
  lemma LoginEmptyTokenLostOnReload(s: Session)
    ensures AfterLogin(s, "").isLoggedIn
    ensures !Initialised(AfterLogin(s, "")).isLoggedIn
  {
    assert GetItem(AfterLogin(s, "").storage, TokenKey) == Some("");
  }

  /** A completed logout keeps the invariant, whatever the state before it. */
  lemma LogoutCompletedConsistent(s: Session, request: FetchOutcome)
    requires request.Completed?
    ensures Consistent(AfterLogout(s, request))
  {
  }

  /** On the completing path a second logout yields the same state as the first. */
  lemma LogoutIdempotent(s: Session, first: FetchOutcome, second: FetchOutcome)
    requires first.Completed? && second.Completed?
    ensures AfterLogout(AfterLogout(s, first), second) == AfterLogout(s, first)
  {
  }

  /** The provider component, whose state React and `localStorage` update in place. */
  class AuthProvider {
    var isLoggedIn: bool
    var storage: Store

    function State(): Session
      reads this
    {
      Session(isLoggedIn, storage)
    }

    /** First render: `useState(false)` over the storage left by earlier visits. */
    constructor (stored: Store)
      ensures State() == Mounted(stored)
    {
      isLoggedIn := false;
      storage := stored;
    }

    /** The mount effect. */
    method Initialise()
      modifies this
      ensures State() == Initialised(old(State()))
    {
      var token := GetItem(storage, TokenKey);
      isLoggedIn := Truthy(token);
    }

    /** `login(token)`; callers may pass more arguments, which are ignored. */
    method Login(token: string)
      modifies this
      ensures State() == AfterLogin(old(State()), token)
    {
      storage := SetItem(storage, TokenKey, token);
      isLoggedIn := true;
    }

    /** `logout()`, given how the awaited logout request ends. */
    method Logout(request: FetchOutcome)
      modifies this
      ensures State() == AfterLogout(old(State()), request)
    {
      match request {
        case Completed(_) =>
          storage := RemoveItem(storage, TokenKey);
          isLoggedIn := false;
        case Threw(_) =>
      }
    }
  }
}
