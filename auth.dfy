/**
 * The customer session context (src/contexts/AuthContext.tsx): the signed-in
 * user, the loading and modal flags, and the copy of the user kept in the
 * browser's local storage under `sugrae_user`.
 *
 * Each operation is a pure step on a `Session` (the context state together
 * with the storage contents); the `AuthStore` methods perform those steps on
 * the state holder and the shared storage object.
 */
module Auth {
  import opened Wrappers
  import opened Text
  import Js
  import opened Storefront

  const StorageKey: string := "sugrae_user"

  /** The signed-in user; fields read from a missing profile are `undefined`. */
  datatype User = User(id: Js.Value, email: Js.Value, firstName: Js.Value, lastName: Js.Value,
                       displayName: string, accessToken: string)

  datatype AuthState = AuthState(user: Option<User>, isAuthenticated: bool, isLoading: bool, isAuthModalOpen: bool)

  /**
   * A local-storage entry: the JSON text this context wrote for a user, or a
   * text written by someone else, with what `JSON.parse` makes of it.
   */
  datatype StoredEntry = UserJson(user: User) | Foreign(text: string, parsed: ParseOutcome)

  /** `JSON.parse` of a foreign text: it throws, it yields `null`, or it yields a value read as a user. */
  datatype ParseOutcome = Unparsable | ParsedNull | ParsedUser(user: User)

  /** The flag says signed in exactly when there is a user. */
  predicate Consistent(st: AuthState)
  {
    st.isAuthenticated <==> st.user.Some?
  }

  datatype Session = Session(state: AuthState, storage: map<string, StoredEntry>)

  const InitialAuthState: AuthState := AuthState(None, false, true, false)

  /**
   * The display name built after sign-in: when the profile's display name or
   * the first name is truthy, the trimmed `"<first> <last>"` (interpolating
   * the values as they are, with a falsy last name as `''`); otherwise the
   * part of the email before the first `@`.
   */
  function DisplayName(displayName: Js.Value, firstName: Js.Value, lastName: Js.Value, email: string): (name: string)
    ensures !Js.Truthy(displayName) && !Js.Truthy(firstName) ==>
              name == FirstPiece(email, '@') && '@' !in name && name == email[..|name|]
    ensures Js.Truthy(displayName) || Js.Truthy(firstName) ==>
              name == Trim(Js.Interpolate(firstName) + " " + Js.Interpolate(Js.Or(lastName, Js.Str(""))))
    ensures (Js.Truthy(displayName) || Js.Truthy(firstName)) && name != [] ==>
              !IsSpace(name[0]) && !IsSpace(name[|name| - 1])
  {
    if Js.Truthy(displayName) || Js.Truthy(firstName)
    then
      var full := Js.Interpolate(firstName) + " " + Js.Interpolate(Js.Or(lastName, Js.Str("")));
      TrimBoundaries(full);
      Trim(full)
    else FirstPiece(email, '@')
  }

  /** With both names given as text, the display name is the trimmed `"<first> <last>"`. */
  lemma DisplayNameFromNames(displayName: Js.Value, first: string, last: string, email: string)
    requires first != ""
    ensures DisplayName(displayName, Js.Str(first), Js.Str(last), email) == Trim(first + " " + last)
  {
    assert Js.Truthy(Js.Str(first));
    assert Js.Interpolate(Js.Or(Js.Str(last), Js.Str(""))) == last;
  }

  /**
   * A profile whose display name is set but whose first and last names are
   * `null` gets the display name `"null"`: the truthy display name selects
   * the interpolating branch, which ignores it.
   */
  lemma DisplayNameReadsNull(displayName: string, email: string)
    requires displayName != ""
    ensures DisplayName(Js.Str(displayName), Js.Null, Js.Null, email) == "null"
  {
    var s := Js.Interpolate(Js.Null) + " " + Js.Interpolate(Js.Or(Js.Null, Js.Str("")));
    assert s == "null ";
    assert !IsSpace(s[0]) && IsSpace(s[4]) && !IsSpace(s[3]);
    assert TrimStart(s) == s;
    assert s[..4] == "null";
    assert TrimEnd(s) == TrimEnd("null") == "null";
  }

  /** The user `login` builds from the gateway's answer. */
  function LoginUser(response: LoginResult, email: string): (u: User)
    ensures u.accessToken == response.accessToken
    ensures response.profile.Some? ==>
              && u.id == Js.Str(response.profile.value.id) && u.email == Js.Str(response.profile.value.email)
              && u.firstName == response.profile.value.firstName && u.lastName == response.profile.value.lastName
    ensures response.profile.Some? ==>
              var p := response.profile.value;
              u.displayName == DisplayName(p.displayName, p.firstName, p.lastName, email)
    ensures response.profile.None? ==>
              && u.id == Js.Undefined && u.email == Js.Undefined
              && u.firstName == Js.Undefined && u.lastName == Js.Undefined
              && u.displayName == FirstPiece(email, '@')
  {
    match response.profile
    case Some(p) =>
      User(Js.Str(p.id), Js.Str(p.email), p.firstName, p.lastName,
           DisplayName(p.displayName, p.firstName, p.lastName, email), response.accessToken)
    case None =>
      User(Js.Undefined, Js.Undefined, Js.Undefined, Js.Undefined,
           DisplayName(Js.Undefined, Js.Undefined, Js.Undefined, email), response.accessToken)
  }

  /** The user `signup` builds: identity from the login answer, display name from the signup arguments. */
  function SignupUser(response: LoginResult, email: string, firstName: Js.Value, lastName: Js.Value): (u: User)
    ensures u.accessToken == response.accessToken
    ensures response.profile.Some? ==>
              && u.id == Js.Str(response.profile.value.id) && u.email == Js.Str(response.profile.value.email)
              && u.firstName == response.profile.value.firstName && u.lastName == response.profile.value.lastName
    ensures response.profile.None? ==>
              u.id == Js.Undefined && u.email == Js.Undefined && u.firstName == Js.Undefined && u.lastName == Js.Undefined
    ensures u.displayName == DisplayName(if response.profile.Some? then response.profile.value.displayName else Js.Undefined,
                                         firstName, lastName, email)
  {
    match response.profile
    case Some(p) =>
      User(Js.Str(p.id), Js.Str(p.email), p.firstName, p.lastName,
           DisplayName(p.displayName, firstName, lastName, email), response.accessToken)
    case None =>
      User(Js.Undefined, Js.Undefined, Js.Undefined, Js.Undefined,
           DisplayName(Js.Undefined, firstName, lastName, email), response.accessToken)
  }

  /** A signup builds the same user as a login with the same answer, except for the display name. */
  lemma SignupUserIsLoginUserRenamed(response: LoginResult, email: string, firstName: Js.Value, lastName: Js.Value)
    ensures var u := SignupUser(response, email, firstName, lastName);
            u == LoginUser(response, email).(displayName := u.displayName)
  {
  }

  /** Signed in as `u`, with the modal closed and loading finished. */
  function SignedIn(prev: AuthState, u: User): (s: AuthState)
    ensures s.user == Some(u) && s.isAuthenticated && !s.isLoading && !s.isAuthModalOpen
  {
    prev.(user := Some(u), isAuthenticated := true, isLoading := false, isAuthModalOpen := false)
  }

  /** The mount effect: restore a saved user, drop an unreadable entry, finish loading. */
  function RestoreStep(s: Session): (next: Session)
    ensures !next.state.isLoading && next.state.isAuthModalOpen == s.state.isAuthModalOpen
    ensures StorageKey !in s.storage ==> next == Session(s.state.(isLoading := false), s.storage)
    ensures StorageKey in s.storage && s.storage[StorageKey].UserJson? ==>
              next == Session(s.state.(user := Some(s.storage[StorageKey].user), isAuthenticated := true, isLoading := false),
                              s.storage)
    ensures StorageKey in s.storage && s.storage[StorageKey].Foreign? && s.storage[StorageKey].text == "" ==>
              next == Session(s.state.(isLoading := false), s.storage)
    ensures StorageKey in s.storage && s.storage[StorageKey].Foreign? && s.storage[StorageKey].text != "" ==>
              match s.storage[StorageKey].parsed
              case ParsedUser(u) => next == Session(s.state.(user := Some(u), isAuthenticated := true, isLoading := false), s.storage)
              case ParsedNull => next == Session(s.state.(user := None, isAuthenticated := true, isLoading := false), s.storage)
              case Unparsable => next == Session(s.state.(isLoading := false), s.storage - {StorageKey})
    ensures next.state.isAuthenticated && !s.state.isAuthenticated ==>
              && StorageKey in s.storage
              && (next.state.user.Some? || (s.storage[StorageKey].Foreign? && s.storage[StorageKey].parsed == ParsedNull))
  {
    if StorageKey !in s.storage then Session(s.state.(isLoading := false), s.storage)
    else match s.storage[StorageKey]
      case UserJson(u) => Session(s.state.(user := Some(u), isAuthenticated := true, isLoading := false), s.storage)
      case Foreign(text, parsed) =>
        if text == "" then Session(s.state.(isLoading := false), s.storage)
        else match parsed
          case ParsedUser(u) => Session(s.state.(user := Some(u), isAuthenticated := true, isLoading := false), s.storage)
          case ParsedNull => Session(s.state.(user := None, isAuthenticated := true, isLoading := false), s.storage)
          case Unparsable => Session(s.state.(isLoading := false), s.storage - {StorageKey})
  }

  /** `login(email, password, rememberMe)` after the gateway answered with `result`. */
  function LoginStep(s: Session, email: string, rememberMe: bool, result: Result<LoginResult, string>): (next: Session)
    ensures result.Failure? ==> next == Session(s.state.(isLoading := false), s.storage)
    ensures result.Success? ==> next.state == SignedIn(s.state, LoginUser(result.value, email))
    ensures result.Success? && rememberMe ==> next.storage == s.storage[StorageKey := UserJson(LoginUser(result.value, email))]
    ensures !rememberMe ==> next.storage == s.storage
  {
    match result
    case Failure(_) => Session(s.state.(isLoading := false), s.storage)
    case Success(response) =>
      var u := LoginUser(response, email);
      Session(SignedIn(s.state, u), if rememberMe then s.storage[StorageKey := UserJson(u)] else s.storage)
  }

  /**
   * `signup(...)` after account creation answered `created` and the login that
   * follows it answered `login`; `login` is not consulted when creation failed.
   */
  function SignupStep(s: Session, email: string, firstName: Js.Value, lastName: Js.Value,
                      created: Result<Option<CreatedCustomer>, string>, login: Result<LoginResult, string>): (next: Session)
    ensures created.Failure? || login.Failure? ==> next == Session(s.state.(isLoading := false), s.storage)
    ensures created.Success? && login.Success? ==>
              var u := SignupUser(login.value, email, firstName, lastName);
              next == Session(SignedIn(s.state, u), s.storage[StorageKey := UserJson(u)])
  {
    if created.Failure? || login.Failure? then Session(s.state.(isLoading := false), s.storage)
    else
      var u := SignupUser(login.value, email, firstName, lastName);
      Session(SignedIn(s.state, u), s.storage[StorageKey := UserJson(u)])
  }

  /** The error `login` and `signup` rethrow. */
  function Thrown<T>(r: Result<T, string>): (err: Option<string>)
    ensures err.Some? <==> r.Failure?
    ensures r.Failure? ==> err.value == r.error
  {
    if r.Failure? then Some(r.error) else None
  }

  function LogoutStep(s: Session): (next: Session)
    ensures next.state == s.state.(user := None, isAuthenticated := false)
    ensures next.storage == s.storage - {StorageKey}
  {
    Session(s.state.(user := None, isAuthenticated := false), s.storage - {StorageKey})
  }

  /**
   * The session starts consistent, and login, signup, logout and restoring an
   * entry this context wrote keep it so.
   */
  lemma StepsKeepConsistent(s: Session, email: string, rememberMe: bool, firstName: Js.Value, lastName: Js.Value,
                            created: Result<Option<CreatedCustomer>, string>, login: Result<LoginResult, string>)
    requires Consistent(s.state)
    ensures Consistent(InitialAuthState)
    ensures Consistent(LoginStep(s, email, rememberMe, login).state)
    ensures Consistent(SignupStep(s, email, firstName, lastName, created, login).state)
    ensures Consistent(LogoutStep(s).state)
    ensures StorageKey !in s.storage || !s.storage[StorageKey].Foreign? || s.storage[StorageKey].parsed != ParsedNull ==>
              Consistent(RestoreStep(s).state)
  {
  }

  /**
   * A foreign entry that parses to `null` signs the page in without a user:
   * the restored state is authenticated while `user` is `null`.
   */
  lemma NullEntryAuthenticatesWithoutUser(s: Session, text: string)
    requires text != "" && s.storage == map[StorageKey := Foreign(text, ParsedNull)]
    ensures var next := RestoreStep(s).state;
            next.isAuthenticated && next.user.None? && !Consistent(next)
  {
  }

  /** A remembered login is restored, as the same user, by the next page load. */
  lemma RememberedLoginSurvivesReload(s: Session, email: string, response: LoginResult)
    ensures var after := LoginStep(s, email, true, Success(response));
      var reloaded := RestoreStep(Session(InitialAuthState, after.storage));
      && reloaded.state.user == after.state.user == Some(LoginUser(response, email))
      && reloaded.state.isAuthenticated && !reloaded.state.isLoading
  {
  }

  /**
   * A login without "remember me" leaves an older remembered user in storage,
   * so the next page load signs that older user back in.
   */
  lemma UnrememberedLoginRestoresOlderUser(s: Session, older: User, email: string, response: LoginResult)
    requires s.storage == map[StorageKey := UserJson(older)]
    ensures var after := LoginStep(s, email, false, Success(response));
      RestoreStep(Session(InitialAuthState, after.storage)).state.user == Some(older)
  {
  }

  /** A signup that completes is always remembered, and is restored by the next page load. */
  lemma SignupIsRemembered(s: Session, email: string, firstName: Js.Value, lastName: Js.Value,
                           created: Option<CreatedCustomer>, response: LoginResult)
    ensures var after := SignupStep(s, email, firstName, lastName, Success(created), Success(response));
      && after.state.isAuthenticated
      && RestoreStep(Session(InitialAuthState, after.storage)).state.user == after.state.user
  {
  }

  /** When account creation fails, what the login would have answered makes no difference. */
  lemma CreateFailureSkipsLogin(s: Session, email: string, firstName: Js.Value, lastName: Js.Value,
                                message: string, login1: Result<LoginResult, string>, login2: Result<LoginResult, string>)
    ensures SignupStep(s, email, firstName, lastName, Failure(message), login1)
         == SignupStep(s, email, firstName, lastName, Failure(message), login2)
  {
  }

  /** After logging out, the next page load starts signed out. */
  lemma LogoutIsFinal(s: Session)
    ensures var reloaded := RestoreStep(Session(InitialAuthState, LogoutStep(s).storage));
      reloaded.state.user.None? && !reloaded.state.isAuthenticated
  {
  }

  /** A failed login changes nothing but the loading flag. */
  lemma FailedLoginKeepsSession(s: Session, email: string, rememberMe: bool, message: string)
    ensures var after := LoginStep(s, email, rememberMe, Failure(message));
      after.storage == s.storage && after.state.user == s.state.user
      && after.state.isAuthenticated == s.state.isAuthenticated && after.state.isAuthModalOpen == s.state.isAuthModalOpen
  {
  }

  /** The browser's local storage, shared by everything on the page. */
  class BrowserStorage {
    var entries: map<string, StoredEntry>

    constructor (entries: map<string, StoredEntry>)
      ensures this.entries == entries
    {
      this.entries := entries;
    }
  }

  /** The context's state holder. */
  class AuthStore {
    var state: AuthState

    constructor ()
      ensures state == InitialAuthState
    {
      state := InitialAuthState;
    }

    /** The mount effect. */
    method Restore(storage: BrowserStorage)
      modifies this, storage
      ensures Session(state, storage.entries) == RestoreStep(Session(old(state), old(storage.entries)))
    {
      var next := RestoreStep(Session(state, storage.entries));
      state := next.state;
      storage.entries := next.storage;
    }

    /** `login(email, password, rememberMe)`; `err` is the error it rethrows. */
    method Login(api: StorefrontApi, email: string, password: string, rememberMe: bool,
                 tokenNet: Request<LoginInput> -> HttpResponse<TokenBody>,
                 profileNet: Request<string> -> HttpResponse<ProfileBody>,
                 storage: BrowserStorage)
      returns (err: Option<string>)
      modifies this, storage
      ensures var result := api.CustomerLogin(email, password, tokenNet, profileNet);
        && Session(state, storage.entries) == LoginStep(Session(old(state), old(storage.entries)), email, rememberMe, result)
        && err == Thrown(result)
    {
      state := state.(isLoading := true);
      var result := api.CustomerLogin(email, password, tokenNet, profileNet);
      match result
      case Failure(m) =>
        state := state.(isLoading := false);
        err := Some(m);
      case Success(response) =>
        var u := LoginUser(response, email);
        state := SignedIn(state, u);
        if rememberMe {
          storage.entries := storage.entries[StorageKey := UserJson(u)];
        }
        err := None;
    }

    /** `signup(email, password, firstName, lastName, acceptsEmailMarketing)`; `err` is the error it rethrows. */
    method Signup(api: StorefrontApi, email: string, password: string,
                  firstName: Js.Value, lastName: Js.Value, acceptsEmailMarketing: Js.Value,
                  createNet: Request<CustomerCreateInput> -> HttpResponse<CreateBody>,
                  tokenNet: Request<LoginInput> -> HttpResponse<TokenBody>,
                  profileNet: Request<string> -> HttpResponse<ProfileBody>,
                  storage: BrowserStorage)
      returns (err: Option<string>)
      modifies this, storage
      ensures var created := api.CreateCustomerAccount(email, password, firstName, lastName, acceptsEmailMarketing, createNet);
        var login := api.CustomerLogin(email, password, tokenNet, profileNet);
        && Session(state, storage.entries)
           == SignupStep(Session(old(state), old(storage.entries)), email, firstName, lastName, created, login)
        && err == (if created.Failure? then Thrown(created) else Thrown(login))
    {
      ghost var s0 := Session(state, storage.entries);
      state := state.(isLoading := true);
      var created := api.CreateCustomerAccount(email, password, firstName, lastName, acceptsEmailMarketing, createNet);
      ghost var next := SignupStep(s0, email, firstName, lastName, created, api.CustomerLogin(email, password, tokenNet, profileNet));
      if created.Failure? {
        state := state.(isLoading := false);
        assert Session(state, storage.entries) == next;
        return Some(created.error);
      }
      var login := api.CustomerLogin(email, password, tokenNet, profileNet);
      match login
      case Failure(m) =>
        state := state.(isLoading := false);
        err := Some(m);
        assert Session(state, storage.entries) == next;
      case Success(response) =>
        var u := SignupUser(response, email, firstName, lastName);
        state := SignedIn(state, u);
        storage.entries := storage.entries[StorageKey := UserJson(u)];
        err := None;
        assert Session(state, storage.entries) == next;
    }

    method Logout(storage: BrowserStorage)
      modifies this, storage
      ensures Session(state, storage.entries) == LogoutStep(Session(old(state), old(storage.entries)))
    {
      state := state.(user := None, isAuthenticated := false);
      storage.entries := storage.entries - {StorageKey};
    }

    method OpenAuthModal()
      modifies this
      ensures state == old(state).(isAuthModalOpen := true)
    {
      state := state.(isAuthModalOpen := true);
    }

    method CloseAuthModal()
      modifies this
      ensures state == old(state).(isAuthModalOpen := false)
    {
      state := state.(isAuthModalOpen := false);
    }
  }
}
