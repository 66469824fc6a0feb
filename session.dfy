/**
 * The session store (AuthService): the current user and the authenticated
 * flag in memory, mirrored in two local-storage entries. `Restored`,
 * `Saved` and `Cleared` say what loading, saving and clearing produce; the
 * class performs them step by step and is proved to match them.
 */
module Session {
  import opened Wrappers
  import Json
  import opened Platform

  const TOKEN_KEY := "auth_token"
  const USER_KEY := "current_user"

  /**
   * The user object held in memory. Any property may be `undefined`
   * (`None`): a login response is cast, not checked, and a stored payload
   * may lack a member.
   */
  datatype CurrentUser = CurrentUser(userId: Option<string>, userName: Option<string>, token: Option<string>)

  /** Local storage, the current user and the authenticated flag. */
  datatype SessionState = SessionState(storage: map<string, string>, user: Option<CurrentUser>, authenticated: bool)

  /** The store's invariant: authenticated exactly when a user is present. */
  predicate Inv(s: SessionState)
  {
    s.authenticated == s.user.Some?
  }

  /** `a` and `b` agree on every local-storage key except the store's two. */
  ghost predicate AgreeOutside(a: map<string, string>, b: map<string, string>)
  {
    forall k :: k != TOKEN_KEY && k != USER_KEY ==>
      (k in a <==> k in b) && (k in a ==> a[k] == b[k])
  }

  /** Both entries are present and non-empty, so loading tries to parse the user. */
  predicate HasRecord(st: map<string, string>)
  {
    TOKEN_KEY in st && st[TOKEN_KEY] != "" && USER_KEY in st && st[USER_KEY] != ""
  }

  /**
   * `{ ...user, token }`: the parsed payload's properties with `token` then
   * written over them, read back as the user's three properties.
   */
  function Spread(obj: Json.JsObject, token: string): (u: CurrentUser)
    ensures u.userId == Json.Get(obj, "userId") && u.userName == Json.Get(obj, "userName")
    ensures u.token == Some(token)
  {
    var merged := obj["token" := token];
    CurrentUser(Json.Get(merged, "userId"), Json.Get(merged, "userName"), Json.Get(merged, "token"))
  }

  /** The members JSON.stringify writes for `{ userId, userName }`: undefined ones are dropped. */
  function UserMembers(u: CurrentUser): seq<Json.Member>
  {
    (if u.userId.Some? then [Json.Member("userId", u.userId.value)] else [])
    + (if u.userName.Some? then [Json.Member("userName", u.userName.value)] else [])
  }

  /** The text stored under `current_user`. */
  function UserRecordText(u: CurrentUser): string
  {
    Json.Serialize(UserMembers(u))
  }

  /** The state after clearSession: both entries gone, no user, not authenticated. */
  function Cleared(s: SessionState): (r: SessionState)
    ensures Inv(r) && r.user.None?
    ensures TOKEN_KEY !in r.storage && USER_KEY !in r.storage
    ensures AgreeOutside(s.storage, r.storage)
  {
    SessionState(s.storage - {TOKEN_KEY, USER_KEY}, None, false)
  }

  /** The state after saveSession(u). */
  function Saved(s: SessionState, u: CurrentUser): (r: SessionState)
    ensures Inv(r) && r.user == Some(u)
    ensures TOKEN_KEY in r.storage && r.storage[TOKEN_KEY] == JsString(u.token)
    ensures USER_KEY in r.storage && r.storage[USER_KEY] == UserRecordText(u)
    ensures AgreeOutside(s.storage, r.storage)
  {
    SessionState(s.storage[TOKEN_KEY := JsString(u.token)][USER_KEY := UserRecordText(u)], Some(u), true)
  }

  /** The state after loading from local storage `st` at construction. */
  function Restored(st: map<string, string>): (r: SessionState)
    ensures Inv(r)
    ensures r.authenticated <==> HasRecord(st) && Json.Parse(st[USER_KEY]).Some?
    ensures r.authenticated ==>
      r.storage == st && r.user == Some(Spread(Json.Parse(st[USER_KEY]).value, st[TOKEN_KEY]))
    ensures !r.authenticated ==> r == Cleared(SessionState(st, None, false))
  {
    if HasRecord(st) then
      match Json.Parse(st[USER_KEY])
      case Some(obj) => SessionState(st, Some(Spread(obj, st[TOKEN_KEY])), true)
      case None => Cleared(SessionState(st, None, false))
    else
      Cleared(SessionState(st, None, false))
  }

  /** `currentUser?.token || null`. */
  function TokenOf(user: Option<CurrentUser>): (r: Option<string>)
    ensures r.Some? <==> user.Some? && Truthy(user.value.token)
    ensures r.Some? ==> user.value.token == r
  {
    if user.Some? && Truthy(user.value.token) then user.value.token else None
  }

  /** The object UserMembers denotes holds exactly u's defined userId and userName. */
  lemma UserObject(u: CurrentUser)
    ensures Json.Get(Json.ToObject(UserMembers(u)), "userId") == u.userId
    ensures Json.Get(Json.ToObject(UserMembers(u)), "userName") == u.userName
    ensures "token" !in Json.ToObject(UserMembers(u))
  {
    var ms := UserMembers(u);
    if u.userId.Some? && u.userName.Some? {
      assert ms[..1] == [Json.Member("userId", u.userId.value)];
      assert Json.ToObject(ms) == map["userId" := u.userId.value, "userName" := u.userName.value];
    } else if u.userId.Some? {
      assert Json.ToObject(ms) == map["userId" := u.userId.value];
    } else if u.userName.Some? {
      assert Json.ToObject(ms) == map["userName" := u.userName.value];
    }
  }

  /** The object `current_user` holds after saving `u` has exactly u's defined userId and userName. */
  lemma StoredUserPayload(u: CurrentUser)
    ensures Json.Parse(UserRecordText(u)) == Some(Json.ToObject(UserMembers(u)))
    ensures Json.Get(Json.ToObject(UserMembers(u)), "userId") == u.userId
    ensures Json.Get(Json.ToObject(UserMembers(u)), "userName") == u.userName
    ensures "token" !in Json.ToObject(UserMembers(u))
  {
    Json.SerializeRoundTrip(UserMembers(u));
    UserObject(u);
  }

  /** Saving a user with a non-empty token and reloading gives back the same session. */
  lemma SaveRestoreRoundTrip(s: SessionState, u: CurrentUser)
    requires Truthy(u.token)
    ensures Restored(Saved(s, u).storage) == Saved(s, u)
  {
    StoredUserPayload(u);
  }

  /** A saved user without a token reloads authenticated with the token "undefined", the text setItem stored. */
  lemma SaveWithoutTokenReloadsUndefined(s: SessionState, u: CurrentUser)
    requires u.token.None?
    ensures TokenOf(Some(u)).None?
    ensures Restored(Saved(s, u).storage).authenticated
    ensures TokenOf(Restored(Saved(s, u).storage).user) == Some("undefined")
  {
    StoredUserPayload(u);
  }

  /** A saved user whose token is empty is not restored on reload. */
  lemma SaveEmptyTokenNotRestored(s: SessionState, u: CurrentUser)
    requires u.token == Some("")
    ensures !Restored(Saved(s, u).storage).authenticated
    ensures Restored(Saved(s, u).storage).user.None?
  {
  }

  /** Clearing and reloading gives an empty, unauthenticated session. */
  lemma ClearRestoreRoundTrip(s: SessionState)
    ensures Restored(Cleared(s).storage) == Cleared(s)
  {
  }

  /** Loading twice (a second reload) changes nothing more. */
  lemma RestoreIdempotent(st: map<string, string>)
    ensures Restored(Restored(st).storage) == Restored(st)
  {
  }

  /** After a successful load the in-memory token is the stored `auth_token`, whatever the payload said. */
  lemma RestoredTokenIsStoredToken(st: map<string, string>)
    requires Restored(st).authenticated
    ensures TokenOf(Restored(st).user) == Some(st[TOKEN_KEY])
  {
  }

  /**
   * A stored `current_user` whose first value holds a raw control character
   * (a tab typed into the record, say) is a JSON.parse error: the session is cleared.
   */
  lemma RawControlInUserClears(st: map<string, string>, k: string, v: string, c: char, rest: string)
    requires HasRecord(st) && c < ' '
    requires st[USER_KEY] == "{" + (Json.Quote(k) + ":" + "\"" + Json.Escape(v) + [c] + rest)
    ensures !Restored(st).authenticated && Restored(st).user.None?
    ensures Restored(st) == Cleared(SessionState(st, None, false))
  {
    Json.RawControlRejected(k, v, c, rest);
  }

  /**
   * A stored `current_user` of `{"userName":...}` whose name opens with a
   * character beyond the 16-bit range, written as its surrogate-pair escape
   * (`\ud83d\ude00` for U+1F600), restores that user with the decoded name.
   */
  lemma PairEscapedNameRestores(st: map<string, string>, c: char, s: string)
    requires HasRecord(st) && 0x10000 <= c as int
    requires st[USER_KEY] == "{" + (Json.Quote("userName") + ":" + ("\"" + (Json.PairEscape(c) + Json.Escape(s)) + "\"") + "}")
    ensures Restored(st).authenticated
    ensures Restored(st).user == Some(CurrentUser(None, Some([c] + s), Some(st[TOKEN_KEY])))
  {
    Json.ParsePairValue("userName", c, s);
  }

  class AuthService {
    const router: Router
    var storage: map<string, string>
    var currentUser: Option<CurrentUser>
    var isAuthenticated: bool

    function State(): SessionState
      reads this
    {
      SessionState(storage, currentUser, isAuthenticated)
    }

    /** The service is created once at start-up and loads the session from `localStorage`. */
    constructor(localStorage: map<string, string>, router: Router)
      ensures this.router == router
      ensures State() == Restored(localStorage)
    {
      this.router := router;
      storage := localStorage;
      currentUser := None;
      isAuthenticated := false;
      new;
      LoadUserFromLocalStorage();
    }

    method LoadUserFromLocalStorage()
      modifies this
      ensures State() == Restored(old(storage))
    {
      var token := Json.Get(storage, TOKEN_KEY);
      var userString := Json.Get(storage, USER_KEY);
      if Truthy(token) && Truthy(userString) {
        var user := Json.Parse(userString.value);
        if user.Some? {
          currentUser := Some(Spread(user.value, token.value));
          isAuthenticated := true;
        } else {
          ClearSession();
        }
      } else {
        ClearSession();
      }
    }

    method SaveSession(user: CurrentUser)
      modifies this
      ensures State() == Saved(old(State()), user)
    {
      storage := storage[TOKEN_KEY := JsString(user.token)];
      storage := storage[USER_KEY := UserRecordText(user)];
      currentUser := Some(user);
      isAuthenticated := true;
    }

    method ClearSession()
      modifies this
      ensures State() == Cleared(old(State()))
    {
      storage := storage - {TOKEN_KEY};
      storage := storage - {USER_KEY};
      currentUser := None;
      isAuthenticated := false;
    }

    /** The outcome handling shared by register and login. */
    method CompleteAuthRequest(response: ApiResult<CurrentUser>) returns (r: ApiResult<CurrentUser>)
      modifies this
      ensures r == response
      ensures State() == if response.Ok? then Saved(old(State()), response.body) else Cleared(old(State()))
    {
      if response.Ok? {
        SaveSession(response.body);
      } else {
        ClearSession();
      }
      r := response;
    }

    /** register(request): `response` is the outcome of the register call; a failure is passed on unchanged. */
    method Register(response: ApiResult<CurrentUser>) returns (r: ApiResult<CurrentUser>)
      modifies this
      ensures r == response
      ensures State() == if response.Ok? then Saved(old(State()), response.body) else Cleared(old(State()))
    {
      r := CompleteAuthRequest(response);
    }

    /** login(request): `response` is the outcome of the login call; a failure is passed on unchanged. */
    method Login(response: ApiResult<CurrentUser>) returns (r: ApiResult<CurrentUser>)
      modifies this
      ensures r == response
      ensures State() == if response.Ok? then Saved(old(State()), response.body) else Cleared(old(State()))
    {
      r := CompleteAuthRequest(response);
    }

    method Logout()
      modifies this, router
      ensures State() == Cleared(old(State()))
      ensures router.log == old(router.log) + ["/auth"]
    {
      ClearSession();
      router.Navigate("/auth");
    }

    /** The in-memory token, or `None` when there is no user or the token is empty. */
    function GetToken(): (r: Option<string>)
      reads this
      ensures r.Some? ==> r.value != "" && currentUser.Some? && currentUser.value.token == r
      ensures currentUser.Some? && Truthy(currentUser.value.token) ==> r == currentUser.value.token
    {
      TokenOf(currentUser)
    }
  }
}
