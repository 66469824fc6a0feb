/**
 * The route guard (authGuard): allow navigation, or redirect to the login
 * page carrying the requested URL as `returnUrl`; and the serialised form
 * of that redirect, whose query value is percent-encoded.
 */
module Guard {
  import opened Wrappers
  import Session

  const LOGIN_PATH := "/auth/login"
  const RETURN_URL := "returnUrl"

  /** The route paths declared with the guard. */
  const GUARDED_PATHS: set<string> := {"setup", "dashboard"}

  datatype UrlTree = UrlTree(path: string, queryParams: seq<(string, string)>)

  datatype GuardResult = Allow | Redirect(tree: UrlTree)

  /** The guard's decision on one snapshot of the authenticated flag, for the requested URL `url`. */
  function AuthGuard(isAuthenticated: bool, url: string): (r: GuardResult)
    ensures r.Allow? <==> isAuthenticated
    ensures r.Redirect? ==> r.tree.path == LOGIN_PATH && r.tree.queryParams == [(RETURN_URL, url)]
  {
    if isAuthenticated then Allow else Redirect(UrlTree(LOGIN_PATH, [(RETURN_URL, url)]))
  }

  /** The guard as installed: it takes the service's current flag once and reads nothing else. */
  function CanActivate(auth: Session.AuthService, url: string): (r: GuardResult)
    reads auth
    ensures r.Allow? <==> auth.isAuthenticated
    ensures r.Redirect? ==> r.tree == UrlTree(LOGIN_PATH, [(RETURN_URL, url)])
  {
    AuthGuard(auth.isAuthenticated, url)
  }

  /** Entering route `path`: guarded paths consult the guard, the others are allowed. */
  function Activate(path: string, isAuthenticated: bool, url: string): (r: GuardResult)
    ensures path !in GUARDED_PATHS ==> r.Allow?
    ensures path in GUARDED_PATHS ==> r == AuthGuard(isAuthenticated, url)
  {
    if path in GUARDED_PATHS then AuthGuard(isAuthenticated, url) else Allow
  }

  /** Percent-encoding of the characters that have a meaning in a URL query. */
  function EncodeChar(c: char): string
  {
    match c
    case '/' => "%2F"
    case '%' => "%25"
    case '?' => "%3F"
    case '&' => "%26"
    case '=' => "%3D"
    case '#' => "%23"
    case ' ' => "%20"
    case '+' => "%2B"
    case _ => [c]
  }

  /** The character a two-digit escape stands for, if it is one EncodeChar writes. */
  function DecodeEscape(h1: char, h2: char): Option<char>
  {
    match [h1, h2]
    case "2F" => Some('/')
    case "25" => Some('%')
    case "3F" => Some('?')
    case "26" => Some('&')
    case "3D" => Some('=')
    case "23" => Some('#')
    case "20" => Some(' ')
    case "2B" => Some('+')
    case _ => None
  }

  function PercentEncode(s: string): string
  {
    if s == [] then [] else EncodeChar(s[0]) + PercentEncode(s[1..])
  }

  function PercentDecode(t: string): Option<string>
  {
    if t == [] then Some([])
    else if t[0] == '%' then
      if |t| < 3 then None
      else
        match (DecodeEscape(t[1], t[2]), PercentDecode(t[3..]))
        case (Some(c), Some(rest)) => Some([c] + rest)
        case _ => None
    else
      match PercentDecode(t[1..])
      case Some(rest) => Some([t[0]] + rest)
      case None => None
  }

  /** `path?key=value&...` with each key and value percent-encoded. */
  function SerializeUrl(tree: UrlTree): string
  {
    tree.path + (if tree.queryParams == [] then "" else "?" + QueryText(tree.queryParams))
  }

  function QueryText(ps: seq<(string, string)>): string
    requires ps != []
  {
    var p := PercentEncode(ps[0].0) + "=" + PercentEncode(ps[0].1);
    if |ps| == 1 then p else p + "&" + QueryText(ps[1..])
  }

  /** The requested URL a serialised login redirect carries, if `t` is one. */
  function ReturnUrlOf(t: string): Option<string>
  {
    var prefix := LOGIN_PATH + "?" + RETURN_URL + "=";
    if |t| >= |prefix| && t[..|prefix|] == prefix then PercentDecode(t[|prefix|..]) else None
  }

  lemma {:induction false} EncodeDecodeChar(c: char, rest: string)
    ensures PercentDecode(EncodeChar(c) + rest) == match PercentDecode(rest)
      case Some(r) => Some([c] + r)
      case None => None
  {
    var e := EncodeChar(c);
    if |e| == 3 {
      assert (e + rest)[3..] == rest;
      assert DecodeEscape(e[1], e[2]) == Some(c);
    } else {
      assert (e + rest)[1..] == rest;
    }
  }

  /** Decoding undoes percent-encoding. */
  lemma {:induction false} DecodeEncode(s: string)
    ensures PercentDecode(PercentEncode(s)) == Some(s)
  {
    if s != [] {
      DecodeEncode(s[1..]);
      EncodeDecodeChar(s[0], PercentEncode(s[1..]));
      assert [s[0]] + s[1..] == s;
    }
  }

  /** An encoded value contains no `/`, `?`, `&`, `=` or `#`, so it cannot be read as more of the URL. */
  lemma {:induction false} EncodedHasNoDelimiter(s: string)
    ensures forall i :: 0 <= i < |PercentEncode(s)| ==> PercentEncode(s)[i] !in "/?&=#"
  {
    if s != [] {
      EncodedHasNoDelimiter(s[1..]);
      var e := EncodeChar(s[0]);
      var t := PercentEncode(s[1..]);
      assert PercentEncode(s) == e + t;
      forall i | 0 <= i < |e + t| ensures (e + t)[i] !in "/?&=#" {
        if i >= |e| {
          assert (e + t)[i] == t[i - |e|];
        }
      }
    }
  }

  /** Whether EncodeChar leaves `c` as it is. */
  predicate Unreserved(c: char)
  {
    c !in "/%?&=# +"
  }

  /** Text without reserved characters encodes to itself. */
  lemma {:induction false} EncodeUnreserved(s: string)
    requires forall i :: 0 <= i < |s| ==> Unreserved(s[i])
    ensures PercentEncode(s) == s
  {
    if s != [] {
      EncodeUnreserved(s[1..]);
      assert [s[0]] + s[1..] == s;
    }
  }

  lemma QueryOfRedirect(url: string)
    ensures QueryText([(RETURN_URL, url)]) == RETURN_URL + "=" + PercentEncode(url)
  {
    EncodeUnreserved(RETURN_URL);
  }

  // LiteralPrefix and SetupRedirectText only state string-literal equalities; keeping them apart keeps
  // the lemmas that use them cheap for the solver.
  lemma LiteralPrefix(e: string)
    ensures LOGIN_PATH + "?" + (RETURN_URL + "=" + e) == LOGIN_PATH + "?returnUrl=" + e
  {
  }

  lemma SerializedRedirect(url: string)
    ensures SerializeUrl(AuthGuard(false, url).tree) == LOGIN_PATH + "?returnUrl=" + PercentEncode(url)
  {
    QueryOfRedirect(url);
    LiteralPrefix(PercentEncode(url));
  }

  lemma ReadReturnUrl(e: string)
    ensures ReturnUrlOf(LOGIN_PATH + "?returnUrl=" + e) == PercentDecode(e)
  {
    var prefix := LOGIN_PATH + "?" + RETURN_URL + "=";
    var t := LOGIN_PATH + "?returnUrl=" + e;
    assert t == prefix + e;
    assert t[..|prefix|] == prefix && t[|prefix|..] == e;
  }

  /** The serialised redirect is `/auth/login?returnUrl=` and the encoded URL, and reading it back gives the URL. */
  lemma RedirectRoundTrip(url: string)
    ensures SerializeUrl(AuthGuard(false, url).tree) == LOGIN_PATH + "?returnUrl=" + PercentEncode(url)
    ensures ReturnUrlOf(SerializeUrl(AuthGuard(false, url).tree)) == Some(url)
  {
    SerializedRedirect(url);
    ReadReturnUrl(PercentEncode(url));
    DecodeEncode(url);
  }

  lemma RedirectWithEncoding(url: string, e: string)
    requires PercentEncode(url) == e
    ensures SerializeUrl(AuthGuard(false, url).tree) == LOGIN_PATH + "?returnUrl=" + e
  {
    SerializedRedirect(url);
  }

  lemma SetupRedirectText()
    ensures LOGIN_PATH + "?returnUrl=" + "%2Fsetup" == "/auth/login?returnUrl=%2Fsetup"
  {
  }

  lemma EncodeSetup()
    ensures PercentEncode("/setup") == "%2Fsetup"
  {
    var s := "/setup";
    EncodeUnreserved(s[1..]);
    assert s[1..] == "setup";
  }

  /** The redirect for the setup page, as the end-to-end tests expect it. */
  lemma RedirectForSetup()
    ensures SerializeUrl(AuthGuard(false, "/setup").tree) == "/auth/login?returnUrl=%2Fsetup"
  {
    EncodeSetup();
    RedirectWithEncoding("/setup", "%2Fsetup");
    SetupRedirectText();
  }

  /** With empty storage every guarded page redirects to the login page, carrying the page's URL. */
  lemma EmptyStorageRedirects(path: string)
    requires path in GUARDED_PATHS
    ensures Activate(path, Session.Restored(map[]).authenticated, "/" + path)
      == Redirect(UrlTree(LOGIN_PATH, [(RETURN_URL, "/" + path)]))
  {
  }
}
