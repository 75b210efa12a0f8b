/**
 * The client's session store (`AuthProvider`): the cookie lookup behind the
 * CSRF header, the choice of the API base URL, and the `user`/`loading` state
 * driven by `checkAuth`, `login`, `register` and `logout`.  Each call to the
 * backend is replaced by its outcome, handed in as a parameter; the methods
 * return the URL and the body they would send.
 */
module AuthContext {
  import opened Wrappers
  import opened Text
  import opened Js

  // ---------------------------------------------------------------------------
  // getCookie

  /** `s.substring(start, end)` for 0 <= start <= end: both ends are clamped to the length. */
  function Substring(s: string, start: nat, end: nat): (r: string)
    requires start <= end
    ensures |r| <= |s|
  {
    var a := if start < |s| then start else |s|;
    var b := if end < |s| then end else |s|;
    s[a..b]
  }

  /** The test `cookie.substring(0, name.length + 1) === name + '='` is a prefix test. */
  lemma PrefixTest(cookie: string, name: string)
    ensures Substring(cookie, 0, |name| + 1) == name + "=" <==> StartsWith(cookie, name + "=")
  {
  }

  /** The first trimmed piece that begins with `name=`, its remainder decoded. */
  function FirstCookie(pieces: seq<string>, name: string, decode: string -> string): Option<string>
    decreases |pieces|
  {
    if pieces == [] then None
    else
      var c := Trim(pieces[0], JsSpace);
      if StartsWith(c, name + "=") then Some(decode(c[|name| + 1..]))
      else FirstCookie(pieces[1..], name, decode)
  }

  /**
   * `getCookie(name)` on the cookie string `cookies`: null for an empty
   * string, else the first match among its `;`-separated pieces.
   * `decode` stands for `decodeURIComponent`.
   */
  function CookieValue(cookies: string, name: string, decode: string -> string): Option<string> {
    if cookies == "" then None else FirstCookie(Split(cookies, ';'), name, decode)
  }

  /** One round of the loop of `getCookie`: the i-th piece matches, or the search goes on. */
  lemma FirstCookieStep(pieces: seq<string>, i: nat, name: string, decode: string -> string)
    requires i < |pieces|
    ensures var c := Trim(pieces[i], JsSpace);
            FirstCookie(pieces[i..], name, decode)
            == if StartsWith(c, name + "=") then Some(decode(c[|name| + 1..])) else FirstCookie(pieces[i + 1..], name, decode)
  {
    assert pieces[i..][0] == pieces[i];
    assert pieces[i..][1..] == pieces[i + 1..];
  }

  /** `getCookie`, with its loop and its `break`. */
  method GetCookie(cookies: string, name: string, decode: string -> string) returns (cookieValue: Option<string>)
    ensures cookieValue == CookieValue(cookies, name, decode)
  {
    cookieValue := None;
    if cookies != "" {
      var pieces := Split(cookies, ';');
      var i := 0;
      while i < |pieces|
        invariant 0 <= i <= |pieces|
        invariant cookieValue == None
        invariant FirstCookie(pieces[i..], name, decode) == CookieValue(cookies, name, decode)
      {
        var cookie := Trim(pieces[i], JsSpace);
        PrefixTest(cookie, name);
        FirstCookieStep(pieces, i, name, decode);
        if Substring(cookie, 0, |name| + 1) == name + "=" {
          assert Substring(cookie, |name| + 1, |cookie|) == cookie[|name| + 1..];
          cookieValue := Some(decode(Substring(cookie, |name| + 1, |cookie|)));
          break;
        }
        i := i + 1;
      }
    }
  }

  /** The value found is that of the first piece whose trimmed text begins with `name=`. */
  lemma {:induction false} CookieFound(pieces: seq<string>, name: string, decode: string -> string, k: nat)
    requires k < |pieces| && StartsWith(Trim(pieces[k], JsSpace), name + "=")
    requires forall j :: 0 <= j < k ==> !StartsWith(Trim(pieces[j], JsSpace), name + "=")
    ensures FirstCookie(pieces, name, decode) == Some(decode(Trim(pieces[k], JsSpace)[|name| + 1..]))
    decreases k
  {
    if k > 0 {
      CookieFound(pieces[1..], name, decode, k - 1);
    }
  }

  /** Without a piece that begins with `name=` there is no value, and conversely. */
  lemma {:induction false} CookieAbsent(pieces: seq<string>, name: string, decode: string -> string)
    ensures FirstCookie(pieces, name, decode) == None
            <==> forall j :: 0 <= j < |pieces| ==> !StartsWith(Trim(pieces[j], JsSpace), name + "=")
    decreases |pieces|
  {
    if pieces != [] {
      CookieAbsent(pieces[1..], name, decode);
      assert forall j :: 1 <= j < |pieces| ==> pieces[j] == pieces[1..][j - 1];
    }
  }

  /** A cookie whose name only extends `name` (such as `csrftoken2`) is not a match for it. */
  lemma LongerNameDoesNotMatch(name: string, ext: string, v: string)
    requires ext != [] && ext[0] != '='
    ensures !StartsWith(name + ext + "=" + v, name + "=")
  {
    assert (name + ext + "=" + v)[|name|] == ext[0];
  }

  /**
   * In `<name><ext>=v; <name>=w` (the browser's `; ` separated format) the
   * lookup of `name` skips the cookie whose name only extends it, such as
   * `csrftoken2`, and finds w.
   */
  lemma LongerNameSkipped(name: string, ext: string, v: string, w: string, decode: string -> string)
    requires name != [] && !JsSpace(name[0]) && ';' !in name
    requires ext != [] && ext[0] != '=' && ';' !in ext
    requires v != [] && !JsSpace(v[|v| - 1]) && ';' !in v
    requires w != [] && !JsSpace(w[|w| - 1]) && ';' !in w
    ensures CookieValue(name + ext + "=" + v + "; " + name + "=" + w, name, decode) == Some(decode(w))
  {
    var first, second := name + ext + "=" + v, name + "=" + w;
    TwoCookies(first, second);
    assert first + "; " + second == name + ext + "=" + v + "; " + name + "=" + w;
    LongerNameSkippedPieces(name, ext, v, w, decode);
  }

  /** Splitting `a; b` on ';' when neither part holds a ';'. */
  lemma TwoCookies(a: string, b: string)
    requires ';' !in a && ';' !in b
    ensures Split(a + "; " + b, ';') == [a, " " + b]
  {
    var pieces := [a, " " + b];
    assert Join(pieces, ';') == a + "; " + b by {
      assert Join(pieces[1..], ';') == " " + b;
    }
    assert ';' !in " " + b;
    SplitJoin(pieces, ';');
  }

  lemma LongerNameSkippedPieces(name: string, ext: string, v: string, w: string, decode: string -> string)
    requires name != [] && !JsSpace(name[0])
    requires ext != [] && ext[0] != '='
    requires v != [] && !JsSpace(v[|v| - 1])
    requires w != [] && !JsSpace(w[|w| - 1])
    ensures FirstCookie([name + ext + "=" + v, " " + (name + "=" + w)], name, decode) == Some(decode(w))
  {
    LongerCookieTrimmed(name, ext, v);
    MatchingCookieTrimmed(name, w);
    FirstCookieOfTwo(name + ext + "=" + v, " " + (name + "=" + w), name, decode);
  }

  lemma LongerCookieTrimmed(name: string, ext: string, v: string)
    requires name != [] && !JsSpace(name[0])
    requires ext != [] && ext[0] != '='
    requires v != [] && !JsSpace(v[|v| - 1])
    ensures Trim(name + ext + "=" + v, JsSpace) == name + ext + "=" + v
    ensures !StartsWith(name + ext + "=" + v, name + "=")
  {
    TrimUnchanged(name + ext + "=" + v, JsSpace);
    LongerNameDoesNotMatch(name, ext, v);
  }

  lemma MatchingCookieTrimmed(name: string, w: string)
    requires name != [] && !JsSpace(name[0])
    requires w != [] && !JsSpace(w[|w| - 1])
    ensures Trim(" " + (name + "=" + w), JsSpace) == name + "=" + w
    ensures StartsWith(name + "=" + w, name + "=")
    ensures (name + "=" + w)[|name| + 1..] == w
  {
    var second := name + "=" + w;
    TrimOneLeading(" " + second, JsSpace);
    assert (" " + second)[1..] == second;
    assert second[..|name| + 1] == name + "=";
  }

  lemma FirstCookieOfTwo(p0: string, p1: string, name: string, decode: string -> string)
    requires !StartsWith(Trim(p0, JsSpace), name + "=") && StartsWith(Trim(p1, JsSpace), name + "=")
    ensures FirstCookie([p0, p1], name, decode) == Some(decode(Trim(p1, JsSpace)[|name| + 1..]))
  {
    var t := [p0, p1][1..];
    assert t == [p1];
    assert FirstCookie(t, name, decode) == Some(decode(Trim(p1, JsSpace)[|name| + 1..]));
  }

  // ---------------------------------------------------------------------------
  // The request interceptor and the base URL

  const CsrfCookie: string := "csrftoken"
  const CsrfHeader: string := "X-CSRFToken"

  /**
   * The headers after the interceptor: `X-CSRFToken` is set to the token when
   * the token is truthy, and the request is otherwise left as it was.
   */
  function Intercepted(headers: map<string, string>, token: Option<string>): (r: map<string, string>)
    ensures TruthyText(token) ==> CsrfHeader in r && r[CsrfHeader] == token.value
    ensures forall h :: h != CsrfHeader ==> (h in r <==> h in headers) && (h in r ==> r[h] == headers[h])
    ensures !TruthyText(token) ==> r == headers
  {
    if TruthyText(token) then headers[CsrfHeader := token.value] else headers
  }

  /** The interceptor applied to a request, with the token read from the cookie string. */
  function RequestHeaders(headers: map<string, string>, cookies: string, decode: string -> string): map<string, string> {
    Intercepted(headers, CookieValue(cookies, CsrfCookie, decode))
  }

  /** A request that had no `X-CSRFToken` gets one exactly when the cookie lookup is truthy. */
  lemma CsrfHeaderIff(headers: map<string, string>, cookies: string, decode: string -> string)
    requires CsrfHeader !in headers
    ensures CsrfHeader in RequestHeaders(headers, cookies, decode) <==> TruthyText(CookieValue(cookies, CsrfCookie, decode))
  {
  }

  const LocalBackend: string := "http://127.0.0.1:8000"

  /** `API_URL`: the local backend when the page is served from this machine, else `/api`. */
  function ApiUrl(hostname: string): (r: string)
    ensures r == LocalBackend <==> hostname == "localhost" || hostname == "127.0.0.1"
    ensures r != LocalBackend ==> r == "/api"
  {
    if hostname == "localhost" || hostname == "127.0.0.1" then LocalBackend else "/api"
  }

  // ---------------------------------------------------------------------------
  // The session store

  /** The user object as the backend returns it. */
  type User = map<string, string>

  /** The body of `GET /auth/check/`. */
  datatype CheckReply = CheckReply(isAuthenticated: bool, user: Option<User>)

  /** What `login` and `register` resolve to. */
  datatype AuthResult = Succeeded | Refused(error: string)

  /** The message of a failed login or registration: the backend's `error`, else the default. */
  function RefusalMessage(error: Option<string>, default: string): (m: string)
    requires default != ""
    ensures m != ""
    ensures TruthyText(error) ==> m == error.value
    ensures !TruthyText(error) ==> m == default
  {
    OrElse(error, default)
  }

  class AuthSession {
    var user: Option<User>
    var loading: bool
    const apiUrl: string

    /** The children are rendered only once `loading` is false. */
    predicate RendersChildren()
      reads this
    {
      !loading
    }

    /** The initial state: no user, loading, nothing rendered. */
    constructor(hostname: string)
      ensures user == None && loading && apiUrl == ApiUrl(hostname)
      ensures !RendersChildren()
    {
      user := None;
      loading := true;
      apiUrl := ApiUrl(hostname);
    }

    /**
     * `checkAuth`; `reply` is the response body, `None` when the request
     * failed.  Loading ends either way.
     */
    method CheckAuth(reply: Option<CheckReply>) returns (url: string)
      modifies this
      ensures url == apiUrl + "/auth/check/"
      ensures user == (if reply.Some? && reply.value.isAuthenticated then reply.value.user else None)
      ensures !loading && RendersChildren()
    {
      url := apiUrl + "/auth/check/";
      if reply.Some? {
        if reply.value.isAuthenticated {
          user := reply.value.user;
        } else {
          user := None;
        }
      } else {
        user := None;
      }
      loading := false;
    }

    /**
     * `login(username, password)`; `reply` is the `user` of the response, or
     * the `error` of the failed response's body.
     */
    method Login(username: string, password: string, reply: Result<Option<User>, Option<string>>)
      returns (url: string, body: map<string, string>, result: AuthResult)
      modifies this
      ensures url == apiUrl + "/auth/login/"
      ensures body == map["username" := username, "password" := password]
      ensures reply.Success? ==> user == reply.value && result == Succeeded
      ensures reply.Failure? ==> user == old(user) && result == Refused(RefusalMessage(reply.error, "Login failed"))
      ensures loading == old(loading)
    {
      url := apiUrl + "/auth/login/";
      body := map["username" := username, "password" := password];
      if reply.Success? {
        user := reply.value;
        result := Succeeded;
      } else {
        result := Refused(RefusalMessage(reply.error, "Login failed"));
      }
    }

    /** `register(username, email, password)`: the same as `login` with its own URL, body and message. */
    method Register(username: string, email: string, password: string, reply: Result<Option<User>, Option<string>>)
      returns (url: string, body: map<string, string>, result: AuthResult)
      modifies this
      ensures url == apiUrl + "/auth/register/"
      ensures body == map["username" := username, "email" := email, "password" := password]
      ensures reply.Success? ==> user == reply.value && result == Succeeded
      ensures reply.Failure? ==> user == old(user) && result == Refused(RefusalMessage(reply.error, "Registration failed"))
      ensures loading == old(loading)
    {
      url := apiUrl + "/auth/register/";
      body := map["username" := username, "email" := email, "password" := password];
      if reply.Success? {
        user := reply.value;
        result := Succeeded;
      } else {
        result := Refused(RefusalMessage(reply.error, "Registration failed"));
      }
    }

    /** `logout`: the user is cleared only when the POST succeeds (`posted`). */
    method Logout(posted: bool) returns (url: string)
      modifies this
      ensures url == apiUrl + "/auth/logout/"
      ensures user == (if posted then None else old(user))
      ensures loading == old(loading)
    {
      url := apiUrl + "/auth/logout/";
      if posted {
        user := None;
      }
    }
  }
}
