// The client-side session hook of src/hooks/useAuth.ts: the `auth-token` cookie helpers and
// the transitions of the hook's state on mount, login, logout, checkAuth and the ME query.

module UseAuth {
  import opened Wrappers
  import opened Json
  import opened Paths
  import opened Token

  const AUTH_TOKEN: string := "auth-token"
  const COOKIE_SEPARATOR: string := "; "
  const MS_PER_DAY: int := 24 * 60 * 60 * 1000
  /** How long a login keeps its cookie, in days */
  const LOGIN_COOKIE_DAYS: int := 7
  const EPOCH_EXPIRY: string := "Thu, 01 Jan 1970 00:00:01 GMT"
  const LOGIN_FAILED: string := "Login failed"

  // ---------------------------------------------------------------------------------------
  // document.cookie text

  /** First index at which `sep` occurs in `s`, or |s| when it does not. */
  function IndexOf(s: string, sep: string): (r: nat)
    requires |sep| > 0
    ensures r <= |s|
    ensures r < |s| ==> r + |sep| <= |s| && s[r..r + |sep|] == sep
    decreases |s|
  {
    if |s| < |sep| then |s|
    else if s[..|sep|] == sep then 0
    else
      var i := IndexOf(s[1..], sep);
      if i == |s| - 1 then |s|
      else
        assert s[1..][i..i + |sep|] == s[i + 1..i + 1 + |sep|];
        1 + i
  }

  /** `String.prototype.split(sep)` for a non-empty separator. */
  function SplitOn(s: string, sep: string): (r: seq<string>)
    requires |sep| > 0
    ensures |r| >= 1
    decreases |s|
  {
    var i := IndexOf(s, sep);
    if i == |s| then [s] else [s[..i]] + SplitOn(s[i + |sep|..], sep)
  }

  /** `rows.find(row => row.startsWith(prefix))` */
  function Find(rows: seq<string>, prefix: string): (r: Option<string>)
    ensures r.Some? ==> r.value in rows && StartsWith(r.value, prefix)
    ensures r.None? ==> forall i :: 0 <= i < |rows| ==> !StartsWith(rows[i], prefix)
  {
    if rows == [] then None
    else if StartsWith(rows[0], prefix) then Some(rows[0])
    else Find(rows[1..], prefix)
  }

  /** `row.split('=')[1]`: what lies between the first and the second '='. */
  function SecondField(row: string): string {
    var i := IndexOf(row, "=");
    if i == |row| then "" else
      Cut(row[i + 1..])
  }

  /** What `row.split('=')[1]` keeps of a cookie's value: the text before its first '='. */
  function Cut(value: string): (r: string)
    ensures NoChar(r, '=')
    ensures StartsWith(value, r)
  {
    var i := IndexOf(value, "=");
    IndexOfNoEarlier(value, "=");
    value[..i]
  }

  /** `getCookie(name)`, where `document` is None on the server. */
  function GetCookie(document: Option<string>, name: string): (r: Option<string>)
    ensures document.None? ==> r.None?
    ensures r.Some? ==> NoChar(r.value, '=')
  {
    if document.None? then None
    else match Find(SplitOn(document.value, COOKIE_SEPARATOR), name + "=")
      case None => None
      case Some(row) => Some(SecondField(row))
  }

  /** No '=' lies before the first '='. */
  lemma {:induction false} IndexOfNoEarlier(s: string, sep: string)
    requires |sep| == 1
    ensures NoChar(s[..IndexOf(s, sep)], sep[0])
  {
    if |s| >= 1 && s[0] != sep[0] {
      assert s[..1] != sep;
      IndexOfNoEarlier(s[1..], sep);
      var i := IndexOf(s[1..], sep);
      if i == |s| - 1 {
        assert s[1..][..i] == s[1..];
      }
      assert s[..IndexOf(s, sep)] == [s[0]] + s[1..][..i];
    }
  }

  /** The text of `setCookie(name, value, days)` at `nowMs`; `utc` is `Date.prototype.toUTCString`. */
  function SetCookieLine(name: string, value: string, days: int, nowMs: int, utc: int -> string): (line: string)
    ensures StartsWith(line, name + "=" + value + "; expires=")
  {
    var prefix := name + "=" + value + "; expires=";
    var line := prefix + utc(nowMs + days * MS_PER_DAY) + "; path=/; SameSite=Lax; Secure";
    assert line[..|prefix|] == prefix;
    line
  }

  /** The text of `removeCookie(name)`: an empty value that expired at the epoch. */
  function RemoveCookieLine(name: string): string {
    name + "=; path=/; expires=" + EPOCH_EXPIRY
  }

  predicate NoChar(s: string, c: char) {
    forall i :: 0 <= i < |s| ==> s[i] != c
  }

  /** A cookie the browser can list: its name has neither ';' nor '=', its value no ';'. */
  predicate Plain(c: (string, string)) {
    NoChar(c.0, ';') && NoChar(c.0, '=') && NoChar(c.1, ';')
  }

  /** `document.cookie`: the listing, or "" for an empty jar. */
  function Document(cookies: seq<(string, string)>): string {
    if cookies == [] then "" else Listing(cookies)
  }

  /** How `document.cookie` lists a jar: `name=value` pairs joined by "; ". */
  function Listing(jar: seq<(string, string)>): string
    requires |jar| >= 1
  {
    if |jar| == 1 then Row(jar[0]) else Row(jar[0]) + COOKIE_SEPARATOR + Listing(jar[1..])
  }

  function Row(c: (string, string)): string {
    c.0 + "=" + c.1
  }

  /** The value of the first cookie named `name`. */
  function FirstValue(jar: seq<(string, string)>, name: string): Option<string> {
    if jar == [] then None else if jar[0].0 == name then Some(jar[0].1) else FirstValue(jar[1..], name)
  }

  lemma {:induction false} IndexOfAbsent(s: string, sep: string)
    requires |sep| > 0 && NoChar(s, sep[0])
    ensures IndexOf(s, sep) == |s|
  {
    if |s| >= |sep| {
      assert s[..|sep|][0] != sep[0];
      IndexOfAbsent(s[1..], sep);
    }
  }

  lemma {:induction false} IndexOfFirst(a: string, sep: string, b: string)
    requires |sep| > 0 && NoChar(a, sep[0])
    ensures IndexOf(a + sep + b, sep) == |a|
  {
    var s := a + sep + b;
    if a == [] {
      assert s[..|sep|] == sep;
    } else {
      assert s[..|sep|][0] != sep[0];
      assert s[1..] == a[1..] + sep + b;
      IndexOfFirst(a[1..], sep, b);
    }
  }

  function Rows(jar: seq<(string, string)>): seq<string> {
    if jar == [] then [] else [Row(jar[0])] + Rows(jar[1..])
  }

  lemma NoCharConcat(a: string, b: string, c: char)
    ensures NoChar(a + b, c) <==> NoChar(a, c) && NoChar(b, c)
  {
    if NoChar(a, c) && NoChar(b, c) {
      forall i | 0 <= i < |a + b|
        ensures (a + b)[i] != c
      {
        if i >= |a| {
          assert (a + b)[i] == b[i - |a|];
        }
      }
    }
    if NoChar(a + b, c) {
      forall i | 0 <= i < |a|
        ensures a[i] != c
      {
        assert (a + b)[i] == a[i];
      }
      forall i | 0 <= i < |b|
        ensures b[i] != c
      {
        assert (a + b)[|a| + i] == b[i];
      }
    }
  }

  lemma RowPlain(c: (string, string))
    requires Plain(c)
    ensures NoChar(Row(c), ';')
  {
    NoCharConcat(c.0, "=", ';');
    NoCharConcat(c.0 + "=", c.1, ';');
  }

  lemma {:induction false} SplitListing(jar: seq<(string, string)>)
    requires |jar| >= 1 && forall i :: 0 <= i < |jar| ==> Plain(jar[i])
    ensures SplitOn(Listing(jar), COOKIE_SEPARATOR) == Rows(jar)
  {
    var row := Row(jar[0]);
    RowPlain(jar[0]);
    if |jar| == 1 {
      IndexOfAbsent(row, COOKIE_SEPARATOR);
    } else {
      var s := Listing(jar);
      IndexOfFirst(row, COOKIE_SEPARATOR, Listing(jar[1..]));
      assert s[..|row|] == row;
      assert s[|row| + 2..] == Listing(jar[1..]);
      SplitListing(jar[1..]);
    }
  }

  /** Where the first '=' of `name=value` is, when `name` has none. */
  lemma {:induction false} FirstEquals(name: string, value: string)
    requires NoChar(name, '=')
    ensures IndexOf(name + "=" + value, "=") == |name|
    ensures (name + "=" + value)[|name| + 1..] == value
  {
    IndexOfFirst(name, "=", value);
  }

  lemma RowStartsWith(c: (string, string), name: string)
    requires Plain(c) && NoChar(name, '=')
    ensures StartsWith(Row(c), name + "=") <==> c.0 == name
  {
    var row := Row(c);
    FirstEquals(c.0, c.1);
    if StartsWith(row, name + "=") {
      assert row == name + "=" + row[|name| + 1..];
      FirstEquals(name, row[|name| + 1..]);
      assert row[..|name|] == name;
    }
  }

  lemma {:induction false} FindInRows(jar: seq<(string, string)>, name: string)
    requires forall i :: 0 <= i < |jar| ==> Plain(jar[i])
    requires NoChar(name, '=')
    ensures FirstValue(jar, name).None? ==> Find(Rows(jar), name + "=").None?
    ensures FirstValue(jar, name).Some? ==> Find(Rows(jar), name + "=") == Some(Row((name, FirstValue(jar, name).value)))
  {
    if jar != [] {
      RowStartsWith(jar[0], name);
      FindInRows(jar[1..], name);
      assert Rows(jar)[1..] == Rows(jar[1..]);
    }
  }

  /** The field `getCookie` extracts from `name=value` is the value cut at its first '='. */
  lemma {:induction false} SecondFieldOfRow(name: string, value: string)
    requires NoChar(name, '=')
    ensures SecondField(name + "=" + value) == Cut(value)
  {
    FirstEquals(name, value);
  }

  /** A value without '=' is kept whole. */
  lemma CutKeepsPlain(value: string)
    requires NoChar(value, '=')
    ensures Cut(value) == value
  {
    IndexOfAbsent(value, "=");
  }

  /** `getCookie` reads back the value the browser lists first under that name, cut at its
      first '='. */
  lemma GetCookieReadsListing(jar: seq<(string, string)>, name: string)
    requires forall i :: 0 <= i < |jar| ==> Plain(jar[i])
    requires NoChar(name, '=')
    ensures var v := FirstValue(jar, name);
            GetCookie(Some(Document(jar)), name) == if v.Some? then Some(Cut(v.value)) else None
  {
    if jar == [] {
      assert SplitOn("", COOKIE_SEPARATOR) == [""];
      assert !StartsWith("", name + "=");
    } else {
      SplitListing(jar);
      FindInRows(jar, name);
      var found := Find(Rows(jar), name + "=");
      assert GetCookie(Some(Listing(jar)), name) == if found.Some? then Some(SecondField(found.value)) else None;
      var v := FirstValue(jar, name);
      if v.Some? {
        SecondFieldOfRow(name, v.value);
      }
    }
  }

  /** A value containing '=' is cut at its first '='. */
  lemma GetCookieTruncates(name: string, before: string, after: string)
    requires NoChar(name, '=') && NoChar(name, ';') && NoChar(before, '=') && NoChar(before, ';')
    requires NoChar(after, ';')
    ensures GetCookie(Some(name + "=" + before + "=" + after), name) == Some(before)
  {
    var value := before + "=" + after;
    NoCharConcat(before, "=", ';');
    NoCharConcat(before + "=", after, ';');
    GetCookieReadsListing([(name, value)], name);
    assert FirstValue([(name, value)], name) == Some(value);
    assert Document([(name, value)]) == name + "=" + before + "=" + after;
    IndexOfFirst(before, "=", after);
    assert value[..|before|] == before;
  }

  // ---------------------------------------------------------------------------------------
  // The browser's jar

  /** A cookie in the browser's jar: its value and the instant, in milliseconds, it expires. */
  datatype Cookie = Cookie(value: string, expiresMs: int)

  /** When a cookie set by `setCookie(name, value, days)` at `nowMs` expires: `expires` is
      written with `toUTCString`, which keeps whole seconds only. */
  function ExpiryMs(nowMs: int, days: int): (r: int)
    ensures r % 1000 == 0
    ensures nowMs + days * MS_PER_DAY - 1000 < r <= nowMs + days * MS_PER_DAY
  {
    (nowMs + days * MS_PER_DAY) / 1000 * 1000
  }

  /** A cookie is listed until the instant it expires. */
  predicate Alive(c: Cookie, nowMs: int) {
    nowMs < c.expiresMs
  }

  /** `cookies` is a `document.cookie` listing of the jar at `nowMs`: each listed cookie is
      alive and listed with its value, and each live cookie is listed. */
  predicate Lists(cookies: seq<(string, string)>, jar: map<string, Cookie>, nowMs: int) {
    (forall i :: 0 <= i < |cookies| ==>
       cookies[i].0 in jar && Alive(jar[cookies[i].0], nowMs) && cookies[i].1 == jar[cookies[i].0].value) &&
    (forall name :: name in jar && Alive(jar[name], nowMs) ==>
       exists i :: 0 <= i < |cookies| && cookies[i].0 == name)
  }

  lemma {:induction false} FirstValueListed(cookies: seq<(string, string)>, jar: map<string, Cookie>, nowMs: int, name: string)
    requires forall i :: 0 <= i < |cookies| ==> cookies[i].0 in jar && cookies[i].1 == jar[cookies[i].0].value
    ensures FirstValue(cookies, name).Some? <==> exists i :: 0 <= i < |cookies| && cookies[i].0 == name
    ensures FirstValue(cookies, name).Some? ==> name in jar && FirstValue(cookies, name).value == jar[name].value
  {
    if cookies != [] && cookies[0].0 != name {
      FirstValueListed(cookies[1..], jar, nowMs, name);
      if exists i :: 0 <= i < |cookies| && cookies[i].0 == name {
        var i :| 0 <= i < |cookies| && cookies[i].0 == name;
        assert cookies[1..][i - 1].0 == name;
      }
    }
  }

  // ---------------------------------------------------------------------------------------
  // The hook's state

  /** What the hook holds: `user`, `loading`, `isClient`, `hasValidToken`, the browser's cookie
      jar, and every string assigned to `document.cookie`, in order. */
  datatype Session = Session(
    user: Option<Json>,
    loading: bool,
    isClient: bool,
    hasValidToken: bool,
    jar: map<string, Cookie>,
    written: seq<string>)

  /** A user is only ever held together with a token believed valid. */
  predicate Consistent(s: Session) {
    s.user.Some? ==> s.hasValidToken
  }

  /** The state after the first render. */
  function Initial(jar: map<string, Cookie>): (s: Session)
    ensures Consistent(s) && s.loading && !s.isClient
  {
    Session(None, true, false, false, jar, [])
  }

  /** `removeCookie('auth-token')`: without a window nothing happens. */
  function DropToken(s: Session, hasWindow: bool): (r: Session)
    ensures hasWindow ==> AUTH_TOKEN !in r.jar && r.written == s.written + [RemoveCookieLine(AUTH_TOKEN)]
    ensures !hasWindow ==> r == s
    ensures r.user == s.user && r.hasValidToken == s.hasValidToken && r.loading == s.loading && r.isClient == s.isClient
  {
    if hasWindow then s.(jar := s.jar - {AUTH_TOKEN}, written := s.written + [RemoveCookieLine(AUTH_TOKEN)]) else s
  }

  /** Signing out locally: no user, no token, no cookie. */
  function SignedOut(s: Session, hasWindow: bool): (r: Session)
    ensures r.user.None? && !r.hasValidToken && Consistent(r)
    ensures hasWindow ==> AUTH_TOKEN !in r.jar
  {
    DropToken(s, hasWindow).(user := None, hasValidToken := false)
  }

  /** The mount effect. */
  function AfterMount(s: Session): (r: Session)
    ensures r.isClient
    ensures Consistent(s) ==> Consistent(r)
  {
    s.(isClient := true)
  }

  /** The ME query's `onCompleted`, given `data?.me`. */
  function AfterMeCompleted(s: Session, hasWindow: bool, me: Option<Json>): (r: Session)
    ensures !r.loading && Consistent(r)
    ensures me.Some? && Truthy(me.value) ==> r.user == me && r.hasValidToken
    ensures !(me.Some? && Truthy(me.value)) ==> r.user.None? && !r.hasValidToken && (hasWindow ==> AUTH_TOKEN !in r.jar)
  {
    if me.Some? && Truthy(me.value) then s.(user := me, hasValidToken := true, loading := false)
    else SignedOut(s, hasWindow).(loading := false)
  }

  /** The ME query's `onError`, together with the effect that reacts to `meError`. */
  function AfterMeFailed(s: Session, hasWindow: bool): (r: Session)
    ensures !r.loading && r.user.None? && !r.hasValidToken && Consistent(r)
    ensures hasWindow ==> AUTH_TOKEN !in r.jar
  {
    SignedOut(SignedOut(s, hasWindow).(loading := false), hasWindow)
  }

  /** How the login mutation settled: `data?.login` (token and user), or an exception's message. */
  datatype LoginOutcome = Returned(login: Option<(string, Json)>) | Threw(message: string)

  datatype LoginResult = Success(user: Json) | Failure(error: string)

  /** The cookie `login` stores for `token` at `nowMs`. */
  function LoginCookie(token: string, nowMs: int): Cookie {
    Cookie(token, ExpiryMs(nowMs, LOGIN_COOKIE_DAYS))
  }

  /** `login(email, password)` at `nowMs`. */
  function AfterLogin(s: Session, hasWindow: bool, outcome: LoginOutcome, nowMs: int, utc: int -> string): (r: (LoginResult, Session))
    ensures Consistent(s) ==> Consistent(r.1)
    // success: the token is stored for seven days, and the user is held
    ensures r.0.Success? <==> outcome.Returned? && outcome.login.Some?
    ensures r.0.Success? ==> r.0.user == outcome.login.value.1 && r.1.user == Some(r.0.user) && r.1.hasValidToken
    ensures r.0.Success? && hasWindow ==>
              r.1.jar == s.jar[AUTH_TOKEN := LoginCookie(outcome.login.value.0, nowMs)] &&
              r.1.written == s.written + [SetCookieLine(AUTH_TOKEN, outcome.login.value.0, LOGIN_COOKIE_DAYS, nowMs, utc)]
    // failure: a message, never empty, and nothing changes
    ensures r.0.Failure? ==> r.1 == s && r.0.error != ""
    ensures outcome.Threw? && outcome.message != "" ==> r.0 == Failure(outcome.message)
  {
    match outcome
    case Threw(message) => (Failure(if message != "" then message else LOGIN_FAILED), s)
    case Returned(None) => (Failure(LOGIN_FAILED), s)
    case Returned(Some((token, user))) =>
      var stored := if hasWindow then s.(jar := s.jar[AUTH_TOKEN := LoginCookie(token, nowMs)],
                                         written := s.written + [SetCookieLine(AUTH_TOKEN, token, LOGIN_COOKIE_DAYS, nowMs, utc)])
                    else s;
      (Success(user), stored.(user := Some(user), hasValidToken := true))
  }

  /** `logout()`: the state afterwards and where the window navigates. */
  function AfterLogout(s: Session, hasWindow: bool): (r: (Option<string>, Session))
    ensures r.1.user.None? && !r.1.hasValidToken && Consistent(r.1)
    ensures hasWindow ==> AUTH_TOKEN !in r.1.jar && r.0 == Some(LOGIN_PATH)
    ensures !hasWindow ==> r.0.None?
  {
    (if hasWindow then Some(LOGIN_PATH) else None, SignedOut(s, hasWindow))
  }

  /** `getCookie('auth-token')` at `nowMs`: the token cookie while it is alive, cut at its
      first '='. */
  function TokenCookie(s: Session, hasWindow: bool, nowMs: int): (r: Option<string>)
    ensures r.Some? ==> hasWindow && AUTH_TOKEN in s.jar && Alive(s.jar[AUTH_TOKEN], nowMs)
  {
    if hasWindow && AUTH_TOKEN in s.jar && Alive(s.jar[AUTH_TOKEN], nowMs) then Some(Cut(s.jar[AUTH_TOKEN].value))
    else None
  }

  /** `TokenCookie` is what `getCookie` finds in any listing of the jar. */
  lemma TokenCookieReadsDocument(s: Session, nowMs: int, cookies: seq<(string, string)>)
    requires forall i :: 0 <= i < |cookies| ==> Plain(cookies[i])
    requires Lists(cookies, s.jar, nowMs)
    ensures GetCookie(Some(Document(cookies)), AUTH_TOKEN) == TokenCookie(s, true, nowMs)
  {
    GetCookieReadsListing(cookies, AUTH_TOKEN);
    FirstValueListed(cookies, s.jar, nowMs, AUTH_TOKEN);
    if FirstValue(cookies, AUTH_TOKEN).Some? {
      var i :| 0 <= i < |cookies| && cookies[i].0 == AUTH_TOKEN;
      assert Alive(s.jar[cookies[i].0], nowMs);
    }
  }

  /** `checkAuth()` at `nowMs`; `refetchThrew` is whether re-running the ME query threw. */
  function AfterCheckAuth(s: Session, hasWindow: bool, decode: Decoder, nowMs: int, refetchThrew: bool): (r: Session)
    ensures !s.isClient ==> r == s
    ensures s.isClient ==> !r.loading
    ensures Consistent(s) ==> Consistent(r)
    // only a valid token cookie leaves the session signed in, and then the user is kept
    ensures s.isClient && r.hasValidToken ==>
              !refetchThrew && TokenCookie(s, hasWindow, nowMs).Some? && IsTokenValid(TokenCookie(s, hasWindow, nowMs).value, decode, nowMs)
    ensures s.isClient && !refetchThrew && TokenCookie(s, hasWindow, nowMs).Some? &&
            IsTokenValid(TokenCookie(s, hasWindow, nowMs).value, decode, nowMs) ==>
              r == s.(hasValidToken := true, loading := false)
    // every other path ends signed out
    ensures s.isClient && !r.hasValidToken ==> r.user.None?
    // a cookie that is present but not valid is removed
    ensures (s.isClient && TokenCookie(s, hasWindow, nowMs).Some? && TokenCookie(s, hasWindow, nowMs).value != "" &&
             !IsTokenValid(TokenCookie(s, hasWindow, nowMs).value, decode, nowMs)) ==> AUTH_TOKEN !in r.jar
  {
    if !s.isClient then s
    else
      var token := TokenCookie(s, hasWindow, nowMs);
      var valid := token.Some? && token.value != "" && IsTokenValid(token.value, decode, nowMs);
      var checked :=
        if valid then
          if refetchThrew then SignedOut(s.(hasValidToken := true), hasWindow) else s.(hasValidToken := true)
        else
          var swept := if token.Some? && token.value != "" then DropToken(s, hasWindow) else s;
          swept.(user := None, hasValidToken := false);
      checked.(loading := false)
  }

  /** A successful login followed by `checkAuth` while the token and its cookie are both still
      valid keeps the user signed in: the cookie `login` writes is the one `checkAuth` reads. */
  lemma LoginThenCheckAuth(s: Session, token: string, user: Json, nowMs: int, utc: int -> string, decode: Decoder, later: int)
    requires s.isClient && IsTokenValid(token, decode, later) && NoChar(token, '=')
    requires later < ExpiryMs(nowMs, LOGIN_COOKIE_DAYS)
    ensures var signedIn := AfterLogin(s, true, Returned(Some((token, user))), nowMs, utc).1;
            var checked := AfterCheckAuth(signedIn, true, decode, later, false);
            checked.user == Some(user) && checked.hasValidToken && !checked.loading
  {
    CutKeepsPlain(token);
  }

  /** Once the login cookie has expired, `checkAuth` signs the user out, however long the token
      itself would still be valid. */
  lemma LoginExpires(s: Session, token: string, user: Json, nowMs: int, utc: int -> string, decode: Decoder, later: int, refetchThrew: bool)
    requires s.isClient
    requires ExpiryMs(nowMs, LOGIN_COOKIE_DAYS) <= later
    ensures var signedIn := AfterLogin(s, true, Returned(Some((token, user))), nowMs, utc).1;
            var checked := AfterCheckAuth(signedIn, true, decode, later, refetchThrew);
            checked.user.None? && !checked.hasValidToken && !checked.loading
  {
  }

  /** A token with '=' in it is checked cut short, as `getCookie` reads it back. */
  lemma LoginCookieReadsCut(s: Session, token: string, user: Json, nowMs: int, utc: int -> string, later: int)
    requires later < ExpiryMs(nowMs, LOGIN_COOKIE_DAYS)
    ensures var signedIn := AfterLogin(s, true, Returned(Some((token, user))), nowMs, utc).1;
            TokenCookie(signedIn, true, later) == Some(Cut(token))
  {
  }

  /** After `logout`, `checkAuth` finds no cookie and stays signed out, whatever the clock. */
  lemma LogoutThenCheckAuth(s: Session, decode: Decoder, nowMs: int, refetchThrew: bool)
    requires s.isClient
    ensures var checked := AfterCheckAuth(AfterLogout(s, true).1, true, decode, nowMs, refetchThrew);
            checked.user.None? && !checked.hasValidToken && AUTH_TOKEN !in checked.jar
  {
  }

  /** The `loading` the hook exposes. */
  function ExposedLoading(s: Session, meLoading: bool, loginLoading: bool): (r: bool)
    ensures !r <==> !s.loading && !meLoading && !loginLoading && s.isClient
  {
    s.loading || meLoading || loginLoading || !s.isClient
  }

  /** The hook reports loading from the first render until `checkAuth` has run on the client,
      and reports settled afterwards once no query or mutation is in flight. */
  lemma LoadingUntilChecked(jar: map<string, Cookie>, hasWindow: bool, decode: Decoder, nowMs: int, refetchThrew: bool,
                            meLoading: bool, loginLoading: bool)
    ensures ExposedLoading(Initial(jar), meLoading, loginLoading)
    ensures ExposedLoading(AfterMount(Initial(jar)), meLoading, loginLoading)
    ensures var checked := AfterCheckAuth(AfterMount(Initial(jar)), hasWindow, decode, nowMs, refetchThrew);
            ExposedLoading(checked, meLoading, loginLoading) <==> meLoading || loginLoading
  {
  }

  /** `checkAuth` before the mount effect changes nothing, so the hook still reports loading. */
  lemma CheckAuthBeforeMountStillLoading(s: Session, hasWindow: bool, decode: Decoder, nowMs: int, refetchThrew: bool,
                                         meLoading: bool, loginLoading: bool)
    requires !s.isClient
    ensures ExposedLoading(AfterCheckAuth(s, hasWindow, decode, nowMs, refetchThrew), meLoading, loginLoading)
  {
  }

  /** The hook's state as one object whose fields the transitions update in place. */
  class AuthSession {
    const hasWindow: bool
    var user: Option<Json>
    var loading: bool
    var isClient: bool
    var hasValidToken: bool
    var jar: map<string, Cookie>
    var written: seq<string>

    function State(): Session
      reads this
    {
      Session(user, loading, isClient, hasValidToken, jar, written)
    }

    constructor (window: bool, cookies: map<string, Cookie>)
      ensures hasWindow == window && State() == Initial(cookies)
    {
      hasWindow := window;
      user := None;
      loading := true;
      isClient := false;
      hasValidToken := false;
      jar := cookies;
      written := [];
    }

    method RemoveCookie()
      modifies this
      ensures State() == DropToken(old(State()), hasWindow)
    {
      if hasWindow {
        jar := jar - {AUTH_TOKEN};
        written := written + [RemoveCookieLine(AUTH_TOKEN)];
      }
    }

    method Mount()
      modifies this
      ensures State() == AfterMount(old(State()))
    {
      isClient := true;
    }

    method OnMeCompleted(me: Option<Json>)
      modifies this
      ensures State() == AfterMeCompleted(old(State()), hasWindow, me)
    {
      if me.Some? && Truthy(me.value) {
        user := me;
        hasValidToken := true;
      } else {
        user := None;
        hasValidToken := false;
        RemoveCookie();
      }
      loading := false;
    }

    method OnMeError()
      modifies this
      ensures State() == AfterMeFailed(old(State()), hasWindow)
    {
      user := None;
      hasValidToken := false;
      RemoveCookie();
      loading := false;
      user := None;
      hasValidToken := false;
      RemoveCookie();
    }

    method Login(outcome: LoginOutcome, nowMs: int, utc: int -> string) returns (result: LoginResult)
      modifies this
      ensures (result, State()) == AfterLogin(old(State()), hasWindow, outcome, nowMs, utc)
    {
      match outcome {
        case Threw(message) =>
          result := Failure(if message != "" then message else LOGIN_FAILED);
        case Returned(None) =>
          result := Failure(LOGIN_FAILED);
        case Returned(Some((token, u))) =>
          if hasWindow {
            jar := jar[AUTH_TOKEN := LoginCookie(token, nowMs)];
            written := written + [SetCookieLine(AUTH_TOKEN, token, LOGIN_COOKIE_DAYS, nowMs, utc)];
          }
          user := Some(u);
          hasValidToken := true;
          result := Success(u);
      }
    }

    method Logout() returns (navigate: Option<string>)
      modifies this
      ensures (navigate, State()) == AfterLogout(old(State()), hasWindow)
    {
      RemoveCookie();
      user := None;
      hasValidToken := false;
      navigate := if hasWindow then Some(LOGIN_PATH) else None;
    }

    method CheckAuth(decode: Decoder, nowMs: int, refetchThrew: bool)
      modifies this
      ensures State() == AfterCheckAuth(old(State()), hasWindow, decode, nowMs, refetchThrew)
    {
      if !isClient {
        return;
      }
      var token := if hasWindow && AUTH_TOKEN in jar && Alive(jar[AUTH_TOKEN], nowMs) then Some(Cut(jar[AUTH_TOKEN].value))
                   else None;
      if token.Some? && token.value != "" && IsTokenValid(token.value, decode, nowMs) {
        hasValidToken := true;
        if refetchThrew {
          user := None;
          hasValidToken := false;
          RemoveCookie();
        }
      } else {
        if token.Some? && token.value != "" && !IsTokenValid(token.value, decode, nowMs) {
          RemoveCookie();
        }
        user := None;
        hasValidToken := false;
      }
      loading := false;
    }
  }
}
