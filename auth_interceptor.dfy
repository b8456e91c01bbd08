/** The HTTP interceptor that attaches the session token to outgoing requests.
    The token is read from storage by the caller and passed in; the decision
    itself reads nothing else and writes nothing. */
module AuthInterceptor {
  import opened Common

  /** An outgoing request: its URL, its headers and its body. */
  datatype Request = Request(url: string, headers: map<string, string>, body: Option<string>)

  const LoginPath := "/login"
  const AuthorizationHeader := "Authorization"
  const BearerPrefix := "Bearer "

  /** `pat` occurs in `s` starting at index `i`. */
  ghost predicate OccursAt(s: string, pat: string, i: int) {
    0 <= i && i + |pat| <= |s| && s[i..i + |pat|] == pat
  }

  lemma OccursAtShift(s: string, pat: string, i: int)
    requires |s| > 0 && 0 <= i
    ensures OccursAt(s[1..], pat, i) <==> OccursAt(s, pat, i + 1)
  {
    if 0 <= i && i + |pat| <= |s| - 1 {
      assert s[1..][i..i + |pat|] == s[i + 1..i + 1 + |pat|];
    }
  }

  /** `s.includes(pat)` */
  function Includes(s: string, pat: string): (r: bool)
    ensures r <==> exists i :: OccursAt(s, pat, i)
    decreases |s|
  {
    if |pat| > |s| then
      assert forall i :: !OccursAt(s, pat, i);
      false
    else if s[..|pat|] == pat then
      assert OccursAt(s, pat, 0);
      true
    else
      var r := Includes(s[1..], pat);
      assert r <==> exists i :: OccursAt(s, pat, i) by {
        forall i | 0 <= i ensures OccursAt(s[1..], pat, i) <==> OccursAt(s, pat, i + 1) {
          OccursAtShift(s, pat, i);
        }
        if exists i :: OccursAt(s, pat, i) {
          var i :| OccursAt(s, pat, i);
          assert i != 0;
          assert OccursAt(s[1..], pat, i - 1);
        }
      }
      r
  }

  /** The interceptor adds the bearer header exactly when the request does not
      target the login endpoint and a non-empty token is stored. */
  predicate AddsBearer(url: string, token: Option<string>): (b: bool)
    ensures b <==> (forall i :: !OccursAt(url, LoginPath, i)) && token.Some? && |token.value| > 0
  {
    !Includes(url, LoginPath) && Truthy(token)
  }

  /** ASCII lower case of one character; header names are ASCII tokens. */
  function LowerChar(c: char): (r: char)
    ensures 'A' <= c <= 'Z' ==> 'a' <= r <= 'z' && r as int - c as int == 32
    ensures !('A' <= c <= 'Z') ==> r == c
  {
    if 'A' <= c <= 'Z' then (c as int + 32) as char else c
  }

  function Lower(s: string): (r: string)
    ensures |r| == |s| && forall i :: 0 <= i < |s| ==> r[i] == LowerChar(s[i])
  {
    seq(|s|, i requires 0 <= i < |s| => LowerChar(s[i]))
  }

  /** Header names are compared without regard to case, as `HttpHeaders` does. */
  predicate SameName(a: string, b: string) {
    Lower(a) == Lower(b)
  }

  /** `headers.set(name, value)`: every header whose name equals `name` up to
      case is replaced by the single header `name: value`. */
  function SetHeader(headers: map<string, string>, name: string, value: string): (r: map<string, string>)
    ensures name in r && r[name] == value
    ensures forall k :: k in r && SameName(k, name) ==> k == name
    ensures forall k :: !SameName(k, name) ==> (k in r <==> k in headers)
    ensures forall k :: !SameName(k, name) && k in headers ==> r[k] == headers[k]
  {
    (map k | k in headers && !SameName(k, name) :: headers[k])[name := value]
  }

  /** `intercept`: the request handed on to the next handler. */
  function Intercept(req: Request, token: Option<string>): (out: Request)
    ensures !AddsBearer(req.url, token) ==> out == req
    ensures AddsBearer(req.url, token) ==>
              AuthorizationHeader in out.headers && out.headers[AuthorizationHeader] == BearerPrefix + token.value
    ensures AddsBearer(req.url, token) ==>
              forall k :: k in out.headers && SameName(k, AuthorizationHeader) ==> k == AuthorizationHeader
    ensures out.url == req.url && out.body == req.body
    ensures forall k :: !SameName(k, AuthorizationHeader) ==> (k in out.headers <==> k in req.headers)
    ensures forall k :: !SameName(k, AuthorizationHeader) && k in req.headers ==> out.headers[k] == req.headers[k]
  {
    if Includes(req.url, LoginPath) then req
    else if Truthy(token) then req.(headers := SetHeader(req.headers, AuthorizationHeader, BearerPrefix + token.value))
    else req
  }

  /** A header already present under any spelling of `Authorization` is
      replaced, not sent beside the bearer header. */
  lemma ExistingAuthorizationReplaced(req: Request, token: Option<string>)
    requires AddsBearer(req.url, token)
    requires "authorization" in req.headers
    ensures "authorization" !in Intercept(req, token).headers
  {
  }

  /** A login request is never given a credential, whatever is stored. */
  lemma {:induction false} LoginRequestUntouched(req: Request, token: Option<string>, i: nat)
    requires i + |LoginPath| <= |req.url| && req.url[i..i + |LoginPath|] == LoginPath
    ensures Intercept(req, token) == req
  {
    assert OccursAt(req.url, LoginPath, i);
  }

  /** Passing a request through the interceptor twice is the same as once. */
  lemma InterceptIdempotent(req: Request, token: Option<string>)
    ensures Intercept(Intercept(req, token), token) == Intercept(req, token)
  {
  }
}
