/**
 * The Go server's authentication middleware (middleware/auth.go): the
 * `Authorization` header must carry the channel access token as
 * `Bearer <token>`; the token is stored in the request context under
 * `channelAccessToken` for the handlers, which read it back with
 * `GetChannelAccessToken`.
 */
module Auth {
  import opened Wrappers
  import opened Strings

  const BearerPrefix: string := "Bearer "
  const TokenKey: string := "channelAccessToken"
  const Unauthorized: int := 401
  const InvalidHeaderMessage: string := "Missing or invalid authorization header"

  /** The header decision: either a 401 rejection or the extracted token. */
  datatype HeaderDecision = Reject(status: int, message: string) | Token(token: string)

  function DecideHeader(header: string): (d: HeaderDecision)
    ensures d.Reject? <==> !HasPrefix(header, BearerPrefix)
    ensures d.Reject? ==> d == Reject(Unauthorized, InvalidHeaderMessage)
    ensures d.Token? ==> BearerPrefix + d.token == header
  {
    if header == "" || !HasPrefix(header, BearerPrefix) then
      Reject(Unauthorized, InvalidHeaderMessage)
    else
      Token(TrimPrefix(header, BearerPrefix))
  }

  /**
   * The request context the middleware sees and leaves behind: the values
   * stored with `c.Set` (only strings are ever stored under the token key),
   * the status and the `error` field of the body written with `c.JSON`, and
   * whether `c.Abort` was called.
   */
  datatype Context = Context(keys: map<string, string>, status: Option<int>, errorBody: Option<string>,
                             aborted: bool)

  /** `AuthMiddleware()`'s handler applied to a request with the given header. */
  function AuthMiddleware(header: string, c: Context): (r: Context)
    ensures DecideHeader(header).Reject? ==>
      r == c.(status := Some(Unauthorized), errorBody := Some(InvalidHeaderMessage), aborted := true)
    ensures DecideHeader(header).Token? ==>
      r == c.(keys := c.keys[TokenKey := DecideHeader(header).token])
  {
    match DecideHeader(header)
    case Reject(code, message) => c.(status := Some(code), errorBody := Some(message), aborted := true)
    case Token(t) => c.(keys := c.keys[TokenKey := t])
  }

  /** `GetChannelAccessToken`: the stored token, or "" when none was stored. */
  function GetChannelAccessToken(c: Context): (t: string)
    ensures TokenKey in c.keys ==> t == c.keys[TokenKey]
    ensures TokenKey !in c.keys ==> t == ""
  {
    if TokenKey in c.keys then c.keys[TokenKey] else ""
  }

  /** An empty header is rejected with 401 and nothing is stored. */
  lemma EmptyHeaderRejected(c: Context)
    ensures DecideHeader("") == Reject(Unauthorized, InvalidHeaderMessage)
    ensures AuthMiddleware("", c).keys == c.keys && AuthMiddleware("", c).aborted
    ensures AuthMiddleware("", c).status == Some(401)
    ensures AuthMiddleware("", c).errorBody == Some("Missing or invalid authorization header")
  {
  }

  /** The prefix test is case-sensitive and needs the trailing space. */
  lemma PrefixIsExact()
    ensures DecideHeader("bearer abc").Reject?
    ensures DecideHeader("BEARER abc").Reject?
    ensures DecideHeader("Bearer").Reject?
    ensures DecideHeader("Bearerabc").Reject?
  {
    assert "bearer abc"[..7] != BearerPrefix by { assert "bearer abc"[0] != BearerPrefix[0]; }
    assert "BEARER abc"[..7] != BearerPrefix by { assert "BEARER abc"[1] != BearerPrefix[1]; }
    assert "Bearerabc"[..7] != BearerPrefix by { assert "Bearerabc"[6] != BearerPrefix[6]; }
  }

  /** Only one prefix is removed, and "Bearer " alone yields the empty token. */
  lemma SinglePrefixStripped()
    ensures DecideHeader("Bearer Bearer x") == Token("Bearer x")
    ensures DecideHeader("Bearer ") == Token("")
  {
    assert "Bearer Bearer x"[..7] == BearerPrefix;
    assert "Bearer Bearer x"[7..] == "Bearer x";
  }

  /**
   * What a handler reads after the middleware: the token of an accepted
   * header, with the prefix put back giving the header again; nothing new
   * after a rejection.
   */
  lemma {:induction false} HandlerSeesToken(header: string, c: Context)
    ensures var r := AuthMiddleware(header, c);
      (HasPrefix(header, BearerPrefix) ==>
         r.aborted == c.aborted && r.status == c.status && r.errorBody == c.errorBody
         && BearerPrefix + GetChannelAccessToken(r) == header)
      && (!HasPrefix(header, BearerPrefix) ==>
         r.aborted && r.status == Some(Unauthorized) && r.errorBody == Some(InvalidHeaderMessage)
         && GetChannelAccessToken(r) == GetChannelAccessToken(c))
  {
    var r := AuthMiddleware(header, c);
    if HasPrefix(header, BearerPrefix) {
      var t := DecideHeader(header).token;
      assert r.keys == c.keys[TokenKey := t];
      assert GetChannelAccessToken(r) == t;
    }
  }
}
