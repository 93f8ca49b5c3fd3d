/** The bearer credential: when a session counts as authenticated, and the header it yields. */
module Credentials {
  import opened Values

  const BearerPrefix := "Bearer "

  /** JavaScript truthiness of the token slot: absent and the empty string are falsy. */
  function IsAuthenticated(token: Option<string>): (authenticated: bool)
    ensures authenticated <==> token.Some? && |token.value| > 0
  {
    match token
    case None => false
    case Some(t) => t != ""
  }

  /** The header value written after a successful login or registration. */
  function BearerHeader(t: string): (h: string)
    ensures |h| == |BearerPrefix| + |t|
    ensures h[..|BearerPrefix|] == BearerPrefix && h[|BearerPrefix|..] == t
  {
    BearerPrefix + t
  }

  /** The header value set while the provider renders: a bearer header, or empty. */
  function AuthorizationHeader(token: Option<string>): (h: string)
    ensures h != "" <==> IsAuthenticated(token)
    ensures h != "" ==> |h| > |BearerPrefix| && h[..|BearerPrefix|] == BearerPrefix
                        && Some(h[|BearerPrefix|..]) == token
  {
    if IsAuthenticated(token) then BearerHeader(token.value) else ""
  }

  /** The credential can be read back from the header that carries it. */
  lemma HeaderDeterminesToken(a: Option<string>, b: Option<string>)
    requires IsAuthenticated(a)
    requires AuthorizationHeader(a) == AuthorizationHeader(b)
    ensures a == b
  {
  }

  /** The sign-in header agrees with the render rule exactly when the new token is non-empty. */
  lemma BearerHeaderMatchesRender(t: string)
    ensures BearerHeader(t) == AuthorizationHeader(Some(t)) <==> t != ""
  {
  }
}
