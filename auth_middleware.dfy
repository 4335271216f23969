/** `authenticateToken` (backend/middleware/authMiddleware.js): the authentication gate. The
    signature check of `jwt.verify` is a foreign call, passed in as `verify`. */
module AuthMiddleware {
  import opened Base
  import opened Text

  const TokenMissing: string := "Token não fornecido."
  const TokenInvalid: string := "Token inválido."

  /** Either the gate attaches the decoded claims as `req.user` and calls `next()`, or it writes a
      response with this status and error. */
  datatype Auth = Authenticated(user: Claims) | Rejected(status: nat, error: string)

  /** `authHeader && authHeader.split(" ")[1]`: the second space-separated piece of the header,
      whatever the first one is. `None` is `undefined`. */
  function TokenOf(authHeader: Option<string>): (token: Option<string>)
    ensures token.None? <==> authHeader.None? || (authHeader.value != "" && ' ' !in authHeader.value)
    ensures token.Some? ==> ' ' !in token.value
  {
    if authHeader.None? then None
    else if authHeader.value == "" then Some("")
    else
      var pieces := Split(authHeader.value, ' ');
      SplitPiecesAreFree(authHeader.value, ' ');
      SplitIntoSeveral(authHeader.value, ' ');
      if |pieces| < 2 then None else Some(pieces[1])
  }

  /** The gate: 401 without a token, 403 when `verify` rejects it, otherwise the claims. */
  function AuthenticateToken(authHeader: Option<string>, verify: string -> Option<Claims>): (r: Auth)
    ensures r == Rejected(401, TokenMissing) <==> !Truthy(TokenOf(authHeader))
    ensures r == Rejected(403, TokenInvalid)
        <==> Truthy(TokenOf(authHeader)) && verify(TokenOf(authHeader).value).None?
    ensures r.Authenticated?
        <==> Truthy(TokenOf(authHeader)) && verify(TokenOf(authHeader).value).Some?
    ensures r.Authenticated? ==> r.user == verify(TokenOf(authHeader).value).value
  {
    var token := TokenOf(authHeader);
    if !Truthy(token) then Rejected(401, TokenMissing)
    else
      match verify(token.value)
      case None => Rejected(403, TokenInvalid)
      case Some(user) => Authenticated(user)
  }

  /** The 401 is decided before verification: without a token the verifier is never consulted. */
  lemma MissingTokenIgnoresVerifier(authHeader: Option<string>,
                                    verify: string -> Option<Claims>, other: string -> Option<Claims>)
    requires !Truthy(TokenOf(authHeader))
    ensures AuthenticateToken(authHeader, verify) == AuthenticateToken(authHeader, other)
  {
  }

  /** The first word is never checked to be "Bearer": any space-free scheme is accepted. */
  lemma {:induction false} SchemeIgnored(scheme: string, token: string)
    requires ' ' !in scheme && ' ' !in token
    ensures TokenOf(Some(scheme + " " + token)) == Some(token)
  {
    SplitJoin([scheme, token], ' ');
    assert Join([scheme, token], ' ') == scheme + " " + token;
  }

  /** Pieces after the second are ignored. */
  lemma {:induction false} TrailingPiecesIgnored(scheme: string, token: string, rest: string)
    requires ' ' !in scheme && ' ' !in token
    ensures TokenOf(Some(scheme + " " + token + " " + rest)) == Some(token)
  {
    assert scheme + " " + token + " " + rest == scheme + [' '] + (token + [' '] + rest);
    SplitAppend(scheme, token + [' '] + rest, ' ');
    SplitAppend(token, rest, ' ');
    SplitNoSeparator(scheme, ' ');
    SplitNoSeparator(token, ' ');
  }

  /** A header without a space carries no token: 401, whatever the verifier would say. */
  lemma {:induction false} NoSpaceNoToken(header: string, verify: string -> Option<Claims>)
    requires ' ' !in header
    ensures AuthenticateToken(Some(header), verify) == Rejected(401, TokenMissing)
  {
    SplitNoSeparator(header, ' ');
  }

  /** An empty second piece (`"Bearer "`, or two spaces in a row) is a missing token: 401. */
  lemma {:induction false} EmptySecondPiece(scheme: string, rest: string, verify: string -> Option<Claims>)
    requires ' ' !in scheme
    requires rest == "" || rest[0] == ' '
    ensures AuthenticateToken(Some(scheme + " " + rest), verify) == Rejected(401, TokenMissing)
  {
    SplitAppend(scheme, rest, ' ');
    SplitNoSeparator(scheme, ' ');
    assert scheme + " " + rest == scheme + [' '] + rest;
    if rest != "" {
      assert Split(rest, ' ')[0] == "";
    }
  }
}
