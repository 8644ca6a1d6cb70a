/** Bearer-token checking shared by the serverless handlers
    (`verifyToken`, written identically in the orders and measurements
    handlers). Verifying the JWT's signature is a parameter: a decoder that
    yields the token's claims, or `None` where `jwt.verify` throws. */
module Auth {
  import opened Common
  import Text

  /** The claims of a ProPortal token. */
  datatype Claims = Claims(
    userId: string,
    role: string,
    contractorId: string,
    name: string,
    siteMeasureEnabled: bool)

  datatype AuthResult = Authorized(user: Claims) | Denied(error: string)

  const NoToken := "No token provided"
  const InvalidToken := "Invalid token"
  const Forbidden := "Insufficient permissions"

  /** `authHeader.split(' ')[1]` for a header with the `Bearer ` prefix. */
  function TokenOf(header: string): (token: string)
    requires Text.StartsWith(header, "Bearer ")
    ensures ' ' !in token
  {
    assert header[6] == ' ';
    Text.Split(header, ' ')[1]
  }

  /** `verifyToken(authHeader, allowedRoles)`: the header must start with
      `Bearer `, the second space-separated piece must decode, and the
      decoded role must be allowed when a role list is given. */
  function VerifyToken(header: string, allowedRoles: Option<seq<string>>,
                       decode: string -> Option<Claims>): (r: AuthResult)
    ensures r == Denied(NoToken) <==> !Text.StartsWith(header, "Bearer ")
    ensures r == Denied(InvalidToken) <==>
              Text.StartsWith(header, "Bearer ") && decode(TokenOf(header)).None?
    ensures r == Denied(Forbidden) <==>
              && Text.StartsWith(header, "Bearer ")
              && decode(TokenOf(header)).Some?
              && allowedRoles.Some?
              && decode(TokenOf(header)).value.role !in allowedRoles.value
    ensures r.Authorized? ==> Text.StartsWith(header, "Bearer ")
                              && decode(TokenOf(header)) == Some(r.user)
                              && (allowedRoles.Some? ==> r.user.role in allowedRoles.value)
  {
    if header == "" || !Text.StartsWith(header, "Bearer ") then
      Denied(NoToken)
    else
      match decode(TokenOf(header))
      case None => Denied(InvalidToken)
      case Some(claims) =>
        if allowedRoles.Some? && claims.role !in allowedRoles.value then Denied(Forbidden)
        else Authorized(claims)
  }

  /** Behind a `Bearer ` prefix the token is the text up to the next space. */
  lemma TokenAfterPrefix(header: string)
    requires Text.StartsWith(header, "Bearer ")
    ensures TokenOf(header) == Text.FirstToken(header[7..])
  {
    assert header[6] == ' ';
    var i := Text.IndexOf(header, ' ');
    assert header[..6] == "Bearer";
    assert i == 6;
    assert Text.Split(header, ' ') == [header[..6]] + Text.Split(header[7..], ' ');
  }
}
