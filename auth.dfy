/** Credential handling of src/middleware/auth.middleware.ts. */
module Auth {
  import opened Common
  import opened Strings

  /**
   * The decoded admin token. `sub` is optional here because a token without the
   * claim decodes to `undefined`, which the admin join treats like an empty subject.
   */
  datatype JwtPayload = JwtPayload(sub: Option<string>, email: string, role: Option<string>,
                                   iat: Option<int>, exp: Option<int>)

  /**
   * `verifyToken`: the signature check is a foreign library call, so it is an oracle
   * supplied by the caller. Its type is the whole contract: a payload or `null`,
   * never an exception (the library's throw is caught and turned into `null`).
   */
  type TokenVerifier = string -> Option<JwtPayload>

  const BearerPrefix: string := "Bearer "

  /**
   * `extractBearerToken`: `null` for an absent header or one that does not start with
   * exactly `"Bearer "` (case-sensitive, one space); otherwise the rest of the header.
   */
  function ExtractBearerToken(authHeader: Option<string>): (r: Option<string>)
    ensures r.Some? <==> authHeader.Some? && StartsWith(authHeader.value, BearerPrefix)
    ensures r.Some? ==> authHeader.value == BearerPrefix + r.value
    ensures r.Some? ==> |r.value| == |authHeader.value| - 7
  {
    if !Truthy(authHeader) || !StartsWith(authHeader.value, BearerPrefix) then None
    else Some(authHeader.value[7..])
  }

  /** Prefixing any token, the empty one included, and extracting it gives it back. */
  lemma ExtractRoundTrip(t: string)
    ensures ExtractBearerToken(Some(BearerPrefix + t)) == Some(t)
  {
    assert (BearerPrefix + t)[..7] == BearerPrefix;
    assert (BearerPrefix + t)[7..] == t;
  }

  /** An extracted token re-prefixed is the header it came from. */
  lemma ExtractInverse(header: string)
    requires ExtractBearerToken(Some(header)).Some?
    ensures BearerPrefix + ExtractBearerToken(Some(header)).value == header
  {
  }

  /** The scheme is matched case-sensitively and with exactly one space. */
  lemma ExtractRejectsVariants(t: string)
    ensures ExtractBearerToken(Some("bearer " + t)) == None
    ensures ExtractBearerToken(Some("Bearer")) == None
    ensures ExtractBearerToken(None) == None
  {
    assert ("bearer " + t)[0] == 'b';
  }
}
