/** The `protect` middleware: it takes the token from the Authorization
    header, verifies it, and either attaches the decoded identity to the
    request and passes control on, or answers 401. */
module AuthGate {
  import opened Base
  import opened Text
  import opened Auth

  /** The text of `s` up to its first space: `s.split(" ")[0]`. */
  function UpToSpace(s: string): (r: string)
    ensures |r| <= |s| && r == s[..|r|]
    ensures ' ' !in r
    ensures |r| < |s| ==> s[|r|] == ' '
  {
    if s == [] || s[0] == ' ' then [] else [s[0]] + UpToSpace(s[1..])
  }

  /** The token in a header: after a "Bearer " prefix, the second
      space-separated piece; otherwise the whole header. */
  function ExtractToken(header: string): (token: string)
    ensures StartsWith(header, "Bearer ") ==> token == UpToSpace(header[7..])
    ensures !StartsWith(header, "Bearer ") ==> token == header
  {
    if StartsWith(header, "Bearer ") then UpToSpace(header[7..]) else header
  }

  /** A token without spaces survives the round trip through the header. */
  lemma {:induction false} UpToSpaceWhole(t: string)
    requires ' ' !in t
    ensures UpToSpace(t) == t
  {
    if t != [] {
      assert t[0] in t;
      assert forall c :: c in t[1..] ==> c in t;
      UpToSpaceWhole(t[1..]);
    }
  }

  lemma BearerRoundTrip(t: string)
    requires ' ' !in t
    ensures ExtractToken("Bearer " + t) == t
  {
    var h := "Bearer " + t;
    assert h[..7] == "Bearer ";
    assert h[7..] == t;
    UpToSpaceWhole(t);
  }

  /** A header without the prefix is the token itself. */
  lemma RawTokenUsedVerbatim(t: string)
    requires !StartsWith(t, "Bearer ")
    ensures ExtractToken(t) == t
  {
  }

  /** What the gate decides for a request. */
  datatype Verdict = Reject(code: nat, msg: string) | Admit(user: Claims)

  /** The decision of `protect` for a header value (`None` when the request
      has no Authorization header). */
  function Authenticate(header: Option<string>, crypto: Crypto): (v: Verdict)
    ensures (header.None? || header.value == "") ==> v == Reject(401, "No token, authorization denied")
    ensures header.Some? && header.value != "" ==>
      match crypto.verify(ExtractToken(header.value))
      case None => v == Reject(401, "Token is not valid")
      case Some(c) => v == Admit(c)
  {
    if header.None? || header.value == "" then
      Reject(401, "No token, authorization denied")
    else
      match crypto.verify(ExtractToken(header.value))
      case None => Reject(401, "Token is not valid")
      case Some(c) => Admit(c)
  }

  /** A token issued for `c`, sent raw or with the Bearer prefix, admits
      exactly `c`. */
  lemma IssuedTokenAdmits(crypto: Crypto, c: Claims, bearer: bool)
    requires crypto.Sound()
    requires ' ' !in crypto.sign(c) && crypto.sign(c) != ""
    requires !StartsWith(crypto.sign(c), "Bearer ")
    ensures Authenticate(Some(if bearer then "Bearer " + crypto.sign(c) else crypto.sign(c)), crypto) == Admit(c)
  {
    if bearer { BearerRoundTrip(crypto.sign(c)); }
  }

  /** The parts of an Express request that `protect` reads and writes. */
  class Request {
    /** The Authorization header, if any. */
    var authorization: Option<string>
    /** `req.user`. */
    var user: Option<Claims>
    /** How often the next handler was called. */
    var nextCalls: nat
    /** The status and message sent, if any. */
    var response: Option<(nat, string)>

    constructor (authorization: Option<string>)
      ensures this.authorization == authorization
      ensures user == None && nextCalls == 0 && response == None
    {
      this.authorization := authorization;
      user := None;
      nextCalls := 0;
      response := None;
    }
  }

  /** `protect(req, res, next)`. */
  method Protect(req: Request, crypto: Crypto)
    modifies req
    ensures req.authorization == old(req.authorization)
    ensures match Authenticate(old(req.authorization), crypto)
      case Reject(code, msg) =>
        req.user == old(req.user) && req.nextCalls == old(req.nextCalls) && req.response == Some((code, msg))
      case Admit(c) =>
        req.user == Some(c) && req.nextCalls == old(req.nextCalls) + 1 && req.response == old(req.response)
  {
    var header := req.authorization;
    if header.None? || header.value == "" {
      req.response := Some((401, "No token, authorization denied"));
      return;
    }
    var token := ExtractToken(header.value);
    var decoded := crypto.verify(token);
    if decoded.None? {
      req.response := Some((401, "Token is not valid"));
      return;
    }
    req.user := decoded;
    req.nextCalls := req.nextCalls + 1;
  }
}
