/**
 * `trueIp`: restores the visitor's address behind a proxy. The address is the
 * first truthy value among the `cf-connecting-ip` header, the `x-forwarded-for`
 * header and the socket's remote address; it is stored in `req.cf_ip` only
 * when there is one, and `next()` is called once with no error.
 */
module ClientIp {
  import opened Wrappers
  import opened JsString
  import opened Express

  /** `cf || forwarded || remote`. */
  function ResolvedIp(cf: JsStr, forwarded: JsStr, remote: JsStr): (r: JsStr)
    ensures Truthy(cf) ==> r == cf
    ensures !Truthy(cf) && Truthy(forwarded) ==> r == forwarded
    ensures !Truthy(cf) && !Truthy(forwarded) ==> r == remote
    ensures Truthy(r) <==> Truthy(cf) || Truthy(forwarded) || Truthy(remote)
  {
    Or(Or(cf, forwarded), remote)
  }

  /** The value `req.cf_ip` holds after `trueIp`, given the value it held before. */
  function CfIpAfter(headers: map<string, string>, remote: JsStr, before: JsStr): (after: JsStr)
    ensures Truthy(Field(headers, "cf-connecting-ip")) ==> after == Some(headers["cf-connecting-ip"])
    ensures !Truthy(Field(headers, "cf-connecting-ip")) && Truthy(Field(headers, "x-forwarded-for")) ==>
      after == Some(headers["x-forwarded-for"])
    ensures !Truthy(Field(headers, "cf-connecting-ip")) && !Truthy(Field(headers, "x-forwarded-for")) ==>
      after == (if Truthy(remote) then remote else before)
    ensures after != before ==> Truthy(after)
  {
    var header := ResolvedIp(Field(headers, "cf-connecting-ip"), Field(headers, "x-forwarded-for"), remote);
    if Truthy(header) then header else before
  }

  /** `trueIp` acting on a request: only `req.cf_ip` may change, and `next()` is called once. */
  method TrueIp(req: Request) returns (effects: seq<Effect>)
    modifies req`cfIp
    ensures req.cfIp == CfIpAfter(req.headers, req.remoteAddress, old(req.cfIp))
    ensures req.user == old(req.user)
    ensures effects == [Next(None)] && NextCalls(effects) == 1
  {
    var header := Or(Or(Field(req.headers, "cf-connecting-ip"), Field(req.headers, "x-forwarded-for")),
                     req.remoteAddress);
    if Truthy(header) {
      req.cfIp := header;
    }
    effects := [Next(None)];
  }
}
