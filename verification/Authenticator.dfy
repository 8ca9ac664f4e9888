// The authenticator object in front of the store: vet the request, then
// consume its nonce.
module Authenticator {
  import opened Base
  import opened Wire
  import opened RequestAuth
  import opened AuthorityStore

  class HMACRequestAuthenticator {
    const scheme: Scheme
    const skew: real
    const retention: real
    const store: DistributedAuthorityStore

    constructor (store: DistributedAuthorityStore, scheme: Scheme, skew: real, nonceRetention: real)
      requires skew > 0.0 && nonceRetention > 0.0
      ensures this.store == store && this.scheme == scheme && this.skew == skew
      ensures retention >= 2.0 * skew && retention >= nonceRetention
      ensures retention == 2.0 * skew || retention == nonceRetention
    {
      this.store := store;
      this.scheme := scheme;
      this.skew := skew;
      this.retention := if nonceRetention >= 2.0 * skew then nonceRetention else 2.0 * skew;
    }

    // `now` is the authenticator's reading of the clock and `later` the one the
    // store makes inside its own transaction.
    method Verify(r: Request, now: real, later: real) returns (reply: Result<(Id, Id), AuthError>)
      requires retention > 0.0
      modifies store`nonces
      ensures reply == Verdict(scheme, skew, retention, old(store.nonces), r, now, later)
      ensures store.nonces == Remember(scheme, skew, retention, old(store.nonces), r, now, later)
      ensures reply.Ok? <==> && r.worker in scheme.credentials
                             && scheme.lower(r.signature) == scheme.sign(scheme.credentials[r.worker], r.fields)
                             && Strip(r.fields.instance) != "" && Strip(r.fields.nonce) != ""
                             && Strip(r.fields.timestamp) != "" && Strip(r.signature) != ""
                             && Near(scheme.parse(r.fields.timestamp), now, skew)
                             && !(r.Key() in old(store.nonces) && later - retention <= old(store.nonces)[r.Key()])
      ensures reply.Ok? ==> reply.value == (r.worker, r.fields.instance) && r.Key() in store.nonces && store.nonces[r.Key()] == later
    {
      if r.worker !in scheme.credentials {
        return Err(UnknownCredential);
      }
      var secret := scheme.credentials[r.worker];
      if Strip(r.fields.instance) == "" || Strip(r.fields.nonce) == "" || Strip(r.fields.timestamp) == ""
         || Strip(r.signature) == "" {
        return Err(MissingMetadata);
      }
      var stamp := scheme.parse(r.fields.timestamp);
      if stamp.Malformed? {
        return Err(InvalidTimestamp);
      }
      if Expired(stamp, now, skew) {
        return Err(ExpiredTimestamp);
      }
      var expected := scheme.sign(secret, r.fields);
      if expected != scheme.lower(r.signature) {
        return Err(InvalidSignature);
      }
      var inserted := store.ConsumeRequestNonce(r.Key(), retention, later);
      if inserted == Ok(false) {
        return Err(NonceReplay);
      }
      return Ok((r.worker, r.fields.instance));
    }
  }
}
