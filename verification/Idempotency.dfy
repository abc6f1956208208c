/** The claim map: a key is claimed for a time window and cannot be claimed again inside it. */
module Idempotency {
  function Free(keys: map<string, real>, key: string, now: real): bool {
    !(key in keys && keys[key] > now)
  }

  function Claim(keys: map<string, real>, key: string, ttl: real, now: real): map<string, real> {
    if Free(keys, key, now) then keys[key := now + ttl] else keys
  }

  class InMemoryIdempotencyStore {
    var keys: map<string, real>

    constructor ()
      ensures keys == map[]
    {
      keys := map[];
    }

    /** `now` is the reading of the monotonic clock. */
    method TryAcquire(key: string, ttlSeconds: int, now: real) returns (acquired: bool)
      modifies this
      ensures acquired == Free(old(keys), key, now)
      ensures keys == Claim(old(keys), key, ttlSeconds as real, now)
    {
      if key in keys {
        var expiry := keys[key];
        if expiry > now {
          return false;
        }
      }
      keys := keys[key := now + ttlSeconds as real];
      acquired := true;
    }

    method Clear()
      modifies this
      ensures keys == map[]
    {
      keys := map[];
    }
  }

  /**
   * A successful claim blocks exactly its own key, for exactly the window; a refused claim
   * leaves the running window as it was.
   */
  lemma ClaimWindow(keys: map<string, real>, key: string, ttl: real, now: real, other: string, later: real)
    requires ttl > 0.0
    ensures var after := Claim(keys, key, ttl, now);
      && !Free(after, key, now)
      && (Free(keys, key, now) ==> (Free(after, key, later) <==> later >= now + ttl))
      && (!Free(keys, key, now) ==> after == keys)
      && (other != key ==> (Free(after, other, later) <==> Free(keys, other, later)))
  {
  }
}
