/** The negative cache: a time cache whose entries keep the time they were first added. */
module TimeCaches {
  import opened Peers

  type Time = nat

  /** Adding a key that is present leaves its time alone. */
  function Added(cache: map<Key, Time>, k: Key, now: Time): map<Key, Time> {
    if k in cache then cache else cache[k := now]
  }

  /** idempotentTimeCache; its own mutex makes each method one step. */
  class IdempotentTimeCache {
    const span: nat
    var entries: map<Key, Time>

    constructor (span: nat)
      ensures this.span == span && entries == map[]
    {
      this.span := span;
      entries := map[];
    }

    predicate Has(k: Key)
      reads this
    {
      k in entries
    }

    function Len(): nat
      reads this
    {
      |entries|
    }

    /** The underlying cache also sweeps out entries that are at least `span` old. */
    method Add(k: Key, now: Time, expired: set<Key>)
      requires expired <= entries.Keys && forall e | e in expired :: entries[e] + span <= now
      modifies this`entries
      ensures Has(k)
      ensures old(Has(k)) ==> entries == old(entries)
      ensures !old(Has(k)) ==> entries == Added(old(entries) - expired, k, now)
      ensures forall e | e in old(entries) && now < old(entries)[e] + span :: e in entries && entries[e] == old(entries)[e]
    {
      if !Has(k) {
        entries := entries - expired;
        entries := entries[k := now];
      }
    }
  }
}
