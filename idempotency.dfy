/**
 * Idempotency records: a request key, the hash of the request body it was
 * first used with, and the response that request produced. The key column of
 * the store is unique, so an insert under a key that is already present is
 * refused by the store.
 *
 * SHA-256 is an input: a function into 64-character lower-case hex strings.
 */
module Idempotency {
  import opened Common
  import opened Domain

  predicate IsLowerHex(c: char) {
    '0' <= c <= '9' || 'a' <= c <= 'f'
  }

  /** A hex-encoded SHA-256 digest. */
  type Digest = s: string | |s| == 64 && forall i | 0 <= i < |s| :: IsLowerHex(s[i])
    witness seq(64, _ => '0')

  /**
   * A stored record. The response body is kept as the response value it
   * serialises; reading it back yields the same value.
   */
  datatype IdempotencyRecord = IdempotencyRecord(
    key: string, requestHash: Digest, response: PaymentResponse, createdAt: Instant)

  predicate UniqueKeys(records: seq<IdempotencyRecord>) {
    forall i, j | 0 <= i < j < |records| :: records[i].key != records[j].key
  }

  /** `findByIdempotencyKey(key)`. */
  function FindRecord(records: seq<IdempotencyRecord>, key: string): (r: Option<IdempotencyRecord>)
    ensures r.Some? ==> r.value in records && r.value.key == key
    ensures r.None? <==> forall rec | rec in records :: rec.key != key
  {
    if records == [] then None
    else if records[0].key == key then Some(records[0])
    else FindRecord(records[1..], key)
  }

  /** Under unique keys, the record found is the one stored under that key. */
  lemma {:induction false} FindRecordIsTheStoredOne(records: seq<IdempotencyRecord>, i: nat)
    requires UniqueKeys(records) && i < |records|
    ensures FindRecord(records, records[i].key) == Some(records[i])
  {
    if i > 0 {
      assert records[0].key != records[i].key;
      assert records[1..][i - 1] == records[i];
      FindRecordIsTheStoredOne(records[1..], i - 1);
    }
  }

  /** Adding a record under a fresh key keeps keys unique and makes that record the answer for its key only. */
  lemma {:induction false} FindAfterAppend(records: seq<IdempotencyRecord>, rec: IdempotencyRecord, key: string)
    requires UniqueKeys(records)
    requires FindRecord(records, rec.key).None?
    ensures UniqueKeys(records + [rec])
    ensures FindRecord(records + [rec], key) == (if key == rec.key then Some(rec) else FindRecord(records, key))
  {
    var all := records + [rec];
    forall i, j | 0 <= i < j < |all|
      ensures all[i].key != all[j].key
    {
      if j == |records| {
        assert all[i] in records;
      }
    }
    if key == rec.key {
      FindRecordIsTheStoredOne(all, |records|);
    } else {
      FindOtherKeyAfterAppend(records, rec, key);
    }
  }

  lemma {:induction false} FindOtherKeyAfterAppend(records: seq<IdempotencyRecord>, rec: IdempotencyRecord, key: string)
    requires key != rec.key
    ensures FindRecord(records + [rec], key) == FindRecord(records, key)
  {
    if records == [] {
      assert records + [rec] == [rec];
      assert [rec][1..] == [];
    } else {
      assert (records + [rec])[1..] == records[1..] + [rec];
      FindOtherKeyAfterAppend(records[1..], rec, key);
    }
  }

  class IdempotencyService {
    var records: seq<IdempotencyRecord>
    /** SHA-256 rendered as lower-case hex. */
    const digest: string -> Digest

    constructor(digest: string -> Digest)
      ensures records == [] && this.digest == digest
    {
      records := [];
      this.digest := digest;
    }

    predicate Valid()
      reads this
    {
      UniqueKeys(records)
    }

    /** `find(key)`. */
    function Find(key: string): Option<IdempotencyRecord>
      reads this
    {
      FindRecord(records, key)
    }

    /** `hash(input)`: deterministic, 64 lower-case hex characters. */
    function Hash(input: string): (h: string)
      ensures |h| == 64 && forall i | 0 <= i < |h| :: IsLowerHex(h[i])
    {
      digest(input)
    }

    /**
     * `save(key, requestHash, responseBody)`: appends a record holding the
     * key, hash and response as given. The store's unique key column refuses
     * a key that is already present: the write fails and nothing is stored.
     */
    method Save(key: string, requestHash: Digest, response: PaymentResponse, now: Instant)
      returns (r: Result<IdempotencyRecord, Fault>)
      requires Valid()
      modifies this
      ensures Valid()
      ensures r.Ok? <==> FindRecord(old(records), key).None?
      ensures r.Ok? ==> r.value == IdempotencyRecord(key, requestHash, response, now)
      ensures r.Err? ==> r.error == Unexpected(DataIntegrityViolation)
      ensures records == if r.Ok? then old(records) + [r.value] else old(records)
    {
      var rec := IdempotencyRecord(key, requestHash, response, now);
      if FindRecord(records, key).None? {
        FindAfterAppend(records, rec, key);
        records := records + [rec];
        r := Ok(rec);
      } else {
        r := Err(Unexpected(DataIntegrityViolation));
      }
    }
  }
}
