/** The board's hash-chained, append-only ledger: `append_ledger` and
    `verify_ledger` of quasi-board/server.py, the completion-slot count of the
    ledger view, and what the chain guarantees. */
module Ledger {
  import opened Common
  import opened JsonValues

  /** One ledger entry: the JSON object stored in the chain. The webhook adds
      keys the inbox does not, so an entry is an open map, not a record. */
  type Entry = map<string, Json>

  /** SHA-256 (hex) of the sorted-key JSON text of an entry. Neither the
      digest nor the serialisation is modelled; since an entry is a map, the
      sorted-key text, and so the digest, depends on the map alone. */
  type Digest = Entry -> string

  /** `"0" * 64`: the prev_hash of the first entry. */
  const ZERO_HASH: string := Zeros(64)

  /** The fields append_ledger writes over the candidate's. */
  const STAMPED: set<string> := {"id", "timestamp", "prev_hash", "entry_hash"}

  /** Every field of an entry except its own digest. */
  function Unhashed(e: Entry): Entry {
    e - {"entry_hash"}
  }

  /** The entry_hash an entry must carry. */
  function ExpectedHash(e: Entry, h: Digest): Json {
    JStr(h(Unhashed(e)))
  }

  /** The prev_hash the verifier expects at position i. The verifier reaches
      position i only after entry i - 1 passed, which needs its entry_hash, so
      the default below is never what it compares against. */
  function ExpectedPrev(chain: seq<Entry>, i: nat): Json
    requires i < |chain|
  {
    if i == 0 then JStr(ZERO_HASH) else Get(chain[i - 1], "entry_hash", JNull)
  }

  /** How one entry fares in verify_ledger: a missing field raises KeyError. */
  datatype Check = Sound | Mismatch | Missing(key: string)

  function CheckEntry(chain: seq<Entry>, i: nat, h: Digest): Check
    requires i < |chain|
  {
    var e := chain[i];
    if "prev_hash" !in e then Missing("prev_hash")
    else if e["prev_hash"] != ExpectedPrev(chain, i) then Mismatch
    else if "entry_hash" !in e then Missing("entry_hash")
    else if e["entry_hash"] != ExpectedHash(e, h) then Mismatch
    else Sound
  }

  /** Every entry before position k checks out. */
  predicate SoundBefore(chain: seq<Entry>, k: nat, h: Digest)
    requires k <= |chain|
  {
    forall i :: 0 <= i < k ==> CheckEntry(chain, i, h) == Sound
  }

  /** The chain invariant: every entry links to its predecessor and its
      digest recomputes. The empty chain is valid. */
  predicate ChainValid(chain: seq<Entry>, h: Digest) {
    SoundBefore(chain, |chain|, h)
  }

  /** A KeyError raised while reading entry `index`. */
  datatype Fault = KeyError(index: nat, key: string)

  /** The prev_hash the next entry gets: the last entry's entry_hash, or
      ZERO_HASH for the first; None when the last entry has no entry_hash
      (append_ledger raises KeyError before changing anything). */
  function NextPrev(chain: seq<Entry>): (r: Option<Json>)
    ensures chain == [] ==> r == Some(JStr(ZERO_HASH))
    ensures chain != [] ==> (r.Some? <==> "entry_hash" in chain[|chain| - 1])
    ensures chain != [] && r.Some? ==> r.value == chain[|chain| - 1]["entry_hash"]
  {
    if chain == [] then Some(JStr(ZERO_HASH))
    else if "entry_hash" in chain[|chain| - 1] then Some(chain[|chain| - 1]["entry_hash"])
    else None
  }

  /** The candidate entry as append_ledger completes it. */
  function Seal(candidate: Entry, id: int, now: string, prev: Json, h: Digest): (e: Entry)
    ensures e.Keys == candidate.Keys + STAMPED
    ensures e["id"] == JInt(id) && e["timestamp"] == JStr(now) && e["prev_hash"] == prev
    ensures e["entry_hash"] == ExpectedHash(e, h)
    ensures forall k :: k in candidate && k !in STAMPED ==> e[k] == candidate[k]
  {
    var stamped := candidate["id" := JInt(id)]["timestamp" := JStr(now)]["prev_hash" := prev];
    var e := stamped["entry_hash" := JStr(h(stamped - {"entry_hash"}))];
    assert Unhashed(e) == stamped - {"entry_hash"};
    e
  }

  /** The chain after one append_ledger call. */
  function Appended(chain: seq<Entry>, candidate: Entry, now: string, h: Digest): seq<Entry> {
    match NextPrev(chain)
    case None => chain
    case Some(prev) => chain + [Seal(candidate, |chain| + 1, now, prev, h)]
  }

  /** The ledger as the board keeps it: the loaded chain and the digest. */
  class LedgerStore {
    var chain: seq<Entry>
    const hash: Digest

    /** `load_ledger()`: whatever the ledger file held (empty if none). */
    constructor (loaded: seq<Entry>, hash: Digest)
      ensures chain == loaded && this.hash == hash
    {
      chain := loaded;
      this.hash := hash;
    }

    /** `append_ledger(entry)`: stamps id, timestamp and prev_hash onto the
        candidate, adds its digest and appends it. `now` is the clock. */
    method Append(candidate: Entry, now: string) returns (r: Result<Entry, Fault>)
      modifies this`chain
      ensures chain == Appended(old(chain), candidate, now, hash)
      ensures NextPrev(old(chain)).None? ==> r == Failure(KeyError(|old(chain)| - 1, "entry_hash"))
      ensures NextPrev(old(chain)).Some? ==>
        r == Success(Seal(candidate, |old(chain)| + 1, now, NextPrev(old(chain)).value, hash))
        && chain == old(chain) + [r.value]
    {
      var n := |chain|;
      var prev: Json;
      if n == 0 {
        prev := JStr(ZERO_HASH);
      } else if "entry_hash" in chain[n - 1] {
        prev := chain[n - 1]["entry_hash"];
      } else {
        return Failure(KeyError(n - 1, "entry_hash"));
      }
      var entry := candidate;
      entry := entry["id" := JInt(n + 1)];
      entry := entry["timestamp" := JStr(now)];
      entry := entry["prev_hash" := prev];
      entry := entry["entry_hash" := JStr(hash(entry - {"entry_hash"}))];
      chain := chain + [entry];
      r := Success(entry);
    }

    /** `verify_ledger()`: true exactly for a valid chain; otherwise false at
        the first mismatching entry, or the KeyError of the first entry that
        lacks a field. */
    method Verify() returns (r: Result<bool, Fault>)
      ensures r == Success(true) <==> ChainValid(chain, hash)
      ensures r == Success(false) ==>
        exists k :: 0 <= k < |chain| && SoundBefore(chain, k, hash) && CheckEntry(chain, k, hash) == Mismatch
      ensures r.Failure? ==>
        r.error.index < |chain| && SoundBefore(chain, r.error.index, hash)
        && CheckEntry(chain, r.error.index, hash) == Missing(r.error.key)
    {
      var i := 0;
      while i < |chain|
        invariant 0 <= i <= |chain|
        invariant SoundBefore(chain, i, hash)
      {
        var entry := chain[i];
        if i > 0 {
          assert CheckEntry(chain, i - 1, hash) == Sound;
        }
        var prev := if i > 0 then chain[i - 1]["entry_hash"] else JStr(ZERO_HASH);
        assert prev == ExpectedPrev(chain, i);
        if "prev_hash" !in entry {
          assert CheckEntry(chain, i, hash) == Missing("prev_hash");
          return Failure(KeyError(i, "prev_hash"));
        }
        if entry["prev_hash"] != prev {
          assert CheckEntry(chain, i, hash) == Mismatch;
          return Success(false);
        }
        var expected := hash(entry - {"entry_hash"});
        if "entry_hash" !in entry {
          assert CheckEntry(chain, i, hash) == Missing("entry_hash");
          return Failure(KeyError(i, "entry_hash"));
        }
        if entry["entry_hash"] != JStr(expected) {
          assert CheckEntry(chain, i, hash) == Mismatch;
          return Success(false);
        }
        i := i + 1;
      }
      return Success(true);
    }
  }

  // ---------------------------------------------------------------------------
  // What appending guarantees

  /** Ids are exactly 1..N in chain order. */
  predicate DenseIds(chain: seq<Entry>) {
    forall i :: 0 <= i < |chain| ==> Get(chain[i], "id", JNull) == JInt(i + 1)
  }

  /** Appending to a valid chain cannot fail, grows it by exactly one entry
      at the end, leaves every earlier entry as it was, and keeps it valid;
      dense ids stay dense. */
  lemma AppendKeepsChainValid(chain: seq<Entry>, candidate: Entry, now: string, h: Digest)
    requires ChainValid(chain, h)
    ensures NextPrev(chain).Some?
    ensures var c := Appended(chain, candidate, now, h);
      |c| == |chain| + 1 && c[..|chain|] == chain && ChainValid(c, h)
      && (DenseIds(chain) ==> DenseIds(c))
  {
    if chain != [] {
      assert CheckEntry(chain, |chain| - 1, h) == Sound;
    }
    var prev := NextPrev(chain).value;
    var e := Seal(candidate, |chain| + 1, now, prev, h);
    var c := chain + [e];
    forall i | 0 <= i < |c| ensures CheckEntry(c, i, h) == Sound {
      if i < |chain| {
        assert c[i] == chain[i];
        assert i > 0 ==> c[i - 1] == chain[i - 1];
        assert ExpectedPrev(c, i) == ExpectedPrev(chain, i);
        assert CheckEntry(chain, i, h) == Sound;
      } else {
        assert ExpectedPrev(c, i) == prev;
      }
    }
    assert c[..|chain|] == chain;
  }

  /** The chain a fresh ledger holds after the given appends, in order. */
  function Replay(candidates: seq<Entry>, nows: seq<string>, h: Digest): seq<Entry>
    requires |candidates| == |nows|
  {
    if candidates == [] then []
    else
      var n := |candidates| - 1;
      Appended(Replay(candidates[..n], nows[..n], h), candidates[n], nows[n], h)
  }

  /** Any sequence of appends to an empty ledger yields a valid chain of one
      entry per append, with ids exactly 1..N. */
  lemma {:induction false} ReplayValid(candidates: seq<Entry>, nows: seq<string>, h: Digest)
    requires |candidates| == |nows|
    ensures var c := Replay(candidates, nows, h);
      |c| == |candidates| && ChainValid(c, h) && DenseIds(c)
  {
    if candidates != [] {
      var n := |candidates| - 1;
      ReplayValid(candidates[..n], nows[..n], h);
      AppendKeepsChainValid(Replay(candidates[..n], nows[..n], h), candidates[n], nows[n], h);
    }
  }

  // ---------------------------------------------------------------------------
  // Tamper evidence. Each lemma assumes that the digest does not collide on
  // the one pair of field sets it compares (an assumption about SHA-256,
  // not a fact proved here).

  lemma SameUnhashed(a: Entry, b: Entry)
    requires "entry_hash" in a && "entry_hash" in b && a["entry_hash"] == b["entry_hash"]
    requires Unhashed(a) == Unhashed(b)
    ensures a == b
  {
    forall k | k in a ensures k in b && a[k] == b[k] {
      if k != "entry_hash" {
        assert k in Unhashed(a);
      }
    }
    forall k | k in b ensures k in a {
      if k != "entry_hash" {
        assert k in Unhashed(b);
      }
    }
  }

  /** Changing one field of one entry of a valid chain, the last included,
      makes verification fail, unless the edited fields collide with the
      original ones under the digest. */
  lemma FieldEditDetected(chain: seq<Entry>, h: Digest, k: nat, f: string, v: Json)
    requires ChainValid(chain, h)
    requires k < |chain| && chain[k][f := v] != chain[k]
    requires h(Unhashed(chain[k][f := v])) == h(Unhashed(chain[k])) ==>
      Unhashed(chain[k][f := v]) == Unhashed(chain[k])
    ensures !ChainValid(chain[k := chain[k][f := v]], h)
  {
    var e := chain[k];
    var e' := e[f := v];
    var c := chain[k := e'];
    assert CheckEntry(chain, k, h) == Sound;
    assert k > 0 ==> c[k - 1] == chain[k - 1];
    assert ExpectedPrev(c, k) == ExpectedPrev(chain, k);
    if f == "entry_hash" {
      assert Unhashed(e') == Unhashed(e);
      assert CheckEntry(c, k, h) != Sound;
    } else if f == "prev_hash" {
      assert CheckEntry(c, k, h) != Sound;
    } else {
      assert f in Unhashed(e') && Unhashed(e')[f] == v;
      assert Unhashed(e') != Unhashed(e) by {
        if Unhashed(e') == Unhashed(e) {
          SameUnhashed(e, e');
        }
      }
      assert CheckEntry(c, k, h) != Sound;
    }
  }

  /** Replacing any entry but the last of a valid chain by a different one
      makes verification fail: its successor's prev_hash pins its digest,
      unless the new fields collide with the old ones under the digest. */
  lemma RewriteDetected(chain: seq<Entry>, h: Digest, k: nat, e: Entry)
    requires ChainValid(chain, h)
    requires k + 1 < |chain| && e != chain[k]
    requires h(Unhashed(e)) == h(Unhashed(chain[k])) ==> Unhashed(e) == Unhashed(chain[k])
    ensures !ChainValid(chain[k := e], h)
  {
    var c := chain[k := e];
    if ChainValid(c, h) {
      assert CheckEntry(chain, k, h) == Sound;
      assert CheckEntry(chain, k + 1, h) == Sound;
      assert CheckEntry(c, k, h) == Sound;
      assert CheckEntry(c, k + 1, h) == Sound;
      assert c[k + 1] == chain[k + 1];
      assert e["entry_hash"] == chain[k]["entry_hash"];
      assert h(Unhashed(e)) == h(Unhashed(chain[k]));
      SameUnhashed(e, chain[k]);
    }
  }

  /** Swapping two neighbouring entries of a valid chain makes verification
      fail, unless the earlier one's digest equals its own prev_hash: the
      later entry, moved forward, still links to the earlier one. */
  lemma SwapDetected(chain: seq<Entry>, h: Digest, k: nat)
    requires ChainValid(chain, h) && k + 1 < |chain|
    requires "entry_hash" in chain[k] && "prev_hash" in chain[k] ==>
      chain[k]["entry_hash"] != chain[k]["prev_hash"]
    ensures !ChainValid(chain[k := chain[k + 1]][k + 1 := chain[k]], h)
  {
    var c := chain[k := chain[k + 1]][k + 1 := chain[k]];
    assert CheckEntry(chain, k, h) == Sound;
    assert CheckEntry(chain, k + 1, h) == Sound;
    assert ExpectedPrev(c, k) == ExpectedPrev(chain, k);
    assert c[k] == chain[k + 1];
    assert CheckEntry(c, k, h) != Sound;
  }

  // ---------------------------------------------------------------------------
  // Completion slots shown by the ledger view

  const GENESIS_SLOTS: int := 50

  /** `e.get("type") == "completion"`. */
  predicate IsCompletion(e: Entry) {
    Get(e, "type", JNull) == JStr("completion")
  }

  /** The number of completion entries, counted front to back. */
  function CompletionCount(chain: seq<Entry>): (n: nat)
    ensures n <= |chain|
  {
    if chain == [] then 0
    else (if IsCompletion(chain[0]) then 1 else 0) + CompletionCount(chain[1..])
  }

  /** `max(0, 50 - len([e for e in chain if e.get("type") == "completion"]))`. */
  function SlotsRemaining(chain: seq<Entry>): (r: int)
    ensures 0 <= r <= GENESIS_SLOTS
  {
    if GENESIS_SLOTS - CompletionCount(chain) < 0 then 0 else GENESIS_SLOTS - CompletionCount(chain)
  }

  lemma {:induction false} CompletionCountAppend(chain: seq<Entry>, e: Entry)
    ensures CompletionCount(chain + [e]) == CompletionCount(chain) + (if IsCompletion(e) then 1 else 0)
  {
    if chain != [] {
      assert (chain + [e])[1..] == chain[1..] + [e];
      CompletionCountAppend(chain[1..], e);
    }
  }

  /** An appended entry takes one slot if it is a completion and slots are
      left, and none otherwise; in particular slots never increase. */
  lemma SlotsAfterAppend(chain: seq<Entry>, e: Entry)
    ensures SlotsRemaining(chain + [e]) ==
      if IsCompletion(e) && SlotsRemaining(chain) > 0 then SlotsRemaining(chain) - 1 else SlotsRemaining(chain)
    ensures SlotsRemaining(chain + [e]) <= SlotsRemaining(chain)
  {
    CompletionCountAppend(chain, e);
  }
}
