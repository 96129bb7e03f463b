/** The bounded least-recently-used cache that flags duplicate events. */
module DuplicateCache {
  type Hash = string

  // ---- specification over whole traces ---------------------------------------------------------

  function Without(s: seq<Hash>, h: Hash): (r: seq<Hash>)
    ensures forall x :: x in r <==> x in s && x != h
    ensures |r| <= |s|
  {
    if s == [] then []
    else if s[0] == h then Without(s[1..], h)
    else [s[0]] + Without(s[1..], h)
  }

  /** Inserting or re-inserting a key and moving it to the end. */
  function Touch(entries: seq<Hash>, h: Hash): seq<Hash> {
    Without(entries, h) + [h]
  }

  /** The last `n` elements, or all of them when there are fewer. */
  function Newest(s: seq<Hash>, n: nat): seq<Hash> {
    if |s| <= n then s else s[|s| - n..]
  }

  /** The distinct hashes of a trace in the order of their last use: no bound, no eviction. */
  function Recency(trace: seq<Hash>): seq<Hash> {
    if trace == [] then [] else Touch(Recency(trace[..|trace| - 1]), trace[|trace| - 1])
  }

  /** The entries of a cache of capacity `n` that has served a trace. */
  function Entries(trace: seq<Hash>, n: nat): seq<Hash> {
    if trace == [] then [] else Newest(Touch(Entries(trace[..|trace| - 1], n), trace[|trace| - 1]), n)
  }

  function Distinct(s: seq<Hash>): set<Hash> {
    set h | h in s
  }

  /** `h` occurred in the trace, and fewer than `n` distinct hashes have been seen since it last did. */
  ghost predicate SeenWithin(trace: seq<Hash>, h: Hash, n: nat) {
    exists k :: 0 <= k < |trace| && trace[k] == h && h !in trace[k + 1..] && |Distinct(trace[k + 1..])| < n
  }

  // ---- the entries are the most recent distinct hashes -------------------------------------------

  predicate NoDuplicates(s: seq<Hash>) {
    forall i, j :: 0 <= i < j < |s| ==> s[i] != s[j]
  }

  lemma {:induction false} WithoutAppend(a: seq<Hash>, b: seq<Hash>, h: Hash)
    ensures Without(a + b, h) == Without(a, h) + Without(b, h)
  {
    if a == [] {
      assert a + b == b;
    } else {
      assert (a + b)[1..] == a[1..] + b;
      WithoutAppend(a[1..], b, h);
    }
  }

  lemma {:induction false} WithoutAbsent(s: seq<Hash>, h: Hash)
    requires h !in s
    ensures Without(s, h) == s
  {
    if s != [] {
      WithoutAbsent(s[1..], h);
    }
  }

  lemma {:induction false} WithoutNoDuplicates(s: seq<Hash>, h: Hash)
    requires NoDuplicates(s)
    ensures NoDuplicates(Without(s, h))
    ensures |Without(s, h)| == |s| - (if h in s then 1 else 0)
  {
    if s != [] {
      WithoutNoDuplicates(s[1..], h);
      if s[0] == h {
        assert h !in s[1..];
      } else {
        var rest := Without(s[1..], h);
        forall j | 0 <= j < |rest| ensures rest[j] != s[0] {
          assert rest[j] in s[1..];
        }
      }
    }
  }

  lemma {:induction false} RecencyNoDuplicates(trace: seq<Hash>)
    ensures NoDuplicates(Recency(trace))
    ensures forall h :: h in Recency(trace) <==> h in trace
  {
    if trace != [] {
      var before := Recency(trace[..|trace| - 1]);
      RecencyNoDuplicates(trace[..|trace| - 1]);
      WithoutNoDuplicates(before, trace[|trace| - 1]);
      assert trace == trace[..|trace| - 1] + [trace[|trace| - 1]];
    }
  }

  /** Evicting before or after a touch gives the same newest entries. */
  lemma TouchAfterEviction(s: seq<Hash>, h: Hash, n: nat)
    requires NoDuplicates(s) && n > 0
    ensures Newest(Touch(Newest(s, n), h), n) == Newest(Touch(s, h), n)
  {
    if |s| > n {
      var evicted, kept := s[..|s| - n], s[|s| - n..];
      assert s == evicted + kept;
      WithoutAppend(evicted, kept, h);
      WithoutNoDuplicates(kept, h);
      WithoutNoDuplicates(evicted, h);
      if h in kept {
        assert h !in evicted by {
          var j :| 0 <= j < |kept| && kept[j] == h;
          assert s[|s| - n + j] == h;
        }
        WithoutAbsent(evicted, h);
      }
      assert Touch(s, h) == Without(evicted, h) + Touch(kept, h);
      NewestOfAppend(Without(evicted, h), Touch(kept, h), n);
    }
  }

  lemma NewestOfAppend(a: seq<Hash>, b: seq<Hash>, n: nat)
    requires |b| >= n
    ensures Newest(a + b, n) == Newest(b, n)
  {
  }

  /** After every trace the entries are exactly the `n` most recent distinct hashes, in last-use order. */
  lemma {:induction false} EntriesAreNewest(trace: seq<Hash>, n: nat)
    requires n > 0
    ensures Entries(trace, n) == Newest(Recency(trace), n)
  {
    if trace != [] {
      EntriesAreNewest(trace[..|trace| - 1], n);
      RecencyNoDuplicates(trace[..|trace| - 1]);
      TouchAfterEviction(Recency(trace[..|trace| - 1]), trace[|trace| - 1], n);
    }
  }

  // ---- what a hit means ----------------------------------------------------------------------------

  /** In the recency order, what comes after a hash is what the trace saw after its last occurrence. */
  lemma {:induction false} RecencyTail(trace: seq<Hash>, k: nat) returns (older: seq<Hash>, newer: seq<Hash>)
    requires k < |trace| && trace[k] !in trace[k + 1..]
    ensures Recency(trace) == older + [trace[k]] + newer
    ensures Distinct(newer) == Distinct(trace[k + 1..])
  {
    var n := |trace| - 1;
    var h, last := trace[k], trace[n];
    var prefix := trace[..n];
    if k == n {
      older, newer := Without(Recency(prefix), h), [];
      assert trace[k + 1..] == [];
    } else {
      assert trace[k + 1..] == prefix[k + 1..] + [last];
      assert last in trace[k + 1..] && last != h;
      var a, b := RecencyTail(prefix, k);
      WithoutAppend(a + [h], b, last);
      WithoutAppend(a, [h], last);
      WithoutAbsent([h], last);
      older, newer := Without(a, last), Without(b, last) + [last];
      assert Recency(trace) == (Without(a, last) + [h] + Without(b, last)) + [last];
      assert Recency(trace) == older + [h] + newer;
      forall x ensures x in Distinct(newer) <==> x in Distinct(trace[k + 1..]) {
        assert x in b <==> x in Distinct(b);
        assert x in prefix[k + 1..] <==> x in Distinct(prefix[k + 1..]);
      }
    }
  }

  lemma {:induction false} DistinctSize(s: seq<Hash>)
    requires NoDuplicates(s)
    ensures |Distinct(s)| == |s|
  {
    if s == [] {
      assert Distinct(s) == {};
    } else {
      DistinctSize(s[1..]);
      assert s[0] !in s[1..];
      assert Distinct(s) == {s[0]} + Distinct(s[1..]);
    }
  }

  lemma LastOccurrence(trace: seq<Hash>, h: Hash) returns (k: nat)
    requires h in trace
    ensures k < |trace| && trace[k] == h && h !in trace[k + 1..]
  {
    k := |trace| - 1;
    while trace[k] != h
      invariant k < |trace| && h in trace[..k + 1] && h !in trace[k + 1..]
      decreases k
    {
      assert trace[k..] == [trace[k]] + trace[k + 1..];
      assert trace[..k + 1] == trace[..k] + [trace[k]];
      k := k - 1;
    }
  }

  lemma OccurrenceHit(trace: seq<Hash>, k: nat, n: nat)
    requires k < |trace| && trace[k] !in trace[k + 1..]
    ensures trace[k] in Newest(Recency(trace), n) <==> |Distinct(trace[k + 1..])| < n
  {
    var older, newer := RecencyTail(trace, k);
    RecencyNoDuplicates(trace);
    InNewest(older, trace[k], newer, n);
  }

  lemma InNewest(older: seq<Hash>, h: Hash, newer: seq<Hash>, n: nat)
    requires NoDuplicates(older + [h] + newer)
    ensures h in Newest(older + [h] + newer, n) <==> |Distinct(newer)| < n
  {
    var r := older + [h] + newer;
    assert r[|older|] == h;
    assert forall i :: 0 <= i < |newer| ==> newer[i] == r[|older| + 1 + i];
    DistinctSize(newer);
    if |r| > n && |newer| < n {
      assert Newest(r, n)[|older| - (|r| - n)] == h;
    } else if |r| > n {
      assert forall i :: 0 <= i < n ==> Newest(r, n)[i] == r[|r| - n + i];
    }
  }

  /** A hash is in the cache exactly when it occurred before and fewer than `n` distinct hashes have been
      seen since its last occurrence. */
  lemma HitIffSeenWithin(trace: seq<Hash>, h: Hash, n: nat)
    requires n > 0
    ensures h in Entries(trace, n) <==> SeenWithin(trace, h, n)
  {
    EntriesAreNewest(trace, n);
    RecencyNoDuplicates(trace);
    if h in trace {
      var k := LastOccurrence(trace, h);
      OccurrenceHit(trace, k, n);
      if SeenWithin(trace, h, n) {
        var j :| 0 <= j < |trace| && trace[j] == h && h !in trace[j + 1..] && |Distinct(trace[j + 1..])| < n;
        OccurrenceHit(trace, j, n);
      }
    } else {
      assert h !in Recency(trace);
    }
  }

  /** LRU inclusion: on every trace a larger cache holds everything a smaller one does, so raising the
      capacity never turns a reported duplicate into a new event. */
  lemma LargerCacheHoldsMore(trace: seq<Hash>, m: nat, n: nat)
    requires 0 < m <= n
    ensures Entries(trace, m) == Newest(Entries(trace, n), m)
    ensures forall h :: h in Entries(trace, m) ==> h in Entries(trace, n)
  {
    EntriesAreNewest(trace, m);
    EntriesAreNewest(trace, n);
  }

  // ---- the cache -----------------------------------------------------------------------------------

  class BoundedHashCache {
    var entries: seq<Hash>  // the ordered dictionary's keys, oldest first
    const maxEntries: nat
    ghost var trace: seq<Hash>

    ghost predicate Valid()
      reads this
    {
      maxEntries > 0 && entries == Entries(trace, maxEntries)
    }

    /** The source raises ValueError unless the capacity is positive. */
    constructor (maxEntries: nat)
      requires maxEntries > 0
      ensures Valid() && trace == [] && this.maxEntries == maxEntries
    {
      this.maxEntries := maxEntries;
      entries, trace := [], [];
    }

    method CheckAndAdd(h: Hash) returns (duplicate: bool)
      requires Valid()
      modifies this
      ensures Valid() && trace == old(trace) + [h]
      ensures duplicate <==> SeenWithin(old(trace), h, maxEntries)
    {
      HitIffSeenWithin(trace, h, maxEntries);
      duplicate := h in entries;
      if !duplicate {
        entries := entries + [h];
      }
      entries := Without(entries, h) + [h];
      WithoutAppend(old(entries), [h], h);
      assert entries == Touch(old(entries), h);
      while |entries| > maxEntries
        invariant trace == old(trace)
        invariant Newest(entries, maxEntries) == Newest(Touch(old(entries), h), maxEntries)
      {
        entries := entries[1..];
      }
      trace := trace + [h];
      assert trace[..|trace| - 1] == old(trace);
    }

    method Size() returns (n: nat)
      requires Valid()
      ensures n == |Entries(trace, maxEntries)| && n <= maxEntries
    {
      EntriesAreNewest(trace, maxEntries);
      n := |entries|;
    }
  }
}
