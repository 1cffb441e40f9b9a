/** The round-robin refresher: bounded batches per tick, resuming at an offset, over the table of identities. */
module SocialRefresh {
  const BATCH: nat := 200
  const BATCHES_PER_TICK: nat := 10
  const PER_TICK: nat := BATCH * BATCHES_PER_TICK

  /** An identity by its provider pubkey; without one there is nothing to refresh. */
  type PubKey = string

  function Min(a: nat, b: nat): nat
  {
    if a < b then a else b
  }

  /** Where the next tick resumes, on a table of n identities. */
  function NextOffset(n: nat, offset: nat): nat
  {
    if offset + PER_TICK <= n then offset + PER_TICK else 0
  }

  /** The identities one tick refreshes. */
  predicate Refreshes(table: seq<PubKey>, offset: nat, i: nat)
  {
    offset <= i < Min(offset + PER_TICK, |table|) && table[i] != ""
  }

  predicate OnceEach(xs: seq<nat>)
  {
    forall i, j :: 0 <= i < j < |xs| ==> xs[i] != xs[j]
  }

  /** A page of the table: LIMIT BATCH OFFSET offset. */
  function Page(table: seq<PubKey>, offset: nat): seq<PubKey>
  {
    table[Min(offset, |table|)..Min(offset + BATCH, |table|)]
  }

  /** Refreshes one batch; the order within it is that of the table, though relays are asked concurrently. */
  method RefreshBatch(table: seq<PubKey>, offset: nat, done: seq<nat>) returns (refreshed: seq<nat>)
    requires offset <= |table| && OnceEach(done) && forall x <- done :: x < offset
    ensures done <= refreshed && OnceEach(refreshed)
    ensures forall x :: x in refreshed <==>
              x in done || (offset <= x < offset + |Page(table, offset)| && table[x] != "")
  {
    refreshed := done;
    var identities := Page(table, offset);
    for k := 0 to |identities|
      invariant done <= refreshed && OnceEach(refreshed)
      invariant forall x :: x in refreshed <==> x in done || (offset <= x < offset + k && table[x] != "")
    {
      if identities[k] != "" {
        refreshed := refreshed + [offset + k];
      }
    }
  }

  /**
   runSocialCacheRefresh: up to ten batches from the start offset. `failsAt` is the batch whose query fails, if any; a
   failure, an empty batch and a short batch all wrap the offset to 0.
   */
  method RunSocialCacheRefresh(table: seq<PubKey>, startOffset: nat, failsAt: nat)
    returns (next: nat, refreshed: seq<nat>)
    ensures OnceEach(refreshed)
    ensures forall x <- refreshed :: Refreshes(table, startOffset, x)
    ensures failsAt >= BATCHES_PER_TICK ==>
              next == NextOffset(|table|, startOffset) && forall i :: Refreshes(table, startOffset, i) ==>
                i in refreshed
    ensures failsAt < BATCHES_PER_TICK ==> next == 0
    ensures next == 0 || next == NextOffset(|table|, startOffset)
  {
    var offset := startOffset;
    refreshed := [];
    for batchNum := 0 to BATCHES_PER_TICK
      invariant offset == startOffset + batchNum * BATCH && (batchNum > 0 ==> offset <= |table|)
      invariant OnceEach(refreshed) && failsAt >= batchNum
      invariant forall x :: x in refreshed <==> startOffset <= x < offset && table[x] != ""
    {
      if batchNum == failsAt {
        return 0, refreshed;
      }
      var count := |Page(table, offset)|;
      if count == 0 {
        return 0, refreshed;
      }
      refreshed := RefreshBatch(table, offset, refreshed);
      offset := offset + count;
      if count < BATCH {
        return 0, refreshed;
      }
    }
    next := offset;
  }

  // ---------- coverage over ticks ----------

  function OffsetAt(n: nat, tick: nat): nat
  {
    if tick == 0 then 0 else NextOffset(n, OffsetAt(n, tick - 1))
  }

  function Period(n: nat): nat
  {
    n / PER_TICK + 1
  }

  /** On a stable table the offsets cycle, also when the table is an exact multiple of a tick's capacity. */
  lemma {:induction false} OffsetsCycle(n: nat, tick: nat)
    ensures OffsetAt(n, tick) == PER_TICK * (tick % Period(n))
  {
    if tick > 0 {
      OffsetsCycle(n, tick - 1);
      var p := Period(n);
      var phase := (tick - 1) % p;
      NextPhase(tick - 1, p);
      assert phase <= n / PER_TICK;
      if phase + 1 == p {
        assert PER_TICK * phase + PER_TICK > n;
      } else {
        assert PER_TICK * (phase + 1) <= n;
      }
    }
  }

  lemma NextPhase(t: nat, p: nat)
    requires p > 0
    ensures (t + 1) % p == if t % p + 1 == p then 0 else t % p + 1
  {
    var q, r := t / p, t % p;
    assert t == q * p + r;
    if r + 1 == p {
      assert t + 1 == (q + 1) * p;
      UniqueQuotient(t + 1, q + 1, 0, p);
    } else {
      UniqueQuotient(t + 1, q, r + 1, p);
    }
  }

  /** A multiple of p other than 0 is at least p away from 0. */
  lemma MultipleIsFar(d: int, p: int)
    requires p > 0
    ensures (d >= 1 ==> d * p >= p) && (d <= -1 ==> d * p <= -p)
  {
  }

  lemma UniqueQuotient(t: nat, q: nat, r: nat, p: nat)
    requires t == q * p + r && r < p
    ensures t % p == r
  {
    var d := t / p - q;
    assert t == (t / p) * p + t % p;
    assert d * p == r - t % p;
    MultipleIsFar(d, p);
  }

  /** The tick of the period that covers identity i. */
  lemma RefreshedIff(table: seq<PubKey>, tick: nat, i: nat)
    requires i < |table| && table[i] != ""
    ensures Refreshes(table, OffsetAt(|table|, tick), i) <==> tick % Period(|table|) == i / PER_TICK
  {
    OffsetsCycle(|table|, tick);
    var phase := tick % Period(|table|);
    assert i == PER_TICK * (i / PER_TICK) + i % PER_TICK;
    if phase < i / PER_TICK {
      assert PER_TICK * (phase + 1) <= PER_TICK * (i / PER_TICK);
    } else if phase > i / PER_TICK {
      assert PER_TICK * phase >= PER_TICK * (i / PER_TICK + 1);
    }
  }

  /** Whenever one starts to watch, each identity with a pubkey is refreshed exactly once in the next Period ticks. */
  lemma OncePerPeriod(table: seq<PubKey>, start: nat, i: nat)
    requires i < |table| && table[i] != ""
    ensures var p := Period(|table|);
            exists tick :: start <= tick < start + p && Refreshes(table, OffsetAt(|table|, tick), i)
              && forall other :: start <= other < start + p && Refreshes(table, OffsetAt(|table|, other), i) ==>
                other == tick
  {
    var p, want := Period(|table|), i / PER_TICK;
    var tick := if start % p <= want then start + (want - start % p) else start + p + want - start % p;
    var q := start / p;
    assert start == q * p + start % p;
    if start % p <= want {
      UniqueQuotient(tick, q, want, p);
    } else {
      assert tick == (q + 1) * p + want;
      UniqueQuotient(tick, q + 1, want, p);
    }
    RefreshedIff(table, tick, i);
    forall other | start <= other < start + p && Refreshes(table, OffsetAt(|table|, other), i) ensures other == tick {
      RefreshedIff(table, other, i);
      SamePhase(tick, other, p);
    }
  }

  lemma SamePhase(a: nat, b: nat, p: nat)
    requires p > 0 && a % p == b % p && -(p as int) < a - b < p
    ensures a == b
  {
    var d := a / p - b / p;
    assert a == (a / p) * p + a % p && b == (b / p) * p + b % p;
    assert a - b == d * p;
    MultipleIsFar(d, p);
  }
}
