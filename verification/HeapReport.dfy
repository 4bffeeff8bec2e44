// The report of src/app/heap_trace.c: totals over all sites and the sites with the most
// live bytes.
module HeapReport {
  import opened HeapLists
  import opened HeapTrace

  /* ---------- Totals ---------- */

  function Size(b: Block, measure: Measure): nat {
    if measure == Bytes then b.bytes else 1
  }

  // The bytes, or the number, of all tracked blocks.
  ghost function Grand(m: map<nat, Block>, measure: Measure): nat
    decreases |m|
  {
    if m == map[] then 0 else Size(m[Pick(m)], measure) + Grand(m - {Pick(m)}, measure)
  }

  lemma {:induction false} GrandBlocks(m: map<nat, Block>)
    ensures Grand(m, Blocks) == |m|
    decreases |m|
  {
    if m != map[] {
      RemoveSize(m, Pick(m));
      GrandBlocks(m - {Pick(m)});
    }
  }

  // The totals of the first `n` sites.
  ghost function OfSites(m: map<nat, Block>, n: nat, measure: Measure): nat {
    if n == 0 then 0 else OfSites(m, n - 1, measure) + Total(m, n - 1, measure)
  }

  lemma {:induction false} OfSitesRemove(m: map<nat, Block>, p: nat, n: nat, measure: Measure)
    requires p in m
    ensures OfSites(m, n, measure) ==
            OfSites(m - {p}, n, measure) + if m[p].site < n then Size(m[p], measure) else 0
  {
    if n > 0 {
      OfSitesRemove(m, p, n - 1, measure);
      TotalRemove(m, p, n - 1, measure);
    }
  }

  // No block is lost and none counted twice when blocks are attributed to sites.
  lemma {:induction false} SitesAddUp(m: map<nat, Block>, n: nat, measure: Measure)
    requires forall p :: p in m ==> m[p].site < n
    ensures OfSites(m, n, measure) == Grand(m, measure)
    decreases |m|
  {
    if m == map[] {
      NothingAnywhere(n, measure);
    } else {
      OfSitesRemove(m, Pick(m), n, measure);
      SitesAddUp(m - {Pick(m)}, n, measure);
    }
  }

  lemma {:induction false} NothingAnywhere(n: nat, measure: Measure)
    ensures OfSites(map[], n, measure) == 0
  {
    if n > 0 {
      NothingAnywhere(n - 1, measure);
    }
  }

  lemma {:induction false} WordOfSum(a: nat, b: nat)
    ensures Word(a + Word(b)) == Word(a + b)
  {
    if b >= WORD {
      WordOfSum(a, b - WORD);
    }
  }

  lemma AddWords(a: nat, b: nat)
    ensures AddWord(Word(a), Word(b)) == Word(a + b)
  {
    AddTotal(a, Word(b));
    WordOfSum(a, b);
  }

  // The first loop of moonlight_log_heap_trace
  method Totals(snapshot: array<Site>, count: nat, ghost live: map<nat, Block>, ghost wrapped: bool)
    returns (bytes: nat, blocks: nat)
    requires snapshot.Length == SITES && Books(snapshot[..], count, live, wrapped)
    ensures bytes == Word(Grand(live, Bytes)) && blocks == Word(|live|)
  {
    bytes, blocks := 0, 0;
    var i := 0;
    while i < count
      invariant 0 <= i <= count
      invariant bytes == Word(OfSites(live, i, Bytes)) && blocks == Word(OfSites(live, i, Blocks))
    {
      assert snapshot[i] == snapshot[..][i];
      AddWords(OfSites(live, i, Bytes), Total(live, i, Bytes));
      AddWords(OfSites(live, i, Blocks), Total(live, i, Blocks));
      bytes, blocks := AddWord(bytes, snapshot[i].live), AddWord(blocks, Word(snapshot[i].blocks));
      i := i + 1;
    }
    SitesAddUp(live, count, Bytes);
    SitesAddUp(live, count, Blocks);
    GrandBlocks(live);
  }

  /* ---------- Ranking ---------- */

  // Nothing is left to report at the sites that are not in `reported`.
  predicate Exhausted(was: seq<Site>, count: nat, reported: seq<nat>)
    requires count <= |was|
  {
    forall s :: 0 <= s < count && s !in reported ==> was[s].live == 0
  }

  // Site `s` does not outweigh a reported one.
  predicate Outweighed(was: seq<Site>, reported: seq<nat>, s: nat)
    requires s < |was|
  {
    forall i :: 0 <= i < |reported| && reported[i] < |was| ==> was[s].live <= was[reported[i]].live
  }

  // A correct ranking: known sites, each at most once, heaviest first, none of the
  // others heavier than any of them.
  predicate Ranking(was: seq<Site>, count: nat, reported: seq<nat>)
    requires count <= |was|
  {
    && (forall i :: 0 <= i < |reported| ==> reported[i] < count && was[reported[i]].blocks > 0)
    && (forall i, j :: 0 <= i < j < |reported| ==>
          reported[i] != reported[j] && was[reported[i]].live >= was[reported[j]].live)
    && (forall s :: 0 <= s < count && s !in reported ==> Outweighed(was, reported, s))
  }

  // What the ranking loop leaves of a site.
  predicate Struck(was: Site, now: Site) {
    now == was.(live := 0, blocks := 0)
  }

  predicate Marked(was: seq<Site>, now: seq<Site>, reported: seq<nat>) {
    && |now| == |was|
    && (forall s :: 0 <= s < |was| ==> if s in reported then Struck(was[s], now[s]) else now[s] == was[s])
  }

  // The inner loop: the first site with the most live bytes.
  method Heaviest(snapshot: array<Site>, count: nat) returns (best: nat)
    requires 1 <= count <= snapshot.Length
    ensures best < count
    ensures forall i :: 0 <= i < count ==> snapshot[i].live <= snapshot[best].live
    ensures forall i :: 0 <= i < best ==> snapshot[i].live < snapshot[best].live
  {
    best := 0;
    var i := 1;
    while i < count
      invariant 1 <= i <= count && best < i
      invariant forall k :: 0 <= k < i ==> snapshot[k].live <= snapshot[best].live
      invariant forall k :: 0 <= k < best ==> snapshot[k].live < snapshot[best].live
    {
      if snapshot[i].live > snapshot[best].live {
        best := i;
      }
      i := i + 1;
    }
  }

  lemma RankNext(was: seq<Site>, now: seq<Site>, count: nat, reported: seq<nat>, best: nat)
    requires count <= |was| && Ranking(was, count, reported) && Marked(was, now, reported)
    requires best < count && now[best].blocks > 0
    requires forall i :: 0 <= i < count ==> now[i].live <= now[best].live
    ensures best !in reported && Ranking(was, count, reported + [best])
  {
    assert forall s :: 0 <= s < |was| && s in reported ==> now[s].blocks == 0;
    assert Outweighed(was, reported, best);
    var next := reported + [best];
    forall s | 0 <= s < count && s !in next
      ensures Outweighed(was, next, s)
    {
      assert next[|reported|] == best && forall r :: r in reported ==> r in next;
      assert Outweighed(was, reported, s) && now[s] == was[s];
    }
  }

  // The ranking loop of moonlight_log_heap_trace
  method Rank(snapshot: array<Site>, count: nat) returns (reported: seq<nat>, lines: seq<Site>)
    requires 1 <= count <= snapshot.Length
    requires forall s :: 0 <= s < count && snapshot[s].blocks == 0 ==> snapshot[s].live == 0
    modifies snapshot
    ensures Ranking(old(snapshot[..]), count, reported) && |reported| <= TOP
    ensures |reported| < TOP ==> Exhausted(old(snapshot[..]), count, reported)
    ensures |lines| == |reported| && forall i :: 0 <= i < |lines| ==> lines[i] == old(snapshot[..])[reported[i]]
  {
    ghost var was := snapshot[..];
    reported, lines := [], [];
    var rank := 0;
    while rank < TOP
      invariant 0 <= rank <= TOP && |reported| == |lines| == rank
      invariant Ranking(was, count, reported) && Marked(was, snapshot[..], reported)
      invariant forall i :: 0 <= i < rank ==> lines[i] == was[reported[i]]
    {
      var best := Heaviest(snapshot, count);
      ghost var now := snapshot[..];
      if snapshot[best].blocks == 0 {
        assert now[best].live == 0;
        forall s | 0 <= s < count && s !in reported
          ensures was[s].live == 0
        {
          assert now[s] == was[s];
        }
        return;
      }
      RankNext(was, now, count, reported, best);
      assert now[best] == was[best];
      lines := lines + [snapshot[best]];
      reported := reported + [best];
      snapshot[best] := snapshot[best].(live := 0, blocks := 0);
      assert snapshot[..] == now[best := was[best].(live := 0, blocks := 0)];
      rank := rank + 1;
    }
  }

  lemma IdleSites(sites: seq<Site>, count: nat, live: map<nat, Block>, wrapped: bool)
    requires Books(sites, count, live, wrapped)
    ensures forall s :: 0 <= s < count && sites[s].blocks == 0 ==> sites[s].live == 0
  {
    forall s | 0 <= s < count && sites[s].blocks == 0
      ensures sites[s].live == 0
    {
      NoBlocksNoBytes(live, s);
    }
  }

  // The memcpy of the sites
  method Copy(tracer: Tracer) returns (snapshot: array<Site>)
    requires tracer.sites.Length == SITES
    ensures fresh(snapshot) && snapshot[..] == tracer.sites[..]
  {
    snapshot := new Site[SITES](_ => NOBODY);
    forall i | 0 <= i < SITES {
      snapshot[i] := tracer.sites[i];
    }
  }

  // moonlight_log_heap_trace
  method Log(tracer: Tracer) returns (bytes: nat, blocks: nat, reported: seq<nat>, lines: seq<Site>)
    requires tracer.Valid()
    modifies tracer`freeEntry, tracer`initialized, tracer`model, tracer.entries
    ensures tracer.Valid() && tracer.Live() == old(tracer.Live()) && tracer.sites[..] == old(tracer.sites[..])
    ensures bytes == Word(Grand(tracer.Live(), Bytes)) && blocks == |tracer.Live()|
    ensures Ranking(tracer.sites[..], tracer.siteCount, reported) && |reported| <= TOP
    ensures |reported| < TOP ==> Exhausted(tracer.sites[..], tracer.siteCount, reported)
    ensures |lines| == |reported| && forall i :: 0 <= i < |lines| ==> lines[i] == tracer.sites[reported[i]]
  {
    tracer.Initialize();
    tracer.NullUntracked();
    var snapshot := Copy(tracer);
    bytes, blocks := Totals(snapshot, tracer.siteCount, tracer.Live(), tracer.wrapped);
    IdleSites(snapshot[..], tracer.siteCount, tracer.Live(), tracer.wrapped);
    assert forall s :: 0 <= s < SITES ==> snapshot[s] == snapshot[..][s];
    reported, lines := Rank(snapshot, tracer.siteCount);
  }
}
