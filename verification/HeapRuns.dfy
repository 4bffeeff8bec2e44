// Runs of the allocator wrappers of src/app/heap_trace.c: calls of several threads, and
// entries whose blocks were released without the wrappers.
module HeapRuns {
  import opened HeapLists
  import opened HeapTrace

  // The blocks after realloc's first critical section and another thread's malloc.
  ghost function Between(live: map<nat, Block>, pointer: nat, other: nat, b: Block): map<nat, Block> {
    if other == 0 then live - {pointer} else Inserted(live - {pointer}, other, b)
  }

  method DetachThenMalloc(t: Tracer, pointer: nat, other: nat, bytes: nat, otherCaller: nat)
    returns (removed: Entry, ghost otherSite: nat)
    requires t.Valid() && bytes < WORD
    modifies t`siteCount, t`freeEntry, t`initialized, t`model, t`wrapped
    modifies t.entries, t.buckets, t.sites, t.counters
    ensures t.Valid() && t.initialized && removed.bytes < WORD && removed.site < t.siteCount
    ensures KnownCallers(old(t.sites[..]), old(t.siteCount), t.sites[..], t.siteCount)
    ensures t.Live() == Between(old(t.Live()), pointer, other, Block(bytes, otherSite))
    ensures other != 0 ==> t.SiteFor(otherSite, otherCaller)
    ensures pointer !in old(t.Live()) ==> removed == EMPTY
    ensures pointer in old(t.Live()) ==>
      removed.pointer == pointer && Block(removed.bytes, removed.site) == old(t.Live())[pointer]
  {
    removed := t.ReallocDetach(pointer);
    otherSite := t.Result(other, bytes, otherCaller);
  }

  // The second half of a failed realloc tracks the block again exactly when an entry is
  // free, whatever other threads called since the first half.
  method FailedAttach(t: Tracer, size: nat, removed: Entry, caller: nat)
    requires t.Valid() && t.initialized && 0 < size < WORD
    requires removed.bytes < WORD && removed.site < t.siteCount
    requires removed.pointer != 0 && removed.pointer !in t.Live()
    modifies t`siteCount, t`freeEntry, t`model, t`wrapped
    modifies t.entries, t.buckets, t.sites, t.counters
    ensures t.Valid() && t.siteCount == old(t.siteCount)
    ensures removed.pointer in t.Live() <==> |old(t.Live())| < ENTRIES
    ensures t.Live() == if |old(t.Live())| < ENTRIES
                        then old(t.Live())[removed.pointer := Block(removed.bytes, removed.site)]
                        else old(t.Live())
    ensures t.counters.dropped == NextIf(|old(t.Live())| >= ENTRIES, old(t.counters.dropped))
  {
    t.NullUntracked();
    ghost var site := t.ReallocAttach(removed.pointer, size, 0, removed, caller);
  }

  // After one malloc of another thread: exactly when that took the last entry, the block
  // of a failed realloc is lost.
  lemma FailedReallocKeeps(live: map<nat, Block>, p: nat, other: nat, b: Block)
    requires p in live && |live| <= ENTRIES
    ensures p in Inserted(Between(live, p, other, b), p, live[p]) <==>
            !(other != 0 && other != p && other !in live && |live| == ENTRIES)
    ensures p in Inserted(Between(live, p, other, b), p, live[p]) ==>
              Inserted(Between(live, p, other, b), p, live[p])[p] == live[p]
  {
    RemoveSize(live, p);
    if other != 0 && other !in live - {p} {
      InsertSize(live - {p}, other, b);
    } else if other != 0 {
      assert (live - {p})[other := b].Keys == (live - {p}).Keys;
    }
  }

  // A realloc with a call of another thread's malloc between its critical sections
  method ReallocAround(t: Tracer, pointer: nat, size: nat, result: nat, caller: nat, other: nat, bytes: nat,
                       otherCaller: nat)
    returns (ghost site: nat, ghost otherSite: nat)
    requires t.Valid() && size < WORD && bytes < WORD
    modifies t`siteCount, t`freeEntry, t`initialized, t`model, t`wrapped
    modifies t.entries, t.buckets, t.sites, t.counters
    ensures t.Valid() && KnownCallers(old(t.sites[..]), old(t.siteCount), t.sites[..], t.siteCount)
    ensures var between := Between(old(t.Live()), pointer, other, Block(bytes, otherSite));
      && (result != 0 ==> t.SiteFor(site, caller) && t.Live() == Inserted(between, result, Block(size, site)))
      && (result == 0 && size != 0 && pointer in old(t.Live()) ==>
            t.Live() == Inserted(between, pointer, old(t.Live())[pointer]))
      && (result == 0 && (size == 0 || pointer !in old(t.Live())) ==> t.Live() == between)
  {
    ghost var tracked := t.Live();
    assert 0 !in tracked by {
      assert t.initialized ==> Tables(t.entries[..], t.Heads(), t.model);
    }
    var removed;
    removed, otherSite := DetachThenMalloc(t, pointer, other, bytes, otherCaller);
    site := t.ReallocAttach(pointer, size, result, removed, caller);
  }

  // `n` blocks of 8 bytes, next to each other
  ghost predicate Filled(t: Tracer, n: nat)
    reads t, t.entries, t.buckets, t.sites
  {
    && t.Valid() && t.initialized && |t.Live()| == n <= ENTRIES
    && (forall p :: p in t.Live() ==> p <= 8 * n) && (n > 0 ==> 8 in t.Live())
  }

  method Fill(t: Tracer, caller: nat, n: nat)
    requires Filled(t, n) && n < ENTRIES
    modifies t`siteCount, t`freeEntry, t`initialized, t`model, t`wrapped
    modifies t.entries, t.buckets, t.sites, t.counters
    ensures Filled(t, n + 1)
  {
    ghost var live := t.Live();
    ghost var site := t.Result(8 * (n + 1), 8, caller);
    InsertSize(live, 8 * (n + 1), Block(8, site));
  }

  method FillAll(caller: nat) returns (t: Tracer)
    ensures fresh(t) && fresh(t.entries) && fresh(t.buckets) && fresh(t.sites) && fresh(t.counters)
    ensures Filled(t, ENTRIES)
  {
    t := new Tracer();
    t.Initialize();
    var n := 0;
    while n < ENTRIES
      invariant n <= ENTRIES && Filled(t, n)
      invariant fresh(t) && fresh(t.entries) && fresh(t.buckets) && fresh(t.sites) && fresh(t.counters)
    {
      Fill(t, caller, n);
      n := n + 1;
    }
  }

  // With every entry taken, another thread's malloc gets the entry that realloc released,
  // and the block that realloc failed to move is live and no longer tracked.
  method FailedReallocLoses(caller: nat, other: nat) returns (t: Tracer)
    ensures t.Valid() && |t.Live()| == ENTRIES && 8 !in t.Live() && 8 * (ENTRIES + 1) in t.Live()
  {
    t := FillAll(caller);
    ghost var live := t.Live();
    ghost var site, otherSite := ReallocAround(t, 8, WORD - 1, 0, caller, 8 * (ENTRIES + 1), 8, other);
    ghost var b := Block(8, otherSite);
    FailedReallocKeeps(live, 8, 8 * (ENTRIES + 1), b);
    LastEntryTaken(live, 8, 8 * (ENTRIES + 1), b);
  }

  lemma LastEntryTaken(live: map<nat, Block>, p: nat, other: nat, b: Block)
    requires p in live && |live| == ENTRIES && other != 0 && other !in live
    ensures Inserted(Between(live, p, other, b), p, live[p]) == (live - {p})[other := b]
    ensures |(live - {p})[other := b]| == ENTRIES
  {
    RemoveSize(live, p);
    InsertSize(live - {p}, other, b);
  }

  const SMALL := 8
  const LARGE := 0x400_0000

  // A malloc of a caller that has site 1, the only one.
  method Allocate(t: Tracer, pointer: nat, bytes: nat, caller: nat)
    requires t.Valid() && bytes < WORD && t.siteCount == 2 && t.sites.Length == SITES && t.sites[1].caller == caller
    requires pointer != 0 && pointer !in t.Live() && |t.Live()| < ENTRIES && t.sites[1].live < WORD
    modifies t`siteCount, t`freeEntry, t`initialized, t`model, t`wrapped
    modifies t.entries, t.buckets, t.sites, t.counters
    ensures t.Valid() && t.siteCount == 2 && t.Live() == old(t.Live())[pointer := Block(bytes, 1)]
    ensures t.sites[1] == Charge(old(t.sites[1]), bytes)
  {
    ghost var site := t.Result(pointer, bytes, caller);
    assert site == 1;
  }

  // `n` large blocks after a small one, all of one caller. Each large block was released
  // without the wrappers before the next one, and no block overlaps the small one.
  ghost predicate Grown(t: Tracer, caller: nat, n: nat)
    reads t, t.entries, t.buckets, t.sites
  {
    && t.Valid() && t.initialized && t.siteCount == 2 && n < 64 && t.sites.Length == SITES
    && t.sites[1] == Site(caller, SMALL + n * LARGE, SMALL + n * LARGE, n + 1)
    && |t.Live()| == n + 1 && (forall p :: p in t.Live() ==> p <= 8 * (n + 1) && t.Live()[p].bytes <= LARGE)
    && 8 in t.Live() && t.Live()[8] == Block(SMALL, 1)
  }

  method Grow(t: Tracer, caller: nat, n: nat)
    requires Grown(t, caller, n) && n < 63
    modifies t`siteCount, t`freeEntry, t`initialized, t`model, t`wrapped
    modifies t.entries, t.buckets, t.sites, t.counters
    ensures Grown(t, caller, n + 1)
  {
    InsertSize(t.Live(), 8 * (n + 2), Block(LARGE, 1));
    Allocate(t, 8 * (n + 2), LARGE, caller);
  }

  method Start(caller: nat) returns (t: Tracer)
    ensures fresh(t) && fresh(t.entries) && fresh(t.buckets) && fresh(t.sites) && fresh(t.counters)
    ensures Grown(t, caller, 0)
  {
    t := new Tracer();
    InsertSize(map[], 8, Block(SMALL, 1));
    ghost var site := t.Result(8, SMALL, caller);
    assert site == 1;
  }

  method GrowAll(caller: nat) returns (t: Tracer)
    ensures fresh(t) && fresh(t.entries) && fresh(t.buckets) && fresh(t.sites) && fresh(t.counters)
    ensures Grown(t, caller, 63)
  {
    t := Start(caller);
    var n := 0;
    while n < 63
      invariant n <= 63 && Grown(t, caller, n)
      invariant fresh(t) && fresh(t.entries) && fresh(t.buckets) && fresh(t.sites) && fresh(t.counters)
    {
      Grow(t, caller, n);
      n := n + 1;
    }
  }

  // The sum of the entries passes the word size, although no block is larger than 64 MiB:
  // large blocks are released without the wrappers, so their entries stay. Then the small
  // block is freed, and the peak of the site is below its live bytes.
  method PeakFallsBehind(caller: nat) returns (t: Tracer)
    ensures t.Valid() && t.sites.Length == SITES && t.sites[1].caller == caller && !InPeak(t.sites[1])
    ensures forall p :: p in t.Live() ==> t.Live()[p].bytes <= LARGE
  {
    t := GrowAll(caller);
    Allocate(t, 8 * 65, LARGE - 8, caller);
    t.Free(8);
  }
}
