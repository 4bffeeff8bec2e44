// The peaks and the counters that the report of src/app/heap_trace.c prints, over any calls
// of the allocator wrappers.
module HeapPeaks {
  import opened HeapLists
  import opened HeapTrace

  // A call's critical sections: a realloc has two, and other calls may come in between.
  // Attach names the Detach that it belongs to.
  datatype Call =
    | Malloc(pointer: nat, bytes: nat, caller: nat)
    | Free(pointer: nat)
    | Detach(pointer: nat)
    | Attach(detached: nat, pointer: nat, size: nat, result: nat, caller: nat)

  // The diagnostic counters
  datatype Counter = Drops | Replacements | UnknownFrees | Failures | ZeroReallocs

  // What one of them did: the site that it charged, if it tracked a block, that site's live
  // bytes then, and what was counted.
  datatype Mark = Mark(charged: bool, site: nat, live: nat, counted: set<Counter>)

  predicate IsCall(c: Call, removed: nat) {
    (c.Malloc? ==> c.bytes < WORD) && (c.Attach? ==> c.size < WORD && c.detached < removed)
  }

  // The block that is tracked, and the pointer, 0 for none
  ghost predicate Tracks(before: map<nat, Block>, after: map<nat, Block>, p: nat, bytes: nat, m: Mark) {
    && after == (if p == 0 then before else Inserted(before, p, Block(bytes, m.site)))
    && (m.charged <==> p != 0 && !Full(before, p))
    && (m.charged ==> m.live == Word(Total(after, m.site, Bytes)))
  }

  // A block for `p` is not tracked because every entry is taken, or takes the place of an
  // entry whose free was not seen.
  ghost predicate Loses(before: map<nat, Block>, p: nat, k: Counter) {
    p != 0 && ((k.Drops? && Full(before, p)) || (k.Replacements? && p in before))
  }

  // Whether a call is counted under `k`.
  ghost predicate Counts(before: map<nat, Block>, c: Call, removed: seq<Entry>, k: Counter) {
    match c
    case Malloc(p, bytes, _) => Loses(before, p, k) || (k.Failures? && p == 0 && bytes != 0)
    case Free(p) => k.UnknownFrees? && p != 0 && p !in before
    case Detach(_) => false
    case Attach(d, p, size, result, _) =>
      || (d < |removed| && Loses(before, Attached(size, result, removed[d]), k))
      || (result == 0 && if size != 0 then k.Failures? else k.ZeroReallocs? && p != 0)
  }

  ghost predicate Does(before: map<nat, Block>, after: map<nat, Block>, c: Call, removed: seq<Entry>, m: Mark) {
    && (forall k :: k in m.counted <==> Counts(before, c, removed, k))
    && match c {
         case Malloc(p, bytes, _) => Tracks(before, after, p, bytes, m)
         case Free(p) => after == before - {p} && !m.charged
         case Detach(p) => after == before - {p} && !m.charged
         case Attach(d, _, size, result, _) =>
           d < |removed| &&
           Tracks(before, after, Attached(size, result, removed[d]), if result != 0 then size else removed[d].bytes, m)
       }
  }

  // How many calls were counted under `k`.
  function Times(marks: seq<Mark>, k: Counter): nat {
    if marks == [] then 0 else Times(marks[..|marks| - 1], k) + if k in marks[|marks| - 1].counted then 1 else 0
  }

  // Each counter is the number of calls, as a machine word.
  ghost predicate Counted(c: Counters, marks: seq<Mark>)
    reads c
  {
    && c.dropped == Word(Times(marks, Drops)) && c.replaced == Word(Times(marks, Replacements))
    && c.unknownFrees == Word(Times(marks, UnknownFrees)) && c.failed == Word(Times(marks, Failures))
    && c.zeroReallocs == Word(Times(marks, ZeroReallocs))
  }

  lemma {:induction false} NextIs(n: nat)
    ensures NextWord(Word(n)) == Word(n + 1)
  {
    if n >= WORD {
      NextIs(n - WORD);
    }
  }

  lemma TimesMore(marks: seq<Mark>, m: Mark, k: Counter)
    ensures Word(Times(marks + [m], k)) == NextIf(k in m.counted, Word(Times(marks, k)))
  {
    assert (marks + [m])[..|marks|] == marks;
    NextIs(Times(marks, k));
  }

  // The most live bytes of a site after any charge of it.
  function Highest(marks: seq<Mark>, s: nat): nat {
    if marks == [] then 0
    else
      var before, m := Highest(marks[..|marks| - 1], s), marks[|marks| - 1];
      if m.charged && m.site == s && m.live > before then m.live else before
  }

  lemma HighestMore(marks: seq<Mark>, m: Mark, s: nat)
    ensures Highest(marks + [m], s)
            == if m.charged && m.site == s && m.live > Highest(marks, s) then m.live else Highest(marks, s)
  {
    assert (marks + [m])[..|marks|] == marks;
  }

  // It is the maximum.
  lemma {:induction false} HighestIsMaximum(marks: seq<Mark>, s: nat)
    ensures forall m :: m in marks && m.charged && m.site == s ==> m.live <= Highest(marks, s)
    ensures Highest(marks, s) == 0 || exists m :: m in marks && m.charged && m.site == s && m.live == Highest(marks, s)
  {
    if marks != [] {
      var rest, last := marks[..|marks| - 1], marks[|marks| - 1];
      HighestIsMaximum(rest, s);
      assert marks == rest + [last];
      if Highest(marks, s) != Highest(rest, s) {
        assert last in marks;
      }
    }
  }

  ghost predicate At(t: Tracer, removed: seq<Entry>, marks: seq<Mark>)
    reads t, t.entries, t.buckets, t.sites, t.counters
  {
    && t.Valid() && t.sites.Length == SITES && Counted(t.counters, marks)
    && (forall i :: 0 <= i < |removed| ==> removed[i].bytes < WORD && removed[i].site < t.siteCount)
    && (removed != [] ==> t.initialized)
    && (forall s :: 0 <= s < SITES ==> t.sites[s].peak == Highest(marks, s))
  }

  lemma PeaksMore(sites: seq<Site>, sites': seq<Site>, marks: seq<Mark>, m: Mark)
    requires |sites| == |sites'| && forall s :: 0 <= s < |sites| ==> sites[s].peak == Highest(marks, s)
    requires PeaksAfter(sites, sites', m.site, m.charged) && (m.charged ==> m.live == sites'[m.site].live)
    ensures forall s :: 0 <= s < |sites| ==> sites'[s].peak == Highest(marks + [m], s)
  {
    forall s | 0 <= s < |sites|
      ensures sites'[s].peak == Highest(marks + [m], s)
    {
      HighestMore(marks, m, s);
    }
  }

  // The live bytes that a site's account shows are those of the blocks.
  lemma LiveIs(t: Tracer, s: nat)
    requires t.Valid() && s < SITES
    ensures t.sites.Length == SITES && t.sites[..][s].live == Word(Total(t.Live(), s, Bytes))
  {
  }

  ghost function MarkOf(t: Tracer, charged: bool, site: nat, counted: set<Counter>): Mark
    reads t.sites
  {
    Mark(charged, site, if charged && site < t.sites.Length then t.sites[site].live else 0, counted)
  }

  ghost function CountedBy(before: map<nat, Block>, c: Call, removed: seq<Entry>): (s: set<Counter>)
    ensures forall k :: k in s <==> Counts(before, c, removed, k)
  {
    set k: Counter | k in {Drops, Replacements, UnknownFrees, Failures, ZeroReallocs} && Counts(before, c, removed, k)
  }

  // The counters after a call
  ghost predicate Advances(c: Counters, was: seq<Mark>, s: set<Counter>)
    reads c
  {
    && c.dropped == NextIf(Drops in s, Word(Times(was, Drops)))
    && c.replaced == NextIf(Replacements in s, Word(Times(was, Replacements)))
    && c.unknownFrees == NextIf(UnknownFrees in s, Word(Times(was, UnknownFrees)))
    && c.failed == NextIf(Failures in s, Word(Times(was, Failures)))
    && c.zeroReallocs == NextIf(ZeroReallocs in s, Word(Times(was, ZeroReallocs)))
  }

  lemma CountedMore(c: Counters, marks: seq<Mark>, m: Mark)
    requires Advances(c, marks, m.counted)
    ensures Counted(c, marks + [m])
  {
    TimesMore(marks, m, Drops);
    TimesMore(marks, m, Replacements);
    TimesMore(marks, m, UnknownFrees);
    TimesMore(marks, m, Failures);
    TimesMore(marks, m, ZeroReallocs);
  }

  // What a call that takes a block away keeps
  lemma TakenKeeps(t: Tracer, was: seq<Site>, removed: seq<Entry>, marks: seq<Mark>, counted: set<Counter>)
    requires t.Valid() && t.initialized && t.sites.Length == SITES && SamePeaks(was, t.sites[..])
    requires forall i :: 0 <= i < |removed| ==> removed[i].bytes < WORD && removed[i].site < t.siteCount
    requires |was| == SITES && forall s :: 0 <= s < SITES ==> was[s].peak == Highest(marks, s)
    requires Advances(t.counters, marks, counted)
    ensures At(t, removed, marks + [Mark(false, 0, 0, counted)])
  {
    PeaksMore(was, t.sites[..], marks, Mark(false, 0, 0, counted));
    CountedMore(t.counters, marks, Mark(false, 0, 0, counted));
    assert forall s :: 0 <= s < SITES ==> t.sites[s] == t.sites[..][s];
  }

  // And one that tracks a block
  lemma TrackedKeeps(t: Tracer, was: seq<Site>, removed: seq<Entry>, marks: seq<Mark>, charged: bool, site: nat,
                     counted: set<Counter>)
    requires t.Valid() && t.initialized && t.sites.Length == SITES && PeaksAfter(was, t.sites[..], site, charged)
    requires forall i :: 0 <= i < |removed| ==> removed[i].bytes < WORD && removed[i].site < t.siteCount
    requires |was| == SITES && forall s :: 0 <= s < SITES ==> was[s].peak == Highest(marks, s)
    requires Advances(t.counters, marks, counted)
    ensures At(t, removed, marks + [MarkOf(t, charged, site, counted)])
    ensures charged ==> MarkOf(t, charged, site, counted).live == Word(Total(t.Live(), site, Bytes))
  {
    PeaksMore(was, t.sites[..], marks, MarkOf(t, charged, site, counted));
    CountedMore(t.counters, marks, MarkOf(t, charged, site, counted));
    assert forall s :: 0 <= s < SITES ==> t.sites[s] == t.sites[..][s];
    if charged {
      LiveIs(t, site);
    }
  }

  // What a malloc counts
  lemma MallocCounts(live: map<nat, Block>, p: nat, bytes: nat, caller: nat, removed: seq<Entry>)
    requires 0 !in live
    ensures var s := CountedBy(live, Malloc(p, bytes, caller), removed);
      && (Drops in s <==> p != 0 && Full(live, p)) && (Replacements in s <==> p in live) && UnknownFrees !in s
      && (Failures in s <==> p == 0 && bytes != 0) && ZeroReallocs !in s
  {
  }

  // What the second half of a realloc counts
  lemma AttachCounts(live: map<nat, Block>, c: Call, removed: seq<Entry>)
    requires 0 !in live && c.Attach? && c.detached < |removed|
    ensures var s, to := CountedBy(live, c, removed), Attached(c.size, c.result, removed[c.detached]);
      && (Drops in s <==> to != 0 && Full(live, to)) && (Replacements in s <==> to in live) && UnknownFrees !in s
      && (Failures in s <==> c.result == 0 && c.size != 0)
      && (ZeroReallocs in s <==> c.result == 0 && c.size == 0 && c.pointer != 0)
  {
  }

  method DoMalloc(t: Tracer, ghost c: Call, p: nat, bytes: nat, caller: nat, ghost removed: seq<Entry>,
                  ghost marks: seq<Mark>)
    returns (ghost m: Mark)
    requires At(t, removed, marks) && bytes < WORD && c == Malloc(p, bytes, caller)
    modifies t, t.entries, t.buckets, t.sites, t.counters
    ensures At(t, removed, marks + [m]) && Does(old(t.Live()), t.Live(), c, removed, m)
    ensures m.charged ==> t.SiteFor(m.site, caller)
  {
    ghost var was, charged := t.sites[..], p != 0 && !Full(t.Live(), p);
    ghost var counted := CountedBy(t.Live(), c, removed);
    Untracked(t);
    MallocCounts(t.Live(), p, bytes, caller, removed);
    ghost var site := t.Result(p, bytes, caller);
    TrackedKeeps(t, was, removed, marks, charged, site, counted);
    m := MarkOf(t, charged, site, counted);
  }

  lemma Untracked(t: Tracer)
    requires t.Valid()
    ensures 0 !in t.Live()
  {
    assert t.initialized ==> Tables(t.entries[..], t.Heads(), t.model);
  }

  method DoAttach(t: Tracer, ghost c: Call, entry: Entry, p: nat, size: nat, result: nat, caller: nat,
                  ghost removed: seq<Entry>, ghost marks: seq<Mark>)
    returns (ghost m: Mark)
    requires At(t, removed, marks) && c.Attach? && c == Attach(c.detached, p, size, result, caller)
    requires size < WORD && c.detached < |removed| && entry == removed[c.detached]
    modifies t, t.entries, t.buckets, t.sites, t.counters
    ensures At(t, removed, marks + [m]) && Does(old(t.Live()), t.Live(), c, removed, m)
    ensures m.charged ==> if result != 0 then t.SiteFor(m.site, caller) else m.site == entry.site
  {
    ghost var was, to := t.sites[..], Attached(size, result, entry);
    ghost var charged, counted := to != 0 && !Full(t.Live(), to), CountedBy(t.Live(), c, removed);
    Untracked(t);
    AttachCounts(t.Live(), c, removed);
    ghost var site := t.ReallocAttach(p, size, result, entry, caller);
    TrackedKeeps(t, was, removed, marks, charged, site, counted);
    m := MarkOf(t, charged, site, counted);
  }

  method DoDetach(t: Tracer, p: nat, removed: seq<Entry>, ghost marks: seq<Mark>) returns (removed': seq<Entry>)
    requires At(t, removed, marks)
    modifies t, t.entries, t.buckets, t.sites
    ensures At(t, removed', marks + [Mark(false, 0, 0, {})]) && t.Live() == old(t.Live()) - {p}
    ensures |removed'| == |removed| + 1 && removed <= removed'
    ensures removed'[|removed|] == EMPTY || removed'[|removed|].pointer == p
  {
    ghost var was := t.sites[..];
    var entry := t.ReallocDetach(p);
    removed' := removed + [entry];
    TakenKeeps(t, was, removed', marks, {});
  }

  method DoFree(t: Tracer, p: nat, ghost removed: seq<Entry>, ghost marks: seq<Mark>) returns (ghost m: Mark)
    requires At(t, removed, marks)
    modifies t, t.entries, t.buckets, t.sites, t.counters
    ensures At(t, removed, marks + [m]) && Does(old(t.Live()), t.Live(), Free(p), removed, m)
  {
    ghost var was, counted := t.sites[..], CountedBy(t.Live(), Free(p), removed);
    t.Free(p);
    TakenKeeps(t, was, removed, marks, counted);
    m := Mark(false, 0, 0, counted);
  }

  method Do(t: Tracer, c: Call, removed: seq<Entry>, ghost marks: seq<Mark>)
    returns (removed': seq<Entry>, ghost m: Mark)
    requires At(t, removed, marks) && IsCall(c, |removed|)
    modifies t, t.entries, t.buckets, t.sites, t.counters
    ensures At(t, removed', marks + [m]) && Does(old(t.Live()), t.Live(), c, removed, m)
    ensures removed <= removed' && |removed'| == |removed| + if c.Detach? then 1 else 0
  {
    removed', m := removed, Mark(false, 0, 0, {});
    match c {
      case Malloc(p, bytes, caller) => m := DoMalloc(t, c, p, bytes, caller, removed, marks);
      case Free(p) => m := DoFree(t, p, removed, marks);
      case Detach(p) => removed' := DoDetach(t, p, removed, marks);
      case Attach(d, p, size, result, caller) =>
        m := DoAttach(t, c, removed[d], p, size, result, caller, removed, marks);
    }
  }

  // How many calls detach a block
  function Detached(calls: seq<Call>): nat {
    if calls == [] then 0 else Detached(calls[..|calls| - 1]) + if calls[|calls| - 1].Detach? then 1 else 0
  }

  predicate AreCalls(calls: seq<Call>) {
    calls != [] ==>
      var n := |calls| - 1;
      AreCalls(calls[..n]) && IsCall(calls[n], Detached(calls[..n]))
  }

  lemma {:induction false} CallsPrefix(calls: seq<Call>, i: nat)
    requires AreCalls(calls) && i <= |calls|
    ensures AreCalls(calls[..i])
    decreases |calls|
  {
    if i == |calls| {
      assert calls[..i] == calls;
    } else {
      CallsPrefix(calls[..|calls| - 1], i);
      assert calls[..|calls| - 1][..i] == calls[..i];
    }
  }

  lemma NextCall(calls: seq<Call>, i: nat)
    requires AreCalls(calls) && i < |calls|
    ensures calls[..i + 1] == calls[..i] + [calls[i]] && IsCall(calls[i], Detached(calls[..i]))
  {
    CallsPrefix(calls, i + 1);
    assert calls[..i + 1][..i] == calls[..i];
  }

  // Every call did what it should, from no tracked blocks on.
  ghost predicate History(calls: seq<Call>, lives: seq<map<nat, Block>>, removed: seq<Entry>, marks: seq<Mark>) {
    && |marks| == |calls| && |lives| == |calls| + 1 && lives[0] == map[] && |removed| == Detached(calls)
    && (forall i :: 0 <= i < |calls| ==>
          Does(lives[i], lives[i + 1], calls[i], removed, marks[i]))
  }

  lemma DoesMore(before: map<nat, Block>, after: map<nat, Block>, c: Call, removed: seq<Entry>, more: seq<Entry>, m: Mark)
    requires Does(before, after, c, removed, m) && removed <= more
    ensures Does(before, after, c, more, m)
  {
  }

  lemma HistoryMore(calls: seq<Call>, c: Call, lives: seq<map<nat, Block>>, after: map<nat, Block>,
                    removed: seq<Entry>, removed': seq<Entry>, marks: seq<Mark>, m: Mark)
    requires History(calls, lives, removed, marks) && Does(lives[|calls|], after, c, removed, m)
    requires removed <= removed' && |removed'| == |removed| + if c.Detach? then 1 else 0
    ensures History(calls + [c], lives + [after], removed', marks + [m])
  {
    var calls', lives', marks' := calls + [c], lives + [after], marks + [m];
    assert calls'[..|calls|] == calls;
    forall i | 0 <= i < |calls'|
      ensures Does(lives'[i], lives'[i + 1], calls'[i], removed', marks'[i])
    {
      if i < |calls| {
        DoesMore(lives[i], lives[i + 1], calls[i], removed, removed', marks[i]);
      } else {
        DoesMore(lives[i], after, c, removed, removed', m);
      }
    }
  }

  // After any calls, the peak of each site is the most live bytes that it had after any
  // block was charged to it, and each counter is the number of calls of its kind.
  method Run(calls: seq<Call>) returns (t: Tracer, removed: seq<Entry>, ghost lives: seq<map<nat, Block>>,
                                        ghost marks: seq<Mark>)
    requires AreCalls(calls)
    ensures History(calls, lives, removed, marks) && t.Valid() && t.Live() == lives[|calls|]
    ensures t.sites.Length == SITES && forall s :: 0 <= s < SITES ==> t.sites[s].peak == Highest(marks, s)
    ensures Counted(t.counters, marks)
  {
    t := new Tracer();
    removed, lives, marks := [], [map[]], [];
    var i := 0;
    while i < |calls|
      modifies t, t.entries, t.buckets, t.sites, t.counters
      invariant 0 <= i <= |calls| && At(t, removed, marks)
      invariant fresh(t) && fresh(t.entries) && fresh(t.buckets) && fresh(t.sites) && fresh(t.counters)
      invariant History(calls[..i], lives, removed, marks) && t.Live() == lives[i]
    {
      NextCall(calls, i);
      ghost var m;
      ghost var was := removed;
      removed, m := Do(t, calls[i], removed, marks);
      HistoryMore(calls[..i], calls[i], lives, t.Live(), was, removed, marks, m);
      lives, marks := lives + [t.Live()], marks + [m];
      i := i + 1;
    }
    assert calls[..i] == calls;
  }
}
