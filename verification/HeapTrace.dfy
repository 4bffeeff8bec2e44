// The allocation tracer of src/app/heap_trace.c: fixed tables updated in place.
//
// The four allocator wrappers call the real allocator between these critical
// sections; its results are parameters here. `Realloc` is two methods, because other
// threads may allocate between its two critical sections.
module HeapTrace {
  import opened HeapLists

  const SITES := 256
  const TOP := 12

  datatype Site = Site(caller: nat, live: nat, peak: nat, blocks: nat)

  const NOBODY := Site(0, 0, 0, 0)

  // Every site's counters agree with the tracked blocks. The bytes are a machine word,
  // which the sum can pass only through entries whose free was never seen; `wrapped`
  // says that it has done so at some time.
  ghost predicate Accounts(sites: seq<Site>, live: map<nat, Block>, wrapped: bool) {
    && |sites| == SITES
    && (forall s :: 0 <= s < SITES ==>
          && sites[s].blocks == Total(live, s, Blocks)
          && sites[s].live == Word(Total(live, s, Bytes)))
    && (!wrapped ==> forall s :: 0 <= s < SITES ==>
          Total(live, s, Bytes) < WORD && sites[s].live <= sites[s].peak)
  }

  // Sites 1 .. count - 1 are the known callers; site 0 takes the overflow.
  predicate Callers(sites: seq<Site>, count: nat) {
    && |sites| == SITES && 1 <= count <= SITES
    && (forall i, j :: 1 <= i < j < count ==> sites[i].caller != sites[j].caller)
  }

  ghost predicate BlocksFit(live: map<nat, Block>, count: nat) {
    forall p :: p in live ==> live[p].site < count && live[p].bytes < WORD
  }

  ghost predicate Books(sites: seq<Site>, count: nat, live: map<nat, Block>, wrapped: bool) {
    Accounts(sites, live, wrapped) && Callers(sites, count) && BlocksFit(live, count)
  }

  function Charge(s: Site, bytes: nat): Site
    requires s.live < WORD && bytes < WORD
  {
    var live := AddWord(s.live, bytes);
    Site(s.caller, live, if live > s.peak then live else s.peak, s.blocks + 1)
  }

  function Discharge(s: Site, bytes: nat): Site
    requires s.live < WORD && bytes < WORD && s.blocks > 0
  {
    s.(live := SubtractWord(s.live, bytes), blocks := s.blocks - 1)
  }

  lemma DischargeAccounts(sites: seq<Site>, live: map<nat, Block>, wrapped: bool, p: nat)
    requires Accounts(sites, live, wrapped) && p in live && live[p].site < SITES && live[p].bytes < WORD
    ensures sites[live[p].site].blocks > 0 && sites[live[p].site].live < WORD
    ensures Accounts(sites[live[p].site := Discharge(sites[live[p].site], live[p].bytes)], live - {p}, wrapped)
  {
    var b := live[p];
    forall s | 0 <= s < SITES
      ensures Total(live, s, Blocks) == Weight(b, s, Blocks) + Total(live - {p}, s, Blocks)
      ensures Total(live, s, Bytes) == Weight(b, s, Bytes) + Total(live - {p}, s, Bytes)
    {
      TotalRemove(live, p, s, Blocks);
      TotalRemove(live, p, s, Bytes);
    }
    AddTotal(Total(live - {p}, b.site, Bytes), b.bytes);
  }

  lemma ChargeAccounts(sites: seq<Site>, live: map<nat, Block>, wrapped: bool, p: nat, b: Block)
    requires Accounts(sites, live, wrapped) && p !in live && b.site < SITES && b.bytes < WORD
    ensures Accounts(sites[b.site := Charge(sites[b.site], b.bytes)], live[p := b],
                     wrapped || Total(live[p := b], b.site, Bytes) >= WORD)
  {
    forall s | 0 <= s < SITES
      ensures Total(live[p := b], s, Blocks) == Weight(b, s, Blocks) + Total(live, s, Blocks)
      ensures Total(live[p := b], s, Bytes) == Weight(b, s, Bytes) + Total(live, s, Bytes)
    {
      TotalInsert(live, p, b, s, Blocks);
      TotalInsert(live, p, b, s, Bytes);
    }
    AddTotal(Total(live, b.site, Bytes), b.bytes);
  }

  // The sites after trace_remove, which found the block of `p` or nothing.
  ghost function Dropped(sites: seq<Site>, live: map<nat, Block>, p: nat): seq<Site> {
    if p in live && CanTake(sites, live[p]) then
      sites[live[p].site := Discharge(sites[live[p].site], live[p].bytes)]
    else sites
  }

  predicate CanTake(sites: seq<Site>, b: Block) {
    b.site < |sites| && b.bytes < WORD && sites[b.site].blocks > 0 && sites[b.site].live < WORD
  }

  ghost function Charged(sites: seq<Site>, b: Block): seq<Site> {
    if b.site < |sites| && b.bytes < WORD && sites[b.site].live < WORD then
      sites[b.site := Charge(sites[b.site], b.bytes)]
    else sites
  }

  // The sites after trace_insert.
  ghost function Added(sites: seq<Site>, live: map<nat, Block>, p: nat, b: Block): seq<Site> {
    if p == 0 || Full(live, p) then sites else Charged(Dropped(sites, live, p), b)
  }

  // The sites after trace_site, which may have made one for `caller`.
  ghost function Claimed(sites: seq<Site>, count: nat, count': nat, caller: nat): seq<Site> {
    if count < count' && count < |sites| then sites[count := sites[count].(caller := caller)] else sites
  }

  // The peak of the site is at least its live bytes.
  predicate InPeak(s: Site) {
    s.live <= s.peak
  }

  // Removing these bytes does not wrap the live bytes around, or not past the peak.
  predicate Removable(s: Site, bytes: nat) {
    bytes <= s.live || s.live + WORD - bytes <= s.peak
  }

  // Whatever trace_remove takes for `p`, site `s` can lose it and stay in its peak.
  ghost predicate PeakSurvives(sites: seq<Site>, live: map<nat, Block>, p: nat, s: nat)
    requires s < |sites|
  {
    p in live && live[p].site == s ==> Removable(sites[s], live[p].bytes)
  }

  predicate SameCallers(sites: seq<Site>, sites': seq<Site>) {
    |sites| == |sites'| && forall s :: 0 <= s < |sites| ==> sites'[s].caller == sites[s].caller
  }

  predicate SamePeaks(sites: seq<Site>, sites': seq<Site>) {
    |sites| == |sites'| && forall s :: 0 <= s < |sites| ==> sites'[s].peak == sites[s].peak
  }

  // The peak of site `b` is the greater of what it was and of the live bytes now; those of
  // the others stay.
  predicate PeakRaised(sites: seq<Site>, sites': seq<Site>, b: nat) {
    && b < |sites| == |sites'|
    && sites[b].peak <= sites'[b].peak && sites'[b].live <= sites'[b].peak
    && (sites'[b].peak == sites[b].peak || sites'[b].peak == sites'[b].live)
    && (forall s :: 0 <= s < |sites| && s != b ==> sites'[s].peak == sites[s].peak)
  }

  // What an insertion for site `b` does to the peaks: nothing when it inserts nothing.
  predicate PeaksAfter(sites: seq<Site>, sites': seq<Site>, b: nat, inserted: bool) {
    if inserted then PeakRaised(sites, sites', b) else SamePeaks(sites, sites')
  }

  // Sites are only ever added, and the known ones keep their callers.
  predicate KnownCallers(sites: seq<Site>, count: nat, sites': seq<Site>, count': nat) {
    && count <= count' && count <= |sites| == |sites'|
    && (forall i :: 0 <= i < count ==> sites'[i].caller == sites[i].caller)
  }

  lemma CanDischarge(sites: seq<Site>, count: nat, live: map<nat, Block>, wrapped: bool, p: nat, b: Block)
    requires Books(sites, count, live, wrapped) && p in live && live[p] == b
    ensures b.site < SITES && b.bytes < WORD && sites[b.site].blocks > 0 && sites[b.site].live < WORD
  {
    DischargeAccounts(sites, live, wrapped, p);
  }

  lemma DischargeBooks(sites: seq<Site>, count: nat, live: map<nat, Block>, wrapped: bool, p: nat, b: Block,
                       sites': seq<Site>)
    requires Books(sites, count, live, wrapped) && p in live && live[p] == b
    requires b.site < SITES && b.bytes < WORD && sites[b.site].blocks > 0 && sites[b.site].live < WORD
    requires sites' == sites[b.site := Discharge(sites[b.site], b.bytes)]
    ensures Books(sites', count, live - {p}, wrapped) && SameCallers(sites, sites')
  {
    DischargeAccounts(sites, live, wrapped, p);
  }

  lemma ChargeBooks(sites: seq<Site>, count: nat, live: map<nat, Block>, wrapped: bool, p: nat, b: Block,
                    sites': seq<Site>)
    requires Books(sites, count, live, wrapped) && p !in live && b.site < count && b.bytes < WORD
    requires sites[b.site].live < WORD && sites' == sites[b.site := Charge(sites[b.site], b.bytes)]
    ensures Books(sites', count, live[p := b], wrapped || Total(live[p := b], b.site, Bytes) >= WORD)
    ensures SameCallers(sites, sites')
  {
    ChargeAccounts(sites, live, wrapped, p, b);
  }

  // The peak can fall behind only when the site's sum had passed the word size.
  lemma BelowWordSurvives(sites: seq<Site>, live: map<nat, Block>, wrapped: bool, p: nat, s: nat)
    requires Accounts(sites, live, wrapped) && s < SITES && Total(live, s, Bytes) < WORD
    ensures PeakSurvives(sites, live, p, s)
  {
    if p in live {
      TotalRemove(live, p, s, Bytes);
    }
  }

  // A site stays in its peak through trace_remove exactly when it can lose the block.
  lemma PeakAfterRemove(sites: seq<Site>, count: nat, live: map<nat, Block>, wrapped: bool, p: nat, s: nat)
    requires Books(sites, count, live, wrapped) && s < SITES && InPeak(sites[s])
    ensures InPeak(Dropped(sites, live, p)[s]) <==> PeakSurvives(sites, live, p, s)
  {
    if p in live {
      CanDischarge(sites, count, live, wrapped, p, live[p]);
    }
  }

  // trace_insert puts the site of the block into its peak, wherever it was; another site
  // loses an earlier block of the pointer, as in trace_remove.
  lemma PeakAfterInsert(sites: seq<Site>, count: nat, live: map<nat, Block>, wrapped: bool, p: nat, b: Block, s: nat)
    requires Books(sites, count, live, wrapped) && s < SITES && p != 0 && b.site < count && b.bytes < WORD
    ensures s == b.site && !Full(live, p) ==> InPeak(Added(sites, live, p, b)[s])
    ensures InPeak(sites[s]) && s != b.site ==>
              (InPeak(Added(sites, live, p, b)[s]) <==> PeakSurvives(sites, live, p, s))
    ensures Full(live, p) ==> Added(sites, live, p, b) == sites
  {
    if p in live {
      CanDischarge(sites, count, live, wrapped, p, live[p]);
    }
  }

  lemma PeaksAfterInsert(sites: seq<Site>, count: nat, live: map<nat, Block>, wrapped: bool, p: nat, b: Block)
    requires Books(sites, count, live, wrapped) && b.site < count && b.bytes < WORD
    ensures PeaksAfter(sites, Added(sites, live, p, b), b.site, p != 0 && !Full(live, p))
  {
    if p in live {
      CanDischarge(sites, count, live, wrapped, p, live[p]);
    }
  }

  // Inserting the block that was just removed restores the map.
  lemma Restored(live: map<nat, Block>, p: nat)
    requires |live| <= ENTRIES
    ensures p in live ==> Inserted(live - {p}, p, live[p]) == live
    ensures p !in live ==> live - {p} == live
  {
    if p in live {
      RemoveSize(live, p);
      assert (live - {p})[p := live[p]] == live;
    }
  }

  // The counters are machine words too.
  function NextWord(n: nat): nat {
    if n + 1 == WORD then 0 else n + 1
  }

  function NextIf(c: bool, n: nat): nat {
    if c then NextWord(n) else n
  }

  // The size that __wrap_calloc records: the product, held at the largest word.
  function CallocBytes(count: nat, size: nat): (bytes: nat)
    requires count < WORD && size < WORD
    ensures bytes == if count * size < WORD then count * size else WORD - 1
  {
    ProductFits(count, size);
    if count != 0 && size > (WORD - 1) / count then WORD - 1 else count * size
  }

  lemma ProductFits(count: nat, size: nat)
    ensures count != 0 ==> (count * size < WORD <==> size <= (WORD - 1) / count)
  {
    if count != 0 {
      var q, r := (WORD - 1) / count, (WORD - 1) % count;
      assert WORD - 1 == q * count + r;
      if size <= q {
        Monotone(size, q, count);
      } else {
        Monotone(q + 1, size, count);
      }
    }
  }

  lemma Monotone(a: nat, b: nat, c: nat)
    requires a <= b
    ensures a * c <= b * c
  {
  }

  // What an insertion does to the map of tracked blocks: it is dropped only when every
  // entry is taken by another pointer.
  ghost function Inserted(live: map<nat, Block>, p: nat, b: Block): map<nat, Block> {
    if p in live || |live| < ENTRIES then live[p := b] else live
  }

  // The pointer that the second half of realloc tracks, or 0.
  function Attached(size: nat, result: nat, removed: Entry): nat {
    if result != 0 then result else if size != 0 then removed.pointer else 0
  }

  ghost predicate Full(live: map<nat, Block>, p: nat) {
    p !in live && |live| == ENTRIES
  }

  lemma InsertedIs(sites: seq<Site>, live: map<nat, Block>, p: nat, b: Block)
    requires |live| <= ENTRIES && p != 0
    ensures Inserted(live, p, b) == if |live - {p}| < ENTRIES then (live - {p})[p := b] else live - {p}
    ensures |live - {p}| < ENTRIES <==> !Full(live, p)
    ensures Added(sites, live, p, b)
            == if |live - {p}| < ENTRIES then Charged(Dropped(sites, live, p), b) else Dropped(sites, live, p)
  {
    if p in live {
      RemoveSize(live, p);
    } else {
      assert live - {p} == live;
    }
  }

  // The diagnostic counters.
  class Counters {
    var dropped: nat
    var unknownFrees: nat
    var replaced: nat
    var zeroReallocs: nat
    var failed: nat
    var failedCaller: nat
    var failedBytes: nat

    constructor ()
      ensures dropped == unknownFrees == replaced == zeroReallocs == failed == failedCaller == failedBytes == 0
    {
      dropped, unknownFrees, replaced, zeroReallocs, failed := 0, 0, 0, 0, 0;
      failedCaller, failedBytes := 0, 0;
    }
  }

  class Tracer {
    const counters: Counters
    const entries: array<Entry>
    const buckets: array<nat>
    const sites: array<Site>
    var siteCount: nat
    var freeEntry: nat
    var initialized: bool

    ghost var model: Model
    ghost var wrapped: bool

    // The tracked blocks.
    ghost function Live(): map<nat, Block>
      reads this
    {
      model.live
    }

    function Heads(): seq<nat>
      reads this, buckets
    {
      buckets[..] + [freeEntry]
    }

    ghost predicate Shape()
      reads this
    {
      && entries.Length == ENTRIES + 1 && buckets.Length == BUCKETS && sites.Length == SITES
    }

    // Before the first call the tables are all zero, as static storage is.
    ghost predicate Untouched()
      reads this, entries, buckets
      requires Shape()
    {
      && (forall i :: 0 <= i <= ENTRIES ==> entries[i] == EMPTY)
      && (forall b :: 0 <= b < BUCKETS ==> buckets[b] == 0)
      && freeEntry == 0 && Live() == map[]
    }

    ghost predicate Valid()
      reads this, entries, buckets, sites
    {
      && Shape()
      && (if initialized then Tables(entries[..], Heads(), model) else Untouched())
      && Books(sites[..], siteCount, Live(), wrapped)
    }

    constructor ()
      ensures Valid() && fresh(entries) && fresh(buckets) && fresh(sites)
      ensures fresh(counters) && Live() == map[] && !wrapped && !initialized
      ensures siteCount == 1 && sites.Length == SITES && forall i :: 0 <= i < SITES ==> sites[i] == NOBODY
      ensures counters.dropped == counters.replaced == counters.unknownFrees == counters.failed == 0
      ensures counters.zeroReallocs == 0
    {
      entries := new Entry[ENTRIES + 1](_ => EMPTY);
      buckets := new nat[BUCKETS](_ => 0);
      sites := new Site[SITES](_ => NOBODY);
      siteCount, freeEntry, initialized := 1, 0, false;
      counters := new Counters();
      model, wrapped := Model([], [], map[], map[]), false;
      new;
    }

    // The loop of trace_lock that links the entries.
    method LinkFree()
      requires entries.Length == ENTRIES + 1
      requires forall s :: 0 <= s <= ENTRIES ==> entries[s] == EMPTY
      modifies entries
      ensures forall s :: 1 <= s < ENTRIES ==> entries[s] == EMPTY.(next := s + 1)
      ensures entries[ENTRIES] == EMPTY
    {
      var i := 1;
      while i < ENTRIES
        invariant 1 <= i <= ENTRIES
        invariant forall s :: 1 <= s < i ==> entries[s] == EMPTY.(next := s + 1)
        invariant forall s :: i <= s <= ENTRIES ==> entries[s] == EMPTY
      {
        entries[i] := entries[i].(next := i + 1);
        i := i + 1;
      }
    }

    // trace_lock, once the lock is taken: the first caller links the free list.
    method Initialize()
      requires Valid()
      modifies `freeEntry, `initialized, `model, entries
      ensures Valid() && initialized && Live() == old(Live())
    {
      if !initialized {
        LinkFree();
        freeEntry := 1;
        initialized := true;
        model := AllFree(entries[..], Heads());
        assert sites[..] == old(sites[..]);
      }
    }

    // The search of trace_remove: the slot of `pointer` and its predecessor in the
    // bucket's chain, where 0 stands for the bucket head, or slot 0 if it is not there.
    method Find(pointer: nat) returns (prev: nat, slot: nat, ghost k: nat)
      requires Shape() && Tables(entries[..], Heads(), model) && pointer != 0
      ensures slot == 0 <==> pointer !in Live()
      ensures slot != 0 ==>
        && Located(model, pointer, prev, slot, k) && entries[slot].pointer == pointer
        && Live()[pointer] == Block(entries[slot].bytes, entries[slot].site)
    {
      ghost var es, chain, owner := entries[..], model.lists[Bucket(pointer)], model.owner;
      prev, slot, k := 0, buckets[Bucket(pointer)], 0;
      assert IsList(es, owner, Heads()[Bucket(pointer)], chain, Bucket(pointer));
      while slot != 0
        invariant 0 <= k <= |chain| && slot == SlotAt(chain, k) && prev == SlotAt(chain, k - 1)
        invariant forall i :: 0 <= i < k ==> es[chain[i]].pointer != pointer
        decreases |chain| - k
      {
        if entries[slot].pointer == pointer {
          assert IsSlot(slot) && Holds(es, owner, Live(), model.slotOf, pointer);
          return;
        }
        assert es[chain[k]].next == SlotAt(chain, k + 1);
        prev, slot, k := slot, entries[slot].next, k + 1;
      }
      AbsentFromChain(es, Heads(), model, pointer);
    }

    // trace_remove
    method Remove(pointer: nat) returns (removed: Entry)
      requires Valid() && initialized
      modifies `freeEntry, `model, entries, buckets, sites
      ensures Valid() && Live() == old(Live()) - {pointer}
      ensures pointer !in old(Live()) ==> removed == EMPTY
      ensures pointer in old(Live()) ==>
        removed.pointer == pointer && Block(removed.bytes, removed.site) == old(Live())[pointer]
      ensures SameCallers(old(sites[..]), sites[..])
      ensures sites[..] == Dropped(old(sites[..]), old(Live()), pointer)
      ensures pointer in old(Live()) ==> CanTake(old(sites[..]), old(Live())[pointer])
      ensures SamePeaks(old(sites[..]), sites[..])
    {
      removed := EMPTY;
      RemoveAbsent(entries[..], Heads(), model, pointer);
      if pointer == 0 {
        return;
      }
      ghost var k;
      var prev, slot;
      prev, slot, k := Find(pointer);
      if slot != 0 {
        removed := Take(pointer, prev, slot, k);
      }
    }

    // trace_remove, once the entry is found
    method Take(pointer: nat, prev: nat, slot: nat, ghost k: nat) returns (removed: Entry)
      requires Valid() && initialized && Located(model, pointer, prev, slot, k)
      requires entries[slot].pointer == pointer && pointer in Live()
      requires Live()[pointer] == Block(entries[slot].bytes, entries[slot].site)
      modifies `freeEntry, `model, entries, buckets, sites
      ensures Valid() && Live() == old(Live()) - {pointer}
      ensures removed == old(entries[slot])
      ensures SameCallers(old(sites[..]), sites[..])
      ensures sites[..] == Dropped(old(sites[..]), old(Live()), pointer)
      ensures CanTake(old(sites[..]), old(Live())[pointer])
    {
      removed := entries[slot];
      ghost var was, tracked := sites[..], Live();
      ghost var block := Block(removed.bytes, removed.site);
      CanDischarge(was, siteCount, tracked, wrapped, pointer, block);
      Detach(pointer, prev, slot, k);
      SetSite(removed.site, Discharge(sites[removed.site], removed.bytes));
      DischargeBooks(was, siteCount, tracked, wrapped, pointer, block, sites[..]);
    }

    lemma NullUntracked()
      requires Valid() && initialized
      ensures 0 !in Live() && |Live()| <= ENTRIES
    {
      RemoveAbsent(entries[..], Heads(), model, 0);
    }

    // An update of one site's counters.
    method SetSite(index: nat, site: Site)
      requires Shape() && index < SITES
      modifies sites
      ensures sites[..] == old(sites[..])[index := site]
      ensures entries[..] == old(entries[..]) && Heads() == old(Heads())
    {
      sites[index] := site;
    }

    // trace_remove, without the site's counters
    method Detach(pointer: nat, prev: nat, slot: nat, ghost k: nat)
      requires Shape() && Tables(entries[..], Heads(), model) && Located(model, pointer, prev, slot, k)
      modifies `freeEntry, `model, entries, buckets
      ensures Shape() && Tables(entries[..], Heads(), model) && Live() == old(Live()) - {pointer}
      ensures sites[..] == old(sites[..])
    {
      ghost var es, heads := entries[..], Heads();
      Unlink(Bucket(pointer), prev, slot);
      ghost var m := RemoveKeeps(es, heads, model, pointer, prev, slot, k, entries[..], Heads());
      Adopt(m);
    }

    ghost method Adopt(m: Model)
      requires Shape()
      modifies `model
      ensures Shape() && model == m && entries[..] == old(entries[..]) && Heads() == old(Heads())
      ensures sites[..] == old(sites[..])
    {
      model := m;
    }

    // The links and the pointer that trace_remove changes.
    method Unlink(bucket: nat, prev: nat, slot: nat)
      requires Shape() && bucket < BUCKETS && prev <= ENTRIES && slot <= ENTRIES
      modifies `freeEntry, entries, buckets
      ensures Shape()
      ensures entries[..] == UnlinkEntries(old(entries[..]), prev, slot, old(freeEntry))
      ensures Heads() == UnlinkHeads(old(Heads()), bucket, prev, slot, old(entries[slot].next))
      ensures sites[..] == old(sites[..])
    {
      if prev == 0 {
        buckets[bucket] := entries[slot].next;
      } else {
        entries[prev] := entries[prev].(next := entries[slot].next);
      }
      entries[slot] := entries[slot].(pointer := 0, next := freeEntry);
      freeEntry := slot;
    }

    // trace_insert
    method Insert(pointer: nat, bytes: nat, site: nat)
      requires Valid() && initialized && bytes < WORD && site < siteCount
      modifies `freeEntry, `model, `wrapped, entries, buckets, sites
      modifies counters`replaced, counters`dropped
      ensures Valid()
      ensures Live() == if pointer == 0 then old(Live()) else Inserted(old(Live()), pointer, Block(bytes, site))
      ensures sites[..] == Added(old(sites[..]), old(Live()), pointer, Block(bytes, site))
      ensures counters.dropped == NextIf(pointer != 0 && Full(old(Live()), pointer), old(counters.dropped))
      ensures counters.replaced == NextIf(pointer in old(Live()), old(counters.replaced))
      ensures SameCallers(old(sites[..]), sites[..])
      ensures old(wrapped) ==> wrapped
      ensures wrapped ==> old(wrapped) || (pointer != 0 && Total(Live(), site, Bytes) >= WORD)
      ensures PeaksAfter(old(sites[..]), sites[..], site, pointer != 0 && !Full(old(Live()), pointer))
    {
      PeaksAfterInsert(sites[..], siteCount, Live(), wrapped, pointer, Block(bytes, site));
      NullUntracked();
      if pointer != 0 {
        Enter(pointer, bytes, site);
      }
    }

    // trace_insert of a pointer that is not null
    method Enter(pointer: nat, bytes: nat, site: nat)
      requires Valid() && initialized && bytes < WORD && site < siteCount && pointer != 0
      modifies `freeEntry, `model, `wrapped, entries, buckets, sites
      modifies counters`replaced, counters`dropped
      ensures Valid()
      ensures Live() == Inserted(old(Live()), pointer, Block(bytes, site))
      ensures sites[..] == Added(old(sites[..]), old(Live()), pointer, Block(bytes, site))
      ensures counters.dropped == NextIf(Full(old(Live()), pointer), old(counters.dropped))
      ensures counters.replaced == NextIf(pointer in old(Live()), old(counters.replaced))
      ensures old(wrapped) ==> wrapped
      ensures wrapped ==> old(wrapped) || Total(Live(), site, Bytes) >= WORD
    {
      ghost var was, tracked, b := sites[..], Live(), Block(bytes, site);
      RemovePrior(pointer);
      InsertedIs(was, tracked, pointer, b);
      Place(pointer, bytes, site);
      assert Live() == Inserted(tracked, pointer, b) && sites[..] == Added(was, tracked, pointer, b);
    }

    // trace_insert: an entry for the pointer is one whose free was not seen.
    method RemovePrior(pointer: nat)
      requires Valid() && initialized && pointer != 0
      modifies `freeEntry, `model, entries, buckets, sites, counters`replaced
      ensures Valid() && Live() == old(Live()) - {pointer} && |old(Live())| <= ENTRIES
      ensures counters.replaced == NextIf(pointer in old(Live()), old(counters.replaced))
      ensures sites[..] == Dropped(old(sites[..]), old(Live()), pointer)
      ensures pointer in old(Live()) ==> CanTake(old(sites[..]), old(Live())[pointer])
    {
      NullUntracked();
      var prior := Remove(pointer);
      if prior.pointer != 0 {
        counters.replaced := NextWord(counters.replaced);
      }
    }

    // trace_insert, once an earlier entry for the pointer is gone
    method Place(pointer: nat, bytes: nat, site: nat)
      requires Valid() && initialized && pointer != 0 && pointer !in Live()
      requires bytes < WORD && site < siteCount
      modifies `freeEntry, `model, `wrapped, entries, buckets, sites, counters`dropped
      ensures Valid()
      ensures Live() == if |old(Live())| < ENTRIES then old(Live())[pointer := Block(bytes, site)] else old(Live())
      ensures sites[..] == if |old(Live())| < ENTRIES then Charged(old(sites[..]), Block(bytes, site))
                           else old(sites[..])
      ensures counters.dropped == NextIf(|old(Live())| >= ENTRIES, old(counters.dropped))
      ensures old(wrapped) ==> wrapped
      ensures wrapped ==> old(wrapped) || Total(Live(), site, Bytes) >= WORD
    {
      FullWhenNoneFree(entries[..], Heads(), model);
      if freeEntry == 0 {
        counters.dropped := NextWord(counters.dropped);
      } else {
        Give(pointer, bytes, site);
      }
    }

    // trace_insert, once there is a free entry
    method Give(pointer: nat, bytes: nat, site: nat)
      requires Valid() && initialized && freeEntry != 0
      requires pointer != 0 && pointer !in Live() && bytes < WORD && site < siteCount
      modifies `freeEntry, `model, `wrapped, entries, buckets, sites
      ensures Valid() && Live() == old(Live())[pointer := Block(bytes, site)]
      ensures sites[..] == Charged(old(sites[..]), Block(bytes, site))
      ensures wrapped == (old(wrapped) || Total(Live(), site, Bytes) >= WORD)
    {
      ghost var was, tracked := sites[..], Live();
      Attach(pointer, bytes, site);
      SetSite(site, Charge(sites[site], bytes));
      ChargeBooks(was, siteCount, tracked, wrapped, pointer, Block(bytes, site), sites[..]);
      SetWrapped(wrapped || Total(Live(), site, Bytes) >= WORD);
    }

    ghost method SetWrapped(w: bool)
      requires Shape()
      modifies `wrapped
      ensures wrapped == w && entries[..] == old(entries[..]) && Heads() == old(Heads()) && sites[..] == old(sites[..])
    {
      wrapped := w;
    }

    // trace_insert, without the site's counters
    method Attach(pointer: nat, bytes: nat, site: nat)
      requires Shape() && Tables(entries[..], Heads(), model) && freeEntry != 0
      requires pointer != 0 && pointer !in Live()
      modifies `freeEntry, `model, entries, buckets
      ensures Shape() && Tables(entries[..], Heads(), model)
      ensures Live() == old(Live())[pointer := Block(bytes, site)]
      ensures sites[..] == old(sites[..])
    {
      ghost var es, heads := entries[..], Heads();
      FullWhenNoneFree(es, heads, model);
      Link(pointer, bytes, site);
      ghost var m := InsertKeeps(es, heads, model, pointer, Block(bytes, site), entries[..], Heads());
      Adopt(m);
    }

    // The links and the entry that trace_insert writes.
    method Link(pointer: nat, bytes: nat, site: nat)
      requires Shape() && freeEntry <= ENTRIES
      modifies `freeEntry, entries, buckets
      ensures Shape()
      ensures entries[..] == LinkEntries(old(entries[..]), old(freeEntry), pointer, Block(bytes, site),
                                         old(Heads())[Bucket(pointer)])
      ensures Heads() == LinkHeads(old(Heads()), Bucket(pointer), old(freeEntry), old(entries[freeEntry].next))
      ensures sites[..] == old(sites[..])
    {
      var slot := freeEntry;
      freeEntry := entries[slot].next;
      entries[slot] := Entry(pointer, bytes, site, buckets[Bucket(pointer)]);
      buckets[Bucket(pointer)] := slot;
    }

    // trace_site
    method SiteOf(caller: nat) returns (site: nat)
      requires Valid() && initialized
      modifies `siteCount, sites
      ensures Valid() && Live() == old(Live())
      ensures site < siteCount && old(siteCount) <= siteCount
      ensures site > 0 ==> sites[site].caller == caller
      ensures site == 0 ==> siteCount == SITES && forall i :: 1 <= i < SITES ==> sites[i].caller != caller
      ensures siteCount == old(siteCount) || (siteCount == old(siteCount) + 1 && site == old(siteCount))
      ensures sites[..] == Claimed(old(sites[..]), old(siteCount), siteCount, caller)
      ensures forall i :: 0 <= i < old(siteCount) ==> sites[i] == old(sites[i])
    {
      var i := 1;
      while i < siteCount
        invariant 1 <= i <= siteCount
        invariant forall k :: 1 <= k < i ==> sites[k].caller != caller
      {
        if sites[i].caller == caller {
          return i;
        }
        i := i + 1;
      }
      if siteCount == SITES {
        return 0;
      }
      site := siteCount;
      SetSite(site, sites[site].(caller := caller));
      SetCount(siteCount + 1);
    }

    method SetCount(count: nat)
      requires Shape()
      modifies `siteCount
      ensures siteCount == count && entries[..] == old(entries[..]) && Heads() == old(Heads())
      ensures sites[..] == old(sites[..])
    {
      siteCount := count;
    }

    /* ---------- The wrappers' critical sections ---------- */

    // The site that was found or made for `caller`, or site 0 when all are other callers'.
    ghost predicate SiteFor(site: nat, caller: nat)
      reads this, sites
    {
      && site < siteCount <= SITES == sites.Length
      && (site > 0 ==> sites[site].caller == caller)
      && (site == 0 ==> siteCount == SITES && forall i :: 1 <= i < SITES ==> sites[i].caller != caller)
    }

    // trace_result, for __wrap_malloc and __wrap_calloc
    method Result(pointer: nat, bytes: nat, caller: nat) returns (ghost site: nat)
      requires Valid() && bytes < WORD
      modifies `siteCount, `freeEntry, `initialized, `model, `wrapped, entries, buckets, sites
      modifies counters`dropped, counters`replaced, counters`failed, counters`failedCaller, counters`failedBytes
      ensures Valid() && initialized
      ensures KnownCallers(old(sites[..]), old(siteCount), sites[..], siteCount)
      ensures old(wrapped) ==> wrapped
      ensures wrapped ==> old(wrapped) || (pointer != 0 && Total(Live(), site, Bytes) >= WORD)
      ensures pointer == 0 ==>
        Live() == old(Live()) && sites[..] == old(sites[..]) && siteCount == old(siteCount)
      ensures pointer != 0 ==>
        && SiteFor(site, caller) && Live() == Inserted(old(Live()), pointer, Block(bytes, site))
        && (siteCount == old(siteCount) || (siteCount == old(siteCount) + 1 && site == old(siteCount)))
        && sites[..] == Added(Claimed(old(sites[..]), old(siteCount), siteCount, caller), old(Live()), pointer,
                              Block(bytes, site))
      ensures counters.dropped == NextIf(pointer != 0 && Full(old(Live()), pointer), old(counters.dropped))
      ensures counters.replaced == NextIf(pointer in old(Live()), old(counters.replaced))
      ensures counters.failed == NextIf(pointer == 0 && bytes != 0, old(counters.failed))
      ensures pointer == 0 && bytes != 0 ==> counters.failedCaller == caller && counters.failedBytes == bytes
      ensures PeaksAfter(old(sites[..]), sites[..], site, pointer != 0 && !Full(old(Live()), pointer))
    {
      site := 0;
      Initialize();
      NullUntracked();
      if pointer != 0 {
        site := Track(pointer, bytes, caller);
      } else if bytes != 0 {
        NoteFailure(caller, bytes);
      }
    }

    // trace_insert under the caller's site
    method Track(pointer: nat, bytes: nat, caller: nat) returns (ghost site: nat)
      requires Valid() && initialized && bytes < WORD && pointer != 0
      modifies `siteCount, `freeEntry, `model, `wrapped, entries, buckets, sites
      modifies counters`replaced, counters`dropped
      ensures Valid()
      ensures KnownCallers(old(sites[..]), old(siteCount), sites[..], siteCount)
      ensures old(wrapped) ==> wrapped
      ensures wrapped ==> old(wrapped) || Total(Live(), site, Bytes) >= WORD
      ensures SiteFor(site, caller) && Live() == Inserted(old(Live()), pointer, Block(bytes, site))
      ensures siteCount == old(siteCount) || (siteCount == old(siteCount) + 1 && site == old(siteCount))
      ensures sites[..] == Added(Claimed(old(sites[..]), old(siteCount), siteCount, caller), old(Live()), pointer,
                                 Block(bytes, site))
      ensures counters.dropped == NextIf(Full(old(Live()), pointer), old(counters.dropped))
      ensures counters.replaced == NextIf(pointer in old(Live()), old(counters.replaced))
      ensures PeaksAfter(old(sites[..]), sites[..], site, !Full(old(Live()), pointer))
    {
      ghost var was, count := sites[..], siteCount;
      var s := SiteOf(caller);
      ghost var claimed := sites[..];
      assert KnownCallers(was, count, claimed, siteCount) && SamePeaks(was, claimed);
      Insert(pointer, bytes, s);
      assert SameCallers(claimed, sites[..]);
      site := s;
    }

    method NoteFailure(caller: nat, bytes: nat)
      requires Valid()
      modifies counters`failed, counters`failedCaller, counters`failedBytes
      ensures Valid() && Live() == old(Live()) && sites[..] == old(sites[..])
      ensures counters.failed == NextWord(old(counters.failed))
      ensures counters.failedCaller == caller && counters.failedBytes == bytes
    {
      counters.failed := NextWord(counters.failed);
      counters.failedCaller, counters.failedBytes := caller, bytes;
    }

    // __wrap_free, before the real free
    method Free(pointer: nat)
      requires Valid()
      modifies `freeEntry, `initialized, `model, entries, buckets, sites, counters`unknownFrees
      ensures Valid() && initialized && Live() == old(Live()) - {pointer}
      ensures SameCallers(old(sites[..]), sites[..])
      ensures sites[..] == Dropped(old(sites[..]), old(Live()), pointer)
      ensures SamePeaks(old(sites[..]), sites[..])
      ensures counters.unknownFrees
              == NextIf(pointer != 0 && pointer !in old(Live()), old(counters.unknownFrees))
    {
      Initialize();
      var removed := Remove(pointer);
      if pointer != 0 && removed.pointer == 0 {
        counters.unknownFrees := NextWord(counters.unknownFrees);
      }
    }

    // __wrap_realloc, before the real realloc
    method ReallocDetach(pointer: nat) returns (removed: Entry)
      requires Valid()
      modifies `freeEntry, `initialized, `model, entries, buckets, sites
      ensures Valid() && initialized && Live() == old(Live()) - {pointer}
      ensures removed.bytes < WORD && removed.site < siteCount && |old(Live())| <= ENTRIES
      ensures removed.pointer != 0 <==> pointer in old(Live())
      ensures pointer !in old(Live()) ==> removed == EMPTY
      ensures pointer in old(Live()) ==>
        removed.pointer == pointer && Block(removed.bytes, removed.site) == old(Live())[pointer]
      ensures SameCallers(old(sites[..]), sites[..])
      ensures sites[..] == Dropped(old(sites[..]), old(Live()), pointer)
      ensures SamePeaks(old(sites[..]), sites[..])
    {
      Initialize();
      NullUntracked();
      removed := Remove(pointer);
    }

    method NoteZeroRealloc()
      requires Valid()
      modifies counters`zeroReallocs
      ensures Valid() && Live() == old(Live()) && sites[..] == old(sites[..])
      ensures counters.zeroReallocs == NextWord(old(counters.zeroReallocs))
    {
      counters.zeroReallocs := NextWord(counters.zeroReallocs);
    }

    // A failed realloc: the block that was detached is tracked again.
    method PutBack(removed: Entry, size: nat, caller: nat)
      requires Valid() && initialized && removed.bytes < WORD && removed.site < siteCount
      modifies `freeEntry, `model, `wrapped, entries, buckets, sites
      modifies counters`dropped, counters`replaced, counters`failed, counters`failedCaller, counters`failedBytes
      ensures Valid()
      ensures SameCallers(old(sites[..]), sites[..])
      ensures old(wrapped) ==> wrapped
      ensures wrapped ==> old(wrapped) || Total(Live(), removed.site, Bytes) >= WORD
      ensures removed.pointer == 0 ==> Live() == old(Live()) && sites[..] == old(sites[..])
      ensures removed.pointer != 0 ==>
        && Live() == Inserted(old(Live()), removed.pointer, Block(removed.bytes, removed.site))
        && sites[..] == Added(old(sites[..]), old(Live()), removed.pointer, Block(removed.bytes, removed.site))
      ensures counters.dropped
              == NextIf(removed.pointer != 0 && Full(old(Live()), removed.pointer), old(counters.dropped))
      ensures counters.replaced == NextIf(removed.pointer in old(Live()), old(counters.replaced))
      ensures counters.failed == NextWord(old(counters.failed))
      ensures counters.failedCaller == caller && counters.failedBytes == size
      ensures PeaksAfter(old(sites[..]), sites[..], removed.site,
                         removed.pointer != 0 && !Full(old(Live()), removed.pointer))
    {
      NullUntracked();
      if removed.pointer != 0 {
        Insert(removed.pointer, removed.bytes, removed.site);
      }
      NoteFailure(caller, size);
    }

    // __wrap_realloc, after the real realloc returned `result`: `site` is the one that is
    // charged, the removed block's own when the allocation failed.
    method ReallocAttach(pointer: nat, size: nat, result: nat, removed: Entry, caller: nat)
      returns (ghost site: nat)
      requires Valid() && initialized && size < WORD
      requires removed.bytes < WORD && removed.site < siteCount
      modifies `siteCount, `freeEntry, `model, `wrapped, entries, buckets, sites, counters
      ensures Valid()
      ensures KnownCallers(old(sites[..]), old(siteCount), sites[..], siteCount)
      ensures old(wrapped) ==> wrapped
      ensures wrapped ==> old(wrapped) || Total(Live(), site, Bytes) >= WORD
      ensures result != 0 ==>
        && SiteFor(site, caller) && Live() == Inserted(old(Live()), result, Block(size, site))
        && (siteCount == old(siteCount) || (siteCount == old(siteCount) + 1 && site == old(siteCount)))
        && sites[..] == Added(Claimed(old(sites[..]), old(siteCount), siteCount, caller), old(Live()), result,
                              Block(size, site))
      ensures result == 0 ==> siteCount == old(siteCount) && site == removed.site
      ensures result == 0 && size != 0 && removed.pointer != 0 ==>
        && Live() == Inserted(old(Live()), removed.pointer, Block(removed.bytes, removed.site))
        && sites[..] == Added(old(sites[..]), old(Live()), removed.pointer, Block(removed.bytes, removed.site))
      ensures result == 0 && (size == 0 || removed.pointer == 0) ==>
        Live() == old(Live()) && sites[..] == old(sites[..])
      ensures counters.dropped == NextIf(Attached(size, result, removed) != 0
                                         && Full(old(Live()), Attached(size, result, removed)), old(counters.dropped))
      ensures counters.replaced == NextIf(Attached(size, result, removed) in old(Live()), old(counters.replaced))
      ensures counters.failed == NextIf(result == 0 && size != 0, old(counters.failed))
      ensures result == 0 && size != 0 ==> counters.failedCaller == caller && counters.failedBytes == size
      ensures counters.zeroReallocs
              == NextIf(result == 0 && size == 0 && pointer != 0, old(counters.zeroReallocs))
      ensures counters.unknownFrees == old(counters.unknownFrees)
      ensures PeaksAfter(old(sites[..]), sites[..], site, Attached(size, result, removed) != 0
                         && !Full(old(Live()), Attached(size, result, removed)))
    {
      NullUntracked();
      site := removed.site;
      if result != 0 {
        site := Track(result, size, caller);
      } else if size != 0 {
        PutBack(removed, size, caller);
      } else if pointer != 0 {
        NoteZeroRealloc();
      }
    }

    // A whole __wrap_realloc that no other thread interrupts. One that fails leaves the
    // tracked blocks as they were.
    method Realloc(pointer: nat, size: nat, result: nat, caller: nat) returns (ghost site: nat)
      requires Valid() && size < WORD
      modifies `siteCount, `freeEntry, `initialized, `model, `wrapped, entries, buckets, sites, counters
      ensures Valid()
      ensures KnownCallers(old(sites[..]), old(siteCount), sites[..], siteCount)
      ensures old(wrapped) ==> wrapped
      ensures wrapped ==> old(wrapped) || Total(Live(), site, Bytes) >= WORD
      ensures result == 0 && size != 0 ==> Live() == old(Live())
      ensures result == 0 && size == 0 ==> Live() == old(Live()) - {pointer}
      ensures result != 0 ==>
        SiteFor(site, caller) && Live() == Inserted(old(Live()) - {pointer}, result, Block(size, site))
    {
      ghost var tracked := Live();
      var removed := ReallocDetach(pointer);
      Restored(tracked, pointer);
      site := ReallocAttach(pointer, size, result, removed, caller);
    }
  }
}
