// The data structure of src/app/heap_trace.c on values: a table of entries linked
// through `next` into one chain per bucket and one free list, and the map from
// tracked pointers to blocks that it represents.
module HeapLists {
  const ENTRIES := 8192
  const BUCKETS := 1024
  const FREE := BUCKETS             // the free list is list number BUCKETS
  const WORD := 0x1_0000_0000       // size_t and unsigned int have 32 bits

  // A null pointer is 0; slot 0 is never used, so 0 also ends a list.
  datatype Entry = Entry(pointer: nat, bytes: nat, site: nat, next: nat)
  datatype Block = Block(bytes: nat, site: nat)

  const EMPTY := Entry(0, 0, 0, 0)

  function Bucket(pointer: nat): (b: nat)
    ensures b < BUCKETS
  {
    (pointer / 8) % BUCKETS
  }

  function SlotAt(list: seq<nat>, i: int): nat {
    if 0 <= i < |list| then list[i] else 0
  }

  // `list` is what `head` leads to, without repetition, and all its slots belong to `b`.
  ghost predicate IsList(es: seq<Entry>, owner: seq<nat>, head: nat, list: seq<nat>, b: nat)
    requires |es| == |owner| == ENTRIES + 1
  {
    && head == SlotAt(list, 0)
    && (forall i :: 0 <= i < |list| ==> 1 <= list[i] <= ENTRIES && owner[list[i]] == b)
    && (forall i {:trigger es[list[i]]} :: 0 <= i < |list| ==> es[list[i]].next == SlotAt(list, i + 1))
    && (forall i, j :: 0 <= i < j < |list| ==> list[i] != list[j])
  }

  predicate IsSlot(s: int) {
    1 <= s <= ENTRIES
  }

  // `heads[b]` starts list `b`, and every slot is in the list that `owner` names.
  ghost predicate Linked(es: seq<Entry>, heads: seq<nat>, lists: seq<seq<nat>>, owner: seq<nat>) {
    && |es| == |owner| == ENTRIES + 1 && |heads| == |lists| == BUCKETS + 1
    && (forall b {:trigger IsList(es, owner, heads[b], lists[b], b)} ::
          0 <= b <= BUCKETS ==> IsList(es, owner, heads[b], lists[b], b))
    && (forall s {:trigger IsSlot(s)} :: IsSlot(s) ==> 0 <= owner[s] <= BUCKETS && s in lists[owner[s]])
  }

  // The entry of a tracked pointer, in its pointer's bucket.
  ghost predicate Holds(es: seq<Entry>, owner: seq<nat>, live: map<nat, Block>, slotOf: map<nat, nat>, p: nat)
    requires |es| == |owner| == ENTRIES + 1 && p in live && p in slotOf
  {
    && 1 <= slotOf[p] <= ENTRIES && owner[slotOf[p]] == Bucket(p)
    && es[slotOf[p]].pointer == p
    && live[p] == Block(es[slotOf[p]].bytes, es[slotOf[p]].site)
  }

  // The entries in bucket chains are the tracked blocks.
  ghost predicate Represents(es: seq<Entry>, owner: seq<nat>, live: map<nat, Block>, slotOf: map<nat, nat>)
    requires |es| == |owner| == ENTRIES + 1
  {
    && live.Keys == slotOf.Keys && 0 !in live
    && (forall p {:trigger Holds(es, owner, live, slotOf, p)} ::
          p in slotOf ==> Holds(es, owner, live, slotOf, p))
    && (forall s {:trigger IsSlot(s)} :: IsSlot(s) && owner[s] != FREE ==>
          es[s].pointer in slotOf && slotOf[es[s].pointer] == s)
  }

  function Drop(list: seq<nat>, k: nat): seq<nat>
    requires k < |list|
  {
    list[..k] + list[k + 1..]
  }

  // The lists after slot `lists[b][k]` went to the front of list `c`.
  function Moved(lists: seq<seq<nat>>, b: nat, k: nat, c: nat): seq<seq<nat>>
    requires b < |lists| && c < |lists| && b != c && k < |lists[b]|
  {
    lists[b := Drop(lists[b], k)][c := [lists[b][k]] + lists[c]]
  }

  // The links of `es'` differ from those of `es` at most at `slot` and at `prev`.
  ghost predicate Relinked(es: seq<Entry>, es': seq<Entry>, slot: nat, prev: nat) {
    && |es| == |es'|
    && (forall s :: 0 <= s < |es| && s != slot && s != prev ==> es'[s].next == es[s].next)
  }

  lemma DropKeepsList(es: seq<Entry>, owner: seq<nat>, head: nat, list: seq<nat>, b: nat, k: nat, c: nat,
                      es': seq<Entry>)
    requires |es| == |owner| == ENTRIES + 1
    requires IsList(es, owner, head, list, b) && k < |list| && b != c
    requires Relinked(es, es', list[k], SlotAt(list, k - 1))
    requires k > 0 ==> es'[list[k - 1]].next == es[list[k]].next
    ensures IsList(es', owner[list[k] := c], if k == 0 then es[list[k]].next else head, Drop(list, k), b)
  {
    var rest := Drop(list, k);
    assert forall i :: 0 <= i < |rest| ==> rest[i] == list[if i < k then i else i + 1];
    assert es[list[k]].next == SlotAt(list, k + 1);
    forall i | 0 <= i < |rest|
      ensures es'[rest[i]].next == SlotAt(rest, i + 1)
    {
      var j := if i < k then i else i + 1;
      assert es[list[j]].next == SlotAt(list, j + 1);
    }
  }

  lemma OtherKeepsList(es: seq<Entry>, owner: seq<nat>, head: nat, list: seq<nat>, d: nat, slot: nat, prev: nat,
                       c: nat, es': seq<Entry>)
    requires |es| == |owner| == ENTRIES + 1
    requires IsList(es, owner, head, list, d) && 1 <= slot <= ENTRIES && owner[slot] != d && d != c
    requires Relinked(es, es', slot, prev) && (prev == 0 || prev >= |owner| || owner[prev] != d)
    ensures IsList(es', owner[slot := c], head, list, d)
  {
  }

  lemma MoveCovers(lists: seq<seq<nat>>, owner: seq<nat>, b: nat, k: nat, c: nat, s: nat)
    requires |lists| == BUCKETS + 1 && |owner| == ENTRIES + 1
    requires b <= BUCKETS && c <= BUCKETS && b != c && k < |lists[b]| && 1 <= lists[b][k] <= ENTRIES
    requires IsSlot(s) && 0 <= owner[s] <= BUCKETS && s in lists[owner[s]]
    ensures var owner' := owner[lists[b][k] := c];
      0 <= owner'[s] <= BUCKETS && s in Moved(lists, b, k, c)[owner'[s]]
  {
    var slot, lists' := lists[b][k], Moved(lists, b, k, c);
    if s == slot {
      assert lists'[c][0] == slot;
    } else {
      var i :| 0 <= i < |lists[owner[s]]| && lists[owner[s]][i] == s;
      if owner[s] == b {
        assert lists'[b][if i < k then i else i - 1] == s;
      } else if owner[s] == c {
        assert lists'[c][i + 1] == s;
      }
    }
  }

  // Unlinking element `k` of list `b` and pushing it on list `c` keeps all lists: `heads'`
  // and `es'` are what the assignments of links leave.
  lemma MoveKeepsLinked(es: seq<Entry>, heads: seq<nat>, lists: seq<seq<nat>>, owner: seq<nat>,
                        b: nat, k: nat, c: nat, es': seq<Entry>, heads': seq<nat>)
    requires Linked(es, heads, lists, owner)
    requires b <= BUCKETS && c <= BUCKETS && b != c && k < |lists[b]|
    requires 1 <= lists[b][k] <= ENTRIES && SlotAt(lists[b], k - 1) <= ENTRIES
    requires Relinked(es, es', lists[b][k], SlotAt(lists[b], k - 1)) && |heads'| == |heads|
    requires es'[lists[b][k]].next == heads[c]
    requires k > 0 ==> es'[lists[b][k - 1]].next == es[lists[b][k]].next
    requires heads'[c] == lists[b][k]
    requires heads'[b] == if k == 0 then es[lists[b][k]].next else heads[b]
    requires forall d :: 0 <= d <= BUCKETS && d != b && d != c ==> heads'[d] == heads[d]
    ensures Linked(es', heads', Moved(lists, b, k, c), owner[lists[b][k] := c])
  {
    var slot, prev := lists[b][k], SlotAt(lists[b], k - 1);
    var lists', owner' := Moved(lists, b, k, c), owner[slot := c];
    assert IsList(es, owner, heads[b], lists[b], b) && IsList(es, owner, heads[c], lists[c], c);
    DropKeepsList(es, owner, heads[b], lists[b], b, k, c, es');
    forall d | 0 <= d <= BUCKETS
      ensures IsList(es', owner', heads'[d], lists'[d], d)
    {
      if d != b && d != c {
        OtherKeepsList(es, owner, heads[d], lists[d], d, slot, prev, c, es');
      }
    }
    forall s | IsSlot(s)
      ensures 0 <= owner'[s] <= BUCKETS && s in lists'[owner'[s]]
    {
      MoveCovers(lists, owner, b, k, c, s);
    }
  }

  /* ---------- The represented map ---------- */

  // The blocks of `es'` differ from those of `es` at most at `slot`.
  predicate SameBlocks(es: seq<Entry>, es': seq<Entry>, slot: nat) {
    && |es| == |es'|
    && (forall s :: 0 <= s < |es| && s != slot ==>
          es'[s].pointer == es[s].pointer && es'[s].bytes == es[s].bytes && es'[s].site == es[s].site)
  }

  lemma RemoveRepresents(es: seq<Entry>, owner: seq<nat>, live: map<nat, Block>, slotOf: map<nat, nat>,
                         slot: nat, p: nat, es': seq<Entry>)
    requires |es| == |owner| == ENTRIES + 1 && Represents(es, owner, live, slotOf)
    requires IsSlot(slot) && owner[slot] != FREE && SameBlocks(es, es', slot)
    requires es[slot].pointer == p
    ensures p in live && Represents(es', owner[slot := FREE], live - {p}, slotOf - {p})
  {
    forall q | q in slotOf - {p}
      ensures Holds(es', owner[slot := FREE], live - {p}, slotOf - {p}, q)
    {
      assert Holds(es, owner, live, slotOf, q);
    }
  }

  lemma InsertRepresents(es: seq<Entry>, owner: seq<nat>, live: map<nat, Block>, slotOf: map<nat, nat>,
                         slot: nat, p: nat, block: Block, es': seq<Entry>)
    requires |es| == |owner| == ENTRIES + 1 && Represents(es, owner, live, slotOf)
    requires IsSlot(slot) && owner[slot] == FREE && SameBlocks(es, es', slot)
    requires p != 0 && p !in live
    requires es'[slot].pointer == p && es'[slot].bytes == block.bytes && es'[slot].site == block.site
    ensures Represents(es', owner[slot := Bucket(p)], live[p := block], slotOf[p := slot])
  {
    var slotOf' := slotOf[p := slot];
    forall q | q in slotOf'
      ensures Holds(es', owner[slot := Bucket(p)], live[p := block], slotOf', q)
    {
      if q != p {
        assert Holds(es, owner, live, slotOf, q);
      }
    }
  }

  /* ---------- Removing and inserting ---------- */

  // What trace_remove leaves of the entries and of the list heads. `prev` is 0 when the
  // bucket itself leads to `slot`.
  function UnlinkEntries(es: seq<Entry>, prev: nat, slot: nat, free: nat): seq<Entry>
    requires prev < |es| && slot < |es|
  {
    var linked := if prev == 0 then es else es[prev := es[prev].(next := es[slot].next)];
    linked[slot := linked[slot].(pointer := 0, next := free)]
  }

  function UnlinkHeads(heads: seq<nat>, bucket: nat, prev: nat, slot: nat, next: nat): seq<nat>
    requires bucket < FREE < |heads|
  {
    (if prev == 0 then heads[bucket := next] else heads)[FREE := slot]
  }

  lemma UnlinkKeeps(es: seq<Entry>, heads: seq<nat>, lists: seq<seq<nat>>, owner: seq<nat>, bucket: nat, k: nat,
                    es': seq<Entry>, heads': seq<nat>)
    returns (lists': seq<seq<nat>>, owner': seq<nat>)
    requires Linked(es, heads, lists, owner) && bucket < BUCKETS && k < |lists[bucket]|
    requires 1 <= lists[bucket][k] <= ENTRIES && SlotAt(lists[bucket], k - 1) <= ENTRIES
    requires es' == UnlinkEntries(es, SlotAt(lists[bucket], k - 1), lists[bucket][k], heads[FREE])
    requires heads' == UnlinkHeads(heads, bucket, SlotAt(lists[bucket], k - 1), lists[bucket][k],
                                   es[lists[bucket][k]].next)
    ensures Linked(es', heads', lists', owner') && owner' == owner[lists[bucket][k] := FREE]
    ensures |lists'[FREE]| == |lists[FREE]| + 1
    ensures SameBlocks(es, es', lists[bucket][k]) && owner[lists[bucket][k]] == bucket
  {
    assert IsList(es, owner, heads[bucket], lists[bucket], bucket);
    var slot, prev := lists[bucket][k], SlotAt(lists[bucket], k - 1);
    assert prev != slot;
    assert Relinked(es, es', slot, prev);
    MoveKeepsLinked(es, heads, lists, owner, bucket, k, FREE, es', heads');
    lists', owner' := Moved(lists, bucket, k, FREE), owner[slot := FREE];
  }

  // What trace_insert leaves, given a free entry.
  function LinkEntries(es: seq<Entry>, slot: nat, pointer: nat, block: Block, next: nat): seq<Entry>
    requires slot < |es|
  {
    es[slot := Entry(pointer, block.bytes, block.site, next)]
  }

  function LinkHeads(heads: seq<nat>, bucket: nat, slot: nat, free: nat): seq<nat>
    requires bucket < FREE < |heads|
  {
    heads[bucket := slot][FREE := free]
  }

  lemma LinkKeeps(es: seq<Entry>, heads: seq<nat>, lists: seq<seq<nat>>, owner: seq<nat>, p: nat, block: Block,
                  es': seq<Entry>, heads': seq<nat>)
    returns (lists': seq<seq<nat>>, owner': seq<nat>)
    requires Linked(es, heads, lists, owner) && 1 <= heads[FREE] <= ENTRIES
    requires es' == LinkEntries(es, heads[FREE], p, block, heads[Bucket(p)])
    requires heads' == LinkHeads(heads, Bucket(p), heads[FREE], es[heads[FREE]].next)
    ensures Linked(es', heads', lists', owner') && owner' == owner[heads[FREE] := Bucket(p)]
    ensures |lists'[FREE]| == |lists[FREE]| - 1
    ensures SameBlocks(es, es', heads[FREE]) && owner[heads[FREE]] == FREE
  {
    assert IsList(es, owner, heads[FREE], lists[FREE], FREE);
    assert Relinked(es, es', heads[FREE], 0);
    MoveKeepsLinked(es, heads, lists, owner, FREE, 0, Bucket(p), es', heads');
    lists', owner' := Moved(lists, FREE, 0, Bucket(p)), owner[heads[FREE] := Bucket(p)];
  }

  // The abstract side of the tables: the lists, the list each slot is in, the tracked
  // blocks and the slot of each.
  datatype Model = Model(lists: seq<seq<nat>>, owner: seq<nat>, live: map<nat, Block>, slotOf: map<nat, nat>)

  ghost predicate Tables(es: seq<Entry>, heads: seq<nat>, m: Model) {
    && Linked(es, heads, m.lists, m.owner)
    && Represents(es, m.owner, m.live, m.slotOf)
    && |m.live| + |m.lists[FREE]| == ENTRIES
  }

  // All slots in the free list, in order.
  lemma AllFree(es: seq<Entry>, heads: seq<nat>) returns (m: Model)
    requires |es| == ENTRIES + 1 && |heads| == BUCKETS + 1
    requires forall s :: 1 <= s < ENTRIES ==> es[s].next == s + 1
    requires es[ENTRIES].next == 0
    requires forall b :: 0 <= b < BUCKETS ==> heads[b] == 0
    requires heads[FREE] == 1
    ensures Tables(es, heads, m) && m.live == map[]
  {
    var free := seq(ENTRIES, k requires 0 <= k < ENTRIES => k + 1);
    var owner := seq(ENTRIES + 1, s requires 0 <= s <= ENTRIES => FREE);
    var lists := seq(BUCKETS + 1, b requires 0 <= b <= BUCKETS => if b == FREE then free else []);
    forall s | IsSlot(s)
      ensures s in lists[owner[s]]
    {
      assert free[s - 1] == s;
    }
    m := Model(lists, owner, map[], map[]);
  }

  // Slot `slot` holds `p`, and follows `prev` in its chain.
  ghost predicate Located(m: Model, p: nat, prev: nat, slot: nat, k: nat)
    requires |m.lists| == BUCKETS + 1
  {
    && p in m.slotOf && m.slotOf[p] == slot && slot <= ENTRIES && prev <= ENTRIES
    && k < |m.lists[Bucket(p)]| && slot == m.lists[Bucket(p)][k] && prev == SlotAt(m.lists[Bucket(p)], k - 1)
  }

  lemma RemoveSize(m: map<nat, Block>, p: nat)
    requires p in m
    ensures |m - {p}| == |m| - 1
  {
    assert (m - {p}).Keys == m.Keys - {p};
  }

  lemma RemoveAbsent(es: seq<Entry>, heads: seq<nat>, m: Model, p: nat)
    requires Tables(es, heads, m)
    ensures 0 !in m.live && |m.live| <= ENTRIES
    ensures p !in m.live ==> m.live - {p} == m.live
  {
  }

  lemma InsertSize(m: map<nat, Block>, p: nat, b: Block)
    requires p !in m
    ensures |m[p := b]| == |m| + 1
  {
    assert m[p := b].Keys == m.Keys + {p};
  }

  lemma RemoveKeeps(es: seq<Entry>, heads: seq<nat>, m: Model, p: nat, prev: nat, slot: nat, k: nat,
                    es': seq<Entry>, heads': seq<nat>)
    returns (m': Model)
    requires Tables(es, heads, m) && Located(m, p, prev, slot, k)
    requires es' == UnlinkEntries(es, prev, slot, heads[FREE])
    requires heads' == UnlinkHeads(heads, Bucket(p), prev, slot, es[slot].next)
    ensures Tables(es', heads', m') && m'.live == m.live - {p}
  {
    assert Holds(es, m.owner, m.live, m.slotOf, p);
    assert IsList(es, m.owner, heads[Bucket(p)], m.lists[Bucket(p)], Bucket(p));
    var lists', owner' := UnlinkKeeps(es, heads, m.lists, m.owner, Bucket(p), k, es', heads');
    RemoveRepresents(es, m.owner, m.live, m.slotOf, slot, p, es');
    RemoveSize(m.live, p);
    m' := Model(lists', owner', m.live - {p}, m.slotOf - {p});
  }

  lemma InsertKeeps(es: seq<Entry>, heads: seq<nat>, m: Model, p: nat, block: Block,
                    es': seq<Entry>, heads': seq<nat>)
    returns (m': Model)
    requires Tables(es, heads, m) && p != 0 && p !in m.live && 1 <= heads[FREE] <= ENTRIES
    requires es' == LinkEntries(es, heads[FREE], p, block, heads[Bucket(p)])
    requires heads' == LinkHeads(heads, Bucket(p), heads[FREE], es[heads[FREE]].next)
    ensures Tables(es', heads', m') && m'.live == m.live[p := block]
  {
    var lists', owner' := LinkKeeps(es, heads, m.lists, m.owner, p, block, es', heads');
    InsertRepresents(es, m.owner, m.live, m.slotOf, heads[FREE], p, block, es');
    InsertSize(m.live, p, block);
    m' := Model(lists', owner', m.live[p := block], m.slotOf[p := heads[FREE]]);
  }

  // A chain without the pointer means that the pointer is not tracked.
  lemma AbsentFromChain(es: seq<Entry>, heads: seq<nat>, m: Model, p: nat)
    requires Tables(es, heads, m)
    requires forall s :: 0 <= s <= ENTRIES && s in m.lists[Bucket(p)] ==> es[s].pointer != p
    ensures p !in m.live
  {
    if p in m.live {
      assert Holds(es, m.owner, m.live, m.slotOf, p);
      assert IsSlot(m.slotOf[p]);
    }
  }

  // The free list is empty exactly when every slot is tracked.
  lemma FullWhenNoneFree(es: seq<Entry>, heads: seq<nat>, m: Model)
    requires Tables(es, heads, m)
    ensures heads[FREE] <= ENTRIES
    ensures heads[FREE] == 0 <==> |m.live| == ENTRIES
    ensures |m.live| <= ENTRIES
  {
    assert IsList(es, m.owner, heads[FREE], m.lists[FREE], FREE);
  }

  // Each slot is in exactly one of the lists.
  lemma EverySlotOnce(es: seq<Entry>, heads: seq<nat>, m: Model, b: nat, s: nat)
    requires Tables(es, heads, m) && b <= BUCKETS && IsSlot(s)
    ensures s in m.lists[b] <==> m.owner[s] == b
  {
    assert IsList(es, m.owner, heads[b], m.lists[b], b);
  }

  // The slots met on the way from `slot` through `next`, at most `n` of them.
  function Follow(es: seq<Entry>, slot: nat, n: nat): seq<nat>
    decreases n
  {
    if n == 0 || slot == 0 || slot >= |es| then [] else [slot] + Follow(es, es[slot].next, n - 1)
  }

  // Following the links of a list meets its slots once each and then stops: no cycle.
  lemma {:induction false} FollowEnds(es: seq<Entry>, heads: seq<nat>, m: Model, b: nat, k: nat, n: nat)
    requires Tables(es, heads, m) && b <= BUCKETS && k <= |m.lists[b]| <= k + n
    ensures Follow(es, SlotAt(m.lists[b], k), n) == m.lists[b][k..]
    decreases n
  {
    var list := m.lists[b];
    assert IsList(es, m.owner, heads[b], list, b);
    if k < |list| {
      assert es[list[k]].next == SlotAt(list, k + 1);
      FollowEnds(es, heads, m, b, k + 1, n - 1);
    }
  }

  /* ---------- Sums over the map ---------- */

  datatype Measure = Bytes | Blocks

  function Weight(b: Block, site: nat, measure: Measure): nat {
    if b.site != site then 0 else if measure == Bytes then b.bytes else 1
  }

  ghost function Pick(m: map<nat, Block>): nat
    requires m != map[]
    ensures Pick(m) in m
  {
    var p :| p in m;
    p
  }

  // The bytes, or the number, of the tracked blocks of a site.
  ghost function Total(m: map<nat, Block>, site: nat, measure: Measure): nat
    decreases |m|
  {
    if m == map[] then 0
    else Weight(m[Pick(m)], site, measure) + Total(m - {Pick(m)}, site, measure)
  }

  lemma {:induction false} TotalRemove(m: map<nat, Block>, p: nat, site: nat, measure: Measure)
    requires p in m
    ensures Total(m, site, measure) == Weight(m[p], site, measure) + Total(m - {p}, site, measure)
    decreases |m|
  {
    var q := Pick(m);
    if p != q {
      TotalRemove(m - {q}, p, site, measure);
      TotalRemove(m - {p}, q, site, measure);
      assert m - {q} - {p} == m - {p} - {q};
    }
  }

  lemma TotalInsert(m: map<nat, Block>, p: nat, b: Block, site: nat, measure: Measure)
    requires p !in m
    ensures Total(m[p := b], site, measure) == Weight(b, site, measure) + Total(m, site, measure)
  {
    TotalRemove(m[p := b], p, site, measure);
    assert m[p := b] - {p} == m;
  }

  lemma {:induction false} NoBlocksNoBytes(m: map<nat, Block>, site: nat)
    requires Total(m, site, Blocks) == 0
    ensures Total(m, site, Bytes) == 0
    decreases |m|
  {
    if m != map[] {
      NoBlocksNoBytes(m - {Pick(m)}, site);
    }
  }

  // A sum of bytes as the machine holds it.
  function Word(n: nat): (w: nat)
    ensures w < WORD
  {
    if n < WORD then n else Word(n - WORD)
  }

  lemma {:induction false} WordIsRemainder(n: nat)
    ensures Word(n) == n % WORD
  {
    if n >= WORD {
      WordIsRemainder(n - WORD);
    }
  }

  // Sums and differences of machine words, with their wrap-around.
  function AddWord(a: nat, b: nat): nat
    requires a < WORD && b < WORD
  {
    if a + b < WORD then a + b else a + b - WORD
  }

  function SubtractWord(a: nat, b: nat): nat
    requires a < WORD && b < WORD
  {
    if b <= a then a - b else a + WORD - b
  }

  lemma {:induction false} AddTotal(total: nat, b: nat)
    requires b < WORD
    ensures AddWord(Word(total), b) == Word(total + b)
    ensures SubtractWord(Word(total + b), b) == Word(total)
  {
    if total >= WORD {
      AddTotal(total - WORD, b);
    }
  }
}
