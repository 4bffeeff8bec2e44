// The planner of include/pages/host_list.h and the loop of src/pages/page_main.cpp that
// applies its edits until the cells of the list view are the desired ones.
module HostListEdits {

  // One native cell edit, with the token of its cell.
  datatype Edit =
    | Done
    | Delete(from: nat, token: nat)
    | Move(from: nat, to: nat, token: nat)
    | Insert(to: nat, token: nat)

  // How many cells of `s` have the token `t`.
  function Count(s: seq<nat>, t: nat): nat {
    multiset(s)[t]
  }

  function RemoveAt(s: seq<nat>, i: nat): seq<nat>
    requires i < |s|
  {
    s[..i] + s[i + 1..]
  }

  function InsertAt(s: seq<nat>, i: nat, token: nat): seq<nat>
    requires i <= |s|
  {
    s[..i] + [token] + s[i..]
  }

  predicate Fits(s: seq<nat>, e: Edit) {
    match e
    case Done => true
    case Delete(from, token) => from < |s| && s[from] == token
    case Move(from, to, token) => to < from < |s| && s[from] == token
    case Insert(to, _) => to <= |s|
  }

  // What an edit does to the cells of a list view.
  function Apply(s: seq<nat>, e: Edit): seq<nat>
    requires Fits(s, e)
  {
    match e
    case Done => s
    case Delete(from, _) => RemoveAt(s, from)
    case Move(from, to, token) => InsertAt(RemoveAt(s, from), to, token)
    case Insert(to, token) => InsertAt(s, to, token)
  }

  // The list view after these edits, if each fits.
  ghost predicate Replays(s: seq<nat>, edits: seq<Edit>, t: seq<nat>) {
    if edits == [] then s == t
    else
      var n := |edits| - 1;
      exists u :: Replays(s, edits[..n], u) && Fits(u, edits[n]) && Apply(u, edits[n]) == t
  }

  // The cells before `n` are as desired.
  predicate Agree(current: seq<nat>, desired: seq<nat>, n: nat) {
    n <= |current| && n <= |desired| && current[..n] == desired[..n]
  }

  // What the planner answers.
  ghost predicate Planned(current: seq<nat>, desired: seq<nat>, e: Edit) {
    match e
    case Delete(from, token) =>
      && from < |current| && current[from] == token && token !in desired
      && (forall k :: from < k < |current| ==> current[k] in desired)
    case Move(from, to, token) =>
      && (forall t :: t in current ==> t in desired) && Agree(current, desired, to)
      && to < |desired| && desired[to] == token && to < from < |current| && current[from] == token
      && token !in current[to..from]
    case Insert(to, token) =>
      && (forall t :: t in current ==> t in desired) && Agree(current, desired, to)
      && to < |desired| && desired[to] == token && to <= |current| && token !in current[to..]
    case Done => (forall t :: t in current ==> t in desired) && Agree(current, desired, |desired|)
  }

  // The first difference is one place.
  lemma OneTarget(current: seq<nat>, desired: seq<nat>, to: nat, f: Edit)
    requires Agree(current, desired, to) && to < |desired| && (to < |current| ==> current[to] != desired[to])
    requires Planned(current, desired, f) && !f.Delete?
    ensures !f.Done? && f.to == to
  {
    assert to < |current| ==> current[..to + 1][to] != desired[..to + 1][to];
    if !f.Done? {
      assert f.to < |current| ==> current[f.to] != desired[f.to];
    }
  }

  // The planner has no choice: what it answers is fixed by the cells.
  lemma OnePlan(current: seq<nat>, desired: seq<nat>, e: Edit, f: Edit)
    requires Planned(current, desired, e) && Planned(current, desired, f)
    ensures e == f
  {
    assert e.Delete? ==> current[e.from] in current;
    assert f.Delete? ==> current[f.from] in current;
    match e {
      case Delete(_, _) =>
      case Move(_, _, _) => OneTarget(current, desired, e.to, f);
      case Insert(_, _) => OneTarget(current, desired, e.to, f);
      case Done =>
    }
  }

  method Find(s: seq<nat>, from: nat, token: nat) returns (i: nat)
    requires from <= |s|
    ensures from <= i <= |s| && (i < |s| ==> s[i] == token) && token !in s[from..i]
  {
    i := from;
    while i < |s|
      invariant from <= i <= |s| && token !in s[from..i]
    {
      if s[i] == token {
        return;
      }
      assert s[from..i + 1] == s[from..i] + [s[i]];
      i := i + 1;
    }
  }

  // next_host_cell_edit
  method NextEdit(current: seq<nat>, desired: seq<nat>) returns (e: Edit)
    ensures Planned(current, desired, e)
  {
    var i := |current|;
    while i > 0
      invariant 0 <= i <= |current|
      invariant forall k :: i <= k < |current| ==> current[k] in desired
    {
      i := i - 1;
      var j := Find(desired, 0, current[i]);
      if j == |desired| {
        assert desired[0..j] == desired;
        return Delete(i, current[i]);
      }
    }
    assert forall t :: t in current ==> t in desired;
    while i < |desired|
      invariant Agree(current, desired, i)
    {
      if i < |current| && current[i] == desired[i] {
        i := i + 1;
      } else {
        var j := Find(current, if i < |current| then i + 1 else |current|, desired[i]);
        if j < |current| {
          return Move(j, i, desired[i]);
        }
        assert i < |current| ==> current[i..] == [current[i]] + current[i + 1..j];
        return Insert(i, desired[i]);
      }
    }
    e := Done;
  }

  /* ---------- The loops on the cells ---------- */

  // cells[i] = cells[i + 1] ...; pop_back
  method ShiftOut(cells: seq<nat>, from: nat) returns (r: seq<nat>)
    requires from < |cells|
    ensures r == RemoveAt(cells, from)
  {
    r := cells;
    var i := from;
    while i + 1 < |r|
      invariant from <= i < |r| == |cells|
      invariant r[..i] == RemoveAt(cells, from)[..i] && r[i + 1..] == cells[i + 1..]
    {
      r := r[i := r[i + 1]];
      i := i + 1;
    }
    r := r[..|r| - 1];
  }

  // The token at `from` moves to `to`, and the cells between move up.
  method ShiftUp(cells: seq<nat>, from: nat, to: nat) returns (r: seq<nat>)
    requires to < from < |cells|
    ensures r == InsertAt(RemoveAt(cells, from), to, cells[from])
  {
    r := cells;
    var token, i := r[from], from;
    while i > to
      invariant to <= i <= from && |r| == |cells|
      invariant r[..i] == cells[..i] && r[from + 1..] == cells[from + 1..]
      invariant forall k :: i < k <= from ==> r[k] == cells[k - 1]
    {
      r := r[i := r[i - 1]];
      i := i - 1;
    }
    r := r[to := token];
    assert forall k :: to <= k < from ==> RemoveAt(cells, from)[k] == cells[k] == r[k + 1];
  }

  // push_back(0); cells[i] = cells[i - 1] ...
  method ShiftIn(cells: seq<nat>, to: nat, token: nat) returns (r: seq<nat>)
    requires to <= |cells|
    ensures r == InsertAt(cells, to, token)
  {
    r := cells + [0];
    var i := |r| - 1;
    while i > to
      invariant to <= i < |r| == |cells| + 1
      invariant r[..i] == cells[..i]
      invariant forall k :: i < k < |r| ==> r[k] == cells[k - 1]
    {
      r := r[i := r[i - 1]];
      i := i - 1;
    }
    r := r[to := token];
  }

  /* ---------- The whole run ---------- */

  lemma RemoveCounts(s: seq<nat>, i: nat, t: nat)
    requires i < |s|
    ensures Count(s, t) == Count(RemoveAt(s, i), t) + if t == s[i] then 1 else 0
  {
    assert s == s[..i] + [s[i]] + s[i + 1..];
  }

  lemma InsertCounts(s: seq<nat>, i: nat, token: nat, t: nat)
    requires i <= |s|
    ensures Count(InsertAt(s, i, token), t) == Count(s, t) + if t == token then 1 else 0
  {
    assert s == s[..i] + s[i..];
  }

  // An edit changes one count at most.
  lemma EditCounts(s: seq<nat>, e: Edit, t: nat)
    requires Fits(s, e)
    ensures Count(Apply(s, e), t) + Count(DeletedBy(e), t) == Count(s, t) + Count(InsertedBy(e), t)
  {
    match e
    case Done =>
    case Delete(from, _) => RemoveCounts(s, from, t);
    case Move(from, to, token) =>
      RemoveCounts(s, from, t);
      InsertCounts(RemoveAt(s, from), to, token, t);
    case Insert(to, token) => InsertCounts(s, to, token, t);
  }

  function DeletedBy(e: Edit): seq<nat> {
    if e.Delete? then [e.token] else []
  }

  function InsertedBy(e: Edit): seq<nat> {
    if e.Insert? then [e.token] else []
  }

  // The tokens of the deleted cells, in order.
  function Deletes(edits: seq<Edit>): seq<nat> {
    if edits == [] then []
    else Deletes(edits[..|edits| - 1]) + DeletedBy(edits[|edits| - 1])
  }

  // The tokens of the inserted cells, in order.
  function Inserts(edits: seq<Edit>): seq<nat> {
    if edits == [] then []
    else Inserts(edits[..|edits| - 1]) + InsertedBy(edits[|edits| - 1])
  }

  // The settled cells after an edit; deletions come first, when none need be settled.
  function SettledBy(e: Edit): nat {
    match e
    case Move(_, to, _) => to + 1
    case Insert(to, _) => to + 1
    case _ => 0
  }

  // Every cell is wanted.
  ghost predicate AllWanted(cells: seq<nat>, desired: seq<nat>) {
    forall t :: t in cells ==> t in desired
  }

  lemma FirstDifference(current: seq<nat>, desired: seq<nat>, settled: nat, to: nat)
    requires Agree(current, desired, settled) && to < |desired|
    requires to >= |current| || current[to] != desired[to]
    ensures settled <= to
  {
    assert forall k :: 0 <= k < settled ==> current[..settled][k] == current[k] && desired[..settled][k] == desired[k];
  }

  lemma SettlesOneMore(current: seq<nat>, desired: seq<nat>, to: nat)
    requires Agree(current, desired, to) && to < |desired|
    ensures Agree(InsertAt(current, to, desired[to]), desired, to + 1)
  {
    assert InsertAt(current, to, desired[to])[..to + 1] == current[..to] + [desired[to]];
    assert desired[..to + 1] == desired[..to] + [desired[to]];
  }

  lemma DeleteStep(cells: seq<nat>, desired: seq<nat>, e: Edit)
    requires Planned(cells, desired, e) && e.Delete?
    ensures Fits(cells, e) && |Apply(cells, e)| == |cells| - 1 && !AllWanted(cells, desired)
  {
    assert cells[e.from] in cells;
  }

  lemma MoveStep(cells: seq<nat>, desired: seq<nat>, e: Edit, settled: nat)
    requires Planned(cells, desired, e) && e.Move? && Agree(cells, desired, settled)
    ensures Fits(cells, e) && settled <= e.to < |desired|
    ensures AllWanted(Apply(cells, e), desired) && Agree(Apply(cells, e), desired, e.to + 1)
  {
    FirstDifference(cells, desired, settled, e.to);
    assert RemoveAt(cells, e.from)[..e.to] == cells[..e.to];
    SettlesOneMore(RemoveAt(cells, e.from), desired, e.to);
  }

  lemma InsertStep(cells: seq<nat>, desired: seq<nat>, e: Edit, settled: nat)
    requires Planned(cells, desired, e) && e.Insert? && Agree(cells, desired, settled)
    ensures Fits(cells, e) && settled <= e.to < |desired|
    ensures AllWanted(Apply(cells, e), desired) && Agree(Apply(cells, e), desired, e.to + 1)
  {
    assert e.to < |cells| ==> cells[e.to] in cells[e.to..];
    FirstDifference(cells, desired, settled, e.to);
    SettlesOneMore(cells, desired, e.to);
  }

  // A missing token is inserted no more often than it is wanted.
  lemma InsertBound(cells: seq<nat>, desired: seq<nat>, e: Edit)
    requires Planned(cells, desired, e) && e.Insert?
    ensures Fits(cells, e) && e.token in desired
    ensures Count(Apply(cells, e), e.token) <= Count(desired, e.token)
  {
    InsertCounts(cells, e.to, e.token, e.token);
    assert cells == cells[..e.to] + cells[e.to..];
    assert desired == desired[..e.to] + [desired[e.to]] + desired[e.to + 1..];
  }

  // What the planner's edits keep: a deleted token is not wanted at all, and a token that
  // was ever inserted is not there more often than it is wanted.
  ghost predicate Progress(original: seq<nat>, desired: seq<nat>, cells: seq<nat>, edits: seq<Edit>) {
    && (forall t :: Count(cells, t) + Count(Deletes(edits), t) == Count(original, t) + Count(Inserts(edits), t))
    && (forall t :: t in Deletes(edits) ==> t !in desired)
    && (forall t :: t in Inserts(edits) ==> t in desired && Count(cells, t) <= Count(desired, t))
  }

  // The cells after these edits, each of them the planner's answer to the cells before it.
  ghost predicate Plans(original: seq<nat>, desired: seq<nat>, edits: seq<Edit>, cells: seq<nat>) {
    if edits == [] then cells == original
    else
      var n := |edits| - 1;
      exists u ::
        && Plans(original, desired, edits[..n], u) && Planned(u, desired, edits[n]) && edits[n] != Done
        && Fits(u, edits[n]) && Apply(u, edits[n]) == cells
  }

  lemma PlansMore(original: seq<nat>, desired: seq<nat>, edits: seq<Edit>, cells: seq<nat>, e: Edit)
    requires Plans(original, desired, edits, cells) && Planned(cells, desired, e) && e != Done && Fits(cells, e)
    ensures Plans(original, desired, edits + [e], Apply(cells, e))
    ensures Deletes(edits + [e]) == Deletes(edits) + DeletedBy(e)
    ensures Inserts(edits + [e]) == Inserts(edits) + InsertedBy(e)
  {
    assert (edits + [e])[..|edits|] == edits;
  }

  lemma {:induction false} CountsMore(original: seq<nat>, before: seq<nat>, edits: seq<Edit>, e: Edit, t: nat)
    requires Count(before, t) + Count(Deletes(edits), t) == Count(original, t) + Count(Inserts(edits), t)
    requires Fits(before, e)
    ensures var more := edits + [e];
      Count(Apply(before, e), t) + Count(Deletes(more), t) == Count(original, t) + Count(Inserts(more), t)
    ensures t in Inserts(edits + [e]) ==> t in Inserts(edits) || (e.Insert? && t == e.token)
    ensures t in Deletes(edits + [e]) ==> t in Deletes(edits) || (e.Delete? && t == e.token)
    ensures Count(Apply(before, e), t) <= Count(before, t) || (e.Insert? && t == e.token)
  {
    assert (edits + [e])[..|edits|] == edits;
    EditCounts(before, e, t);
  }

  lemma ProgressMore(original: seq<nat>, desired: seq<nat>, before: seq<nat>, edits: seq<Edit>, e: Edit)
    requires Progress(original, desired, before, edits) && Planned(before, desired, e) && Fits(before, e)
    ensures Progress(original, desired, Apply(before, e), edits + [e])
  {
    var after, more := Apply(before, e), edits + [e];
    if e.Insert? {
      InsertBound(before, desired, e);
    }
    forall t
      ensures Count(after, t) + Count(Deletes(more), t) == Count(original, t) + Count(Inserts(more), t)
      ensures t in Inserts(more) ==> t in desired && Count(after, t) <= Count(desired, t)
      ensures t in Deletes(more) ==> t !in desired
    {
      CountsMore(original, before, edits, e, t);
    }
  }

  lemma ReplayMore(original: seq<nat>, edits: seq<Edit>, cells: seq<nat>, e: Edit)
    requires Replays(original, edits, cells) && Fits(cells, e)
    ensures Replays(original, edits + [e], Apply(cells, e))
  {
    assert (edits + [e])[..|edits|] == edits;
  }

  lemma LastEdit(original: seq<nat>, desired: seq<nat>, edits: seq<Edit>, cells: seq<nat>) returns (u: seq<nat>)
    requires Plans(original, desired, edits, cells) && edits != []
    ensures var n := |edits| - 1;
      && Plans(original, desired, edits[..n], u) && Planned(u, desired, edits[n])
      && Fits(u, edits[n]) && Apply(u, edits[n]) == cells
  {
    var n := |edits| - 1;
    u :|
      && Plans(original, desired, edits[..n], u) && Planned(u, desired, edits[n])
      && Fits(u, edits[n]) && Apply(u, edits[n]) == cells;
  }

  lemma {:induction false} PlansProgress(original: seq<nat>, desired: seq<nat>, edits: seq<Edit>, cells: seq<nat>)
    requires Plans(original, desired, edits, cells)
    ensures Replays(original, edits, cells) && Progress(original, desired, cells, edits)
  {
    if edits != [] {
      var n := |edits| - 1;
      var u := LastEdit(original, desired, edits, cells);
      PlansProgress(original, desired, edits[..n], u);
      assert edits == edits[..n] + [edits[n]];
      ProgressMore(original, desired, u, edits[..n], edits[n]);
      ReplayMore(original, edits[..n], u, edits[n]);
    }
  }

  // The deleted cells are exactly the unwanted ones, and the inserted ones exactly those
  // that were missing. A cell that stays is only ever moved.
  ghost predicate Exact(original: seq<nat>, desired: seq<nat>, edits: seq<Edit>) {
    && (forall t :: Count(Deletes(edits), t) == if t in desired then 0 else Count(original, t))
    && (forall t ::
          Count(Inserts(edits), t)
          == if Count(desired, t) > Count(original, t) then Count(desired, t) - Count(original, t) else 0)
  }

  // No token has more cells than wanted, unless it is not wanted at all.
  ghost predicate NoSurplus(original: seq<nat>, desired: seq<nat>) {
    forall t :: t in desired ==> Count(original, t) <= Count(desired, t)
  }

  lemma InIsCounted(s: seq<nat>, t: nat)
    ensures t in s <==> Count(s, t) > 0
  {
  }

  // When the planner has nothing to do, the edits so far are exact for one token.
  lemma ExactForToken(original: seq<nat>, desired: seq<nat>, edits: seq<Edit>, cells: seq<nat>, t: nat)
    requires Progress(original, desired, cells, edits) && desired <= cells && AllWanted(cells, desired)
    ensures Count(Deletes(edits), t) == if t in desired then 0 else Count(original, t)
    ensures Count(Inserts(edits), t)
            == if Count(desired, t) > Count(original, t) then Count(desired, t) - Count(original, t) else 0
    ensures Count(cells, t) > Count(desired, t) ==> t in desired && Count(original, t) > Count(desired, t)
  {
    assert cells == desired + cells[|desired|..];
    assert Count(cells, t) == Count(desired, t) + Count(cells[|desired|..], t);
    InIsCounted(Deletes(edits), t);
    InIsCounted(Inserts(edits), t);
    InIsCounted(cells, t);
    InIsCounted(desired, t);
  }

  lemma ExactWhenDone(original: seq<nat>, desired: seq<nat>, edits: seq<Edit>, cells: seq<nat>)
    requires Progress(original, desired, cells, edits) && desired <= cells && AllWanted(cells, desired)
    ensures Exact(original, desired, edits)
  {
    forall t
      ensures Count(Deletes(edits), t) == if t in desired then 0 else Count(original, t)
      ensures Count(Inserts(edits), t)
              == if Count(desired, t) > Count(original, t) then Count(desired, t) - Count(original, t) else 0
    {
      ExactForToken(original, desired, edits, cells, t);
    }
  }

  lemma LeftOverIsSurplus(original: seq<nat>, desired: seq<nat>, edits: seq<Edit>, cells: seq<nat>)
    requires Progress(original, desired, cells, edits) && desired <= cells && AllWanted(cells, desired)
    ensures cells == desired <==> NoSurplus(original, desired)
  {
    if cells == desired {
      forall t | t in desired
        ensures Count(original, t) <= Count(desired, t)
      {
        ExactForToken(original, desired, edits, cells, t);
      }
    } else {
      var rest := cells[|desired|..];
      assert cells == desired + rest;
      InIsCounted(rest, rest[0]);
      ExactForToken(original, desired, edits, cells, rest[0]);
    }
  }

  // Whatever the planner answered on the way, when it is done its edits were exact, the
  // desired cells lead, and nothing follows them unless a token had too many cells.
  lemma ExactEdits(original: seq<nat>, desired: seq<nat>, edits: seq<Edit>, cells: seq<nat>)
    requires Plans(original, desired, edits, cells) && Planned(cells, desired, Done)
    ensures Replays(original, edits, cells) && Exact(original, desired, edits)
    ensures desired <= cells && (cells == desired <==> NoSurplus(original, desired))
  {
    PlansProgress(original, desired, edits, cells);
    assert cells == desired + cells[|desired|..];
    ExactWhenDone(original, desired, edits, cells);
    LeftOverIsSurplus(original, desired, edits, cells);
  }

  // Two rows of one token and then one: the planner leaves the second cell.
  lemma SurplusStays()
    ensures Planned([7, 7], [7], Done) && !NoSurplus([7, 7], [7])
  {
    assert Count([7, 7], 7) == 2 && Count([7], 7) == 1;
  }

  // The loop so far: `cleaned` once every cell is wanted, then `placed` cells are settled
  // one by one, and `settled` counts the cells that are in their place.
  ghost predicate Looped(original: seq<nat>, desired: seq<nat>, cells: seq<nat>, edits: seq<Edit>, cleaned: bool,
                         settled: nat, placed: nat) {
    && Plans(original, desired, edits, cells)
    && Agree(cells, desired, settled) && (cleaned ==> AllWanted(cells, desired))
    && placed <= settled && |edits| == |Deletes(edits)| + placed && |Deletes(edits)| <= |original|
    && (!cleaned ==> |cells| == |original| - |Deletes(edits)| && settled == 0)
  }

  lemma LoopKeeps(original: seq<nat>, desired: seq<nat>, cells: seq<nat>, edits: seq<Edit>, cleaned: bool,
                  settled: nat, placed: nat, e: Edit)
    requires Looped(original, desired, cells, edits, cleaned, settled, placed)
    requires Planned(cells, desired, e) && e != Done
    ensures Fits(cells, e)
    ensures e.Delete? ==> !cleaned && |Apply(cells, e)| < |cells|
    ensures e.Delete? ==> Looped(original, desired, Apply(cells, e), edits + [e], false, 0, placed)
    ensures !e.Delete? ==> settled < SettledBy(e) <= |desired|
    ensures !e.Delete? ==> Looped(original, desired, Apply(cells, e), edits + [e], true, SettledBy(e), placed + 1)
  {
    match e {
      case Delete(_, _) => DeleteStep(cells, desired, e);
      case Move(_, _, _) => MoveStep(cells, desired, e, settled);
      case Insert(_, _) => InsertStep(cells, desired, e, settled);
    }
    PlansMore(original, desired, edits, cells, e);
  }

  // One edit of the loop in RefreshHosts
  method ApplyEdit(cells: seq<nat>, e: Edit) returns (r: seq<nat>)
    requires Fits(cells, e)
    ensures r == Apply(cells, e)
  {
    match e {
      case Done => r := cells;
      case Delete(from, _) => r := ShiftOut(cells, from);
      case Move(from, to, _) => r := ShiftUp(cells, from, to);
      case Insert(to, token) => r := ShiftIn(cells, to, token);
    }
  }

  // The edit loop of RefreshHosts. `edits` are those of the list view, in order.
  method Refresh(original: seq<nat>, desired: seq<nat>) returns (cells: seq<nat>, edits: seq<Edit>)
    ensures Replays(original, edits, cells) && Exact(original, desired, edits)
    ensures desired <= cells && (cells == desired <==> NoSurplus(original, desired))
    ensures |edits| <= |original| + |desired|
  {
    cells, edits := original, [];
    ghost var cleaned, settled: nat, placed: nat := false, 0, 0;
    var e := NextEdit(cells, desired);
    while e != Done
      invariant Planned(cells, desired, e)
      invariant Looped(original, desired, cells, edits, cleaned, settled, placed)
      decreases if cleaned then 0 else 1, if cleaned then |desired| - settled else |cells|
    {
      LoopKeeps(original, desired, cells, edits, cleaned, settled, placed, e);
      edits := edits + [e];
      cells := ApplyEdit(cells, e);
      if !e.Delete? {
        cleaned, settled, placed := true, SettledBy(e), placed + 1;
      }
      e := NextEdit(cells, desired);
    }
    ExactEdits(original, desired, edits, cells);
  }
}
