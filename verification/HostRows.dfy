// The rows of src/pages/page_main.cpp and their tokens: a row that stands for a known host
// keeps its token, any other gets a new one. Token numbers are unbounded here.
module HostRows {
  import opened HostListEdits

  datatype Host = Host(id: string, mac: string, port: int, internal: string, external: string)

  datatype Row = Row(host: Host, saved: bool, template: bool, token: nat)

  predicate SameAddress(a: string, b: string) {
    a != "" && b != "" && a == b
  }

  // same_discovered_host
  predicate SameHost(left: Host, right: Host) {
    if left.id != "" && right.id != "" then left.id == right.id
    else if left.mac != "" && right.mac != "" then left.mac == right.mac
    else
      && left.port == right.port
      && (|| SameAddress(left.internal, right.internal) || SameAddress(left.external, right.internal)
          || SameAddress(left.internal, right.external))
  }

  // An address that one of them has as its internal one, and the other as either
  predicate IsShared(left: Host, right: Host, a: string) {
    && a != ""
    && (|| (a == left.internal && (a == right.internal || a == right.external))
        || (a == right.internal && (a == left.internal || a == left.external)))
  }

  // Ids decide when both are known, then MAC addresses; without them, two hosts are the same
  // PC when they have one port and share an address. The order does not matter, and a host
  // is the same as itself if it has an id, a MAC or an internal address.
  lemma SameHostMeans(left: Host, right: Host)
    ensures left.id != "" && right.id != "" ==> (SameHost(left, right) <==> left.id == right.id)
    ensures (left.id == "" || right.id == "") && left.mac != "" && right.mac != "" ==>
      (SameHost(left, right) <==> left.mac == right.mac)
    ensures (left.id == "" || right.id == "") && (left.mac == "" || right.mac == "") ==>
      (SameHost(left, right) <==> left.port == right.port && exists a :: IsShared(left, right, a))
    ensures SameHost(left, right) <==> SameHost(right, left)
    ensures SameHost(left, left) <==> left.id != "" || left.mac != "" || left.internal != ""
  {
    assert SameAddress(left.internal, right.internal) ==> IsShared(left, right, left.internal);
    assert SameAddress(left.external, right.internal) ==> IsShared(left, right, left.external);
    assert SameAddress(left.internal, right.external) ==> IsShared(left, right, left.internal);
  }

  // The first earlier row of the host, or their number
  function Match(host: Host, was: seq<Row>): (j: nat)
    ensures j <= |was| && (j < |was| ==> SameHost(host, was[j].host))
    ensures forall k :: 0 <= k < j ==> !SameHost(host, was[k].host)
  {
    if was == [] || SameHost(host, was[0].host) then 0 else 1 + Match(host, was[1..])
  }

  predicate Keeps(host: Host, saved: bool, template: bool, was: seq<Row>) {
    var j := Match(host, was);
    j < |was| && was[j].saved == saved && was[j].template == template
  }

  function TokensOf(rows: seq<Row>): (ts: seq<nat>)
    ensures |ts| == |rows| && forall i :: 0 <= i < |ts| ==> ts[i] == rows[i].token
  {
    seq(|rows|, i requires 0 <= i < |rows| => rows[i].token)
  }

  method FindRow(host: Host, was: seq<Row>) returns (j: nat)
    ensures j == Match(host, was)
  {
    j := 0;
    while j < |was|
      invariant j <= |was| && Match(host, was) == j + Match(host, was[j..])
    {
      assert was[j..][0] == was[j] && was[j..][1..] == was[j + 1..];
      if SameHost(host, was[j].host) {
        return;
      }
      j := j + 1;
    }
  }

  // The row of one host: it keeps its token, or has one after `first`.
  predicate IsRow(row: Row, host: Host, saved: bool, template: bool, was: seq<Row>, first: nat, next: nat) {
    && row.host == host && row.saved == saved && row.template == template
    && (if Keeps(host, saved, template, was) then row.token == was[Match(host, was)].token
        else first < row.token <= next)
  }

  // The first rows; new tokens increase.
  ghost predicate Prepared(rows: seq<Row>, hosts: seq<Host>, saved: nat, template: bool, was: seq<Row>, first: nat,
                           next: nat) {
    && |rows| <= |hosts| && first <= next
    && (forall i :: 0 <= i < |rows| ==> IsRow(rows[i], hosts[i], i < saved, template, was, first, next))
    && (forall i, j :: 0 <= i < j < |rows| && IsNew(rows[i], was) && IsNew(rows[j], was) ==>
          rows[i].token < rows[j].token)
  }

  lemma PreparedMore(rows: seq<Row>, hosts: seq<Host>, saved: nat, template: bool, was: seq<Row>, first: nat,
                     next: nat, row: Row, next': nat)
    requires Prepared(rows, hosts, saved, template, was, first, next) && |rows| < |hosts| && next <= next'
    requires IsRow(row, hosts[|rows|], |rows| < saved, template, was, first, next')
    requires IsNew(row, was) ==> next < row.token
    ensures Prepared(rows + [row], hosts, saved, template, was, first, next')
  {
    var more := rows + [row];
    forall i | 0 <= i < |more|
      ensures IsRow(more[i], hosts[i], i < saved, template, was, first, next')
    {
      assert i < |rows| ==> more[i] == rows[i] && IsRow(rows[i], hosts[i], i < saved, template, was, first, next);
    }
    forall i, j | 0 <= i < j < |more| && IsNew(more[i], was) && IsNew(more[j], was)
      ensures more[i].token < more[j].token
    {
      assert more[i] == rows[i] && IsRow(rows[i], hosts[i], i < saved, template, was, first, next);
    }
  }

  predicate IsNew(row: Row, was: seq<Row>) {
    !Keeps(row.host, row.saved, row.template, was)
  }

  // The rows of RefreshHosts. `next` is m_next_host_token, which also counts the tokens of
  // the checkboxes.
  method PrepareRows(hosts: seq<Host>, saved: nat, template: bool, was: seq<Row>, first: nat)
    returns (rows: seq<Row>, next: nat)
    ensures |rows| == |hosts| && Prepared(rows, hosts, saved, template, was, first, next)
  {
    rows, next := [], first;
    var i := 0;
    while i < |hosts|
      invariant 0 <= i <= |hosts| && |rows| == i
      invariant Prepared(rows, hosts, saved, template, was, first, next)
    {
      var j := FindRow(hosts[i], was);
      var row, last := Row(hosts[i], i < saved, template, next + 1), next;
      if j < |was| && was[j].saved == (i < saved) && was[j].template == template {
        row := row.(token := was[j].token);
      } else {
        next := next + 2;
      }
      PreparedMore(rows, hosts, saved, template, was, first, last, row, next);
      rows := rows + [row];
      i := i + 1;
    }
  }

  predicate Distinct(s: seq<nat>) {
    forall i, j :: 0 <= i < j < |s| ==> s[i] != s[j]
  }

  // No two rows keep one token.
  ghost predicate NoneShared(rows: seq<Row>, was: seq<Row>) {
    forall i, j :: 0 <= i < j < |rows| && !IsNew(rows[i], was) && !IsNew(rows[j], was) ==>
      rows[i].token != rows[j].token
  }

  // The tokens are distinct exactly when no two rows keep one: new tokens never collide.
  lemma TokensDistinct(rows: seq<Row>, hosts: seq<Host>, saved: nat, template: bool, was: seq<Row>, first: nat,
                       next: nat)
    requires Prepared(rows, hosts, saved, template, was, first, next)
    requires forall j :: 0 <= j < |was| ==> was[j].token <= first
    ensures Distinct(TokensOf(rows)) <==> NoneShared(rows, was)
    ensures forall j :: 0 <= j < |rows| ==> rows[j].token <= next
  {
    var ts := TokensOf(rows);
    if NoneShared(rows, was) {
      forall i, j | 0 <= i < j < |ts|
        ensures ts[i] != ts[j]
      {
        assert IsNew(rows[i], was) || rows[i].token <= first;
        assert IsNew(rows[j], was) || rows[j].token <= first;
      }
    } else {
      var i, j :| 0 <= i < j < |rows| && !IsNew(rows[i], was) && !IsNew(rows[j], was)
                  && rows[i].token == rows[j].token;
      assert ts[i] == ts[j];
    }
  }

  // When no two cells share a token, none is left over.
  lemma DistinctNoSurplus(original: seq<nat>, desired: seq<nat>)
    requires Distinct(original)
    ensures NoSurplus(original, desired)
  {
    forall t | t in desired
      ensures Count(original, t) <= Count(desired, t)
    {
      CountDistinct(original, t);
      InIsCounted(desired, t);
    }
  }

  lemma {:induction false} CountDistinct(s: seq<nat>, t: nat)
    requires Distinct(s)
    ensures Count(s, t) <= 1
  {
    if s != [] {
      CountDistinct(s[1..], t);
      assert s == [s[0]] + s[1..];
      InIsCounted(s[1..], t);
    }
  }

  const BOTH := Host("", "", 47989, "10.0.0.2", "10.0.0.3")
  const ONE := Host("", "", 47989, "10.0.0.2", "")
  const TWO := Host("", "", 47989, "10.0.0.3", "")

  // A saved PC with two addresses is replaced by two with one each.
  lemma BothKeep(first: seq<Row>, rows: seq<Row>, from: nat, next: nat)
    requires |first| == 1 && IsRow(first[0], BOTH, true, false, [], 0, from) && |rows| == 2
    requires Prepared(rows, [ONE, TWO], 2, false, first, from, next)
    ensures TokensOf(rows) == TokensOf(first) + TokensOf(first)
    ensures rows[0].host == ONE && rows[0].saved && !rows[0].template
  {
    assert Match(ONE, first) == Match(TWO, first) == 0;
    assert IsRow(rows[0], ONE, true, false, first, from, next);
    assert IsRow(rows[1], TWO, true, false, first, from, next);
  }

  // One of the two is removed.
  lemma OneKeeps(both: seq<Row>, rows: seq<Row>, from: nat, next: nat)
    requires |both| == 2 && both[0].host == ONE && both[0].saved && !both[0].template && |rows| == 1
    requires Prepared(rows, [ONE], 1, false, both, from, next)
    ensures TokensOf(rows) == [both[0].token]
  {
    assert Match(ONE, both) == 0;
    assert IsRow(rows[0], ONE, true, false, both, from, next);
  }

  // Both rows get the token of the earlier one, and the list view two cells for it.
  method ShareToken() returns (both: seq<Row>, next: nat, cells: seq<nat>)
    ensures |both| == 2 && both[0].host == ONE && both[0].saved && !both[0].template
    ensures cells == [both[0].token, both[0].token]
  {
    var first, from := PrepareRows([BOTH], 1, false, [], 0);
    assert IsRow(first[0], BOTH, true, false, [], 0, from);
    both, next := PrepareRows([ONE, TWO], 2, false, first, from);
    BothKeep(first, both, from, next);
    var edits;
    cells, edits := Refresh(TokensOf(first), TokensOf(both));
    SharedCells(TokensOf(first), TokensOf(both), cells);
  }

  // Then the list view keeps two cells for one row.
  method SharedToken() returns (rows: seq<Row>, cells: seq<nat>)
    ensures |rows| == 1 && TokensOf(rows) < cells
  {
    var both, next, two := ShareToken();
    var last, edits;
    rows, last := PrepareRows([ONE], 1, false, both, next);
    OneKeeps(both, rows, next, last);
    cells, edits := Refresh(two, TokensOf(rows));
    TwoForOne(two, TokensOf(rows));
  }

  lemma SharedCells(original: seq<nat>, desired: seq<nat>, cells: seq<nat>)
    requires |original| == 1 && desired == original + original
    requires cells == desired <==> NoSurplus(original, desired)
    ensures cells == desired
  {
    var t := original[0];
    assert original == [t] && desired == [t, t];
    assert Count(original, t) == 1 && Count(desired, t) == 2;
  }

  lemma TwoForOne(original: seq<nat>, desired: seq<nat>)
    requires |desired| == 1 && original == desired + desired
    ensures !NoSurplus(original, desired)
  {
    var t := desired[0];
    assert original == [t, t] && desired == [t];
    assert Count(original, t) == 2 && Count(desired, t) == 1;
  }
}
