// The name decoder of src/backend/legacy/mdns/udp_sniffer_vita.c, against the message
// compression of section 4.1.4 of RFC 1035.
module DnsName {
  import opened Bytes
  import opened Options

  const DOT: Byte := 46

  /* ---------- What a name means ---------- */

  // What starts at a position: the root label, a label, a pointer, or nothing that
  // section 4.1.4 allows inside the message.
  datatype Item = Root | Label(text: seq<Byte>) | Pointer(target: nat) | Malformed

  function ItemAt(m: seq<Byte>, pos: nat): Item {
    if pos >= |m| then Malformed
    else if m[pos] == 0 then Root
    else if m[pos] < 64 then
      if pos + 1 + m[pos] <= |m| then Label(m[pos + 1..pos + 1 + m[pos]]) else Malformed
    else if m[pos] >= 192 && pos + 1 < |m| && Target(m[pos], m[pos + 1]) < |m| then
      Pointer(Target(m[pos], m[pos + 1]))
    else Malformed
  }

  // The lower 14 bits of a pointer
  function Target(high: Byte, low: Byte): nat
    requires high >= 192
  {
    var upper: int, lower: int := high, low;
    (upper - 192) * 256 + lower
  }

  // The upper two bits of the first byte tell what it is; two of the four values are
  // reserved.
  lemma ItemKinds(m: seq<Byte>, pos: nat, c: bv8)
    requires pos < |m| && m[pos] == c as int
    ensures ItemAt(m, pos).Root? <==> c == 0
    ensures ItemAt(m, pos).Label? <==> c & 0xC0 == 0 && c != 0 && pos + m[pos] < |m|
    ensures ItemAt(m, pos).Pointer? <==> c & 0xC0 == 0xC0 && pos + 1 < |m| && Target(m[pos], m[pos + 1]) < |m|
  {
    Masks(c, 0);
  }

  // The labels of the name at `pos`, if its root label is among the next `n` items.
  function Expand(m: seq<Byte>, pos: nat, n: nat): Option<seq<seq<Byte>>>
    decreases n
  {
    if n == 0 then None
    else
      match ItemAt(m, pos)
      case Root => Some([])
      case Malformed => None
      case Pointer(target) => Expand(m, target, n - 1)
      case Label(text) =>
        var rest := Expand(m, pos + 1 + |text|, n - 1);
        if rest.None? then None else Some([text] + rest.value)
  }

  // The masks of the source on bytes, read as numbers.
  lemma Masks(c: bv8, low: bv8)
    ensures c & 0xC0 == 0xC0 <==> c as int >= 192
    ensures c & 0xC0 == 0 <==> c as int < 64
    ensures c as int >= 192 ==>
      (((c & 0x3F) as bv16 << 8) | (low as bv16)) as int == Target(c as int, low as int)
  {
    assert c & 0xC0 == 0xC0 <==> c >= 0xC0;
    assert c & 0xC0 == 0 <==> c < 0x40;
    if c >= 0xC0 {
      var high := c - 0xC0;
      assert c & 0x3F == high;
      assert ((high as bv16 << 8) | (low as bv16)) == (high as bv16) * 256 + (low as bv16);
    }
  }

  function Join(labels: seq<seq<Byte>>): seq<Byte> {
    if labels == [] then []
    else if |labels| == 1 then labels[0]
    else Join(labels[..|labels| - 1]) + [DOT] + labels[|labels| - 1]
  }

  // The bytes that the name takes at its own position, up to a root label or a pointer.
  function Encoded(m: seq<Byte>, pos: nat): nat
    decreases |m| - pos
  {
    match ItemAt(m, pos)
    case Root => 1
    case Malformed => 0
    case Pointer(_) => 2
    case Label(text) => 1 + |text| + Encoded(m, pos + 1 + |text|)
  }

  // Some expansion, of any length, reaches the root, and its text fits.
  ghost predicate Decodable(m: seq<Byte>, pos: nat, room: int) {
    exists n: nat :: Expand(m, pos, n).Some? && |Join(Expand(m, pos, n).value)| < room
  }

  /* ---------- The traversal, item by item ---------- */

  function Move(m: seq<Byte>, pos: nat): Option<nat> {
    match ItemAt(m, pos)
    case Root => None
    case Malformed => None
    case Pointer(target) => Some(target)
    case Label(text) => Some(pos + 1 + |text|)
  }

  // The position after `k` items, and the labels among them.
  function At(m: seq<Byte>, pos: nat, k: nat): Option<nat>
    decreases k
  {
    if k == 0 then Some(pos)
    else if Move(m, pos).None? then None
    else At(m, Move(m, pos).value, k - 1)
  }

  function Passed(m: seq<Byte>, pos: nat, k: nat): seq<seq<Byte>>
    decreases k
  {
    if k == 0 || Move(m, pos).None? then []
    else if ItemAt(m, pos).Label? then [ItemAt(m, pos).text] + Passed(m, Move(m, pos).value, k - 1)
    else Passed(m, Move(m, pos).value, k - 1)
  }

  ghost predicate RootAfter(m: seq<Byte>, pos: nat, k: nat) {
    At(m, pos, k).Some? && ItemAt(m, At(m, pos, k).value).Root?
  }

  lemma {:induction false} OneMore(m: seq<Byte>, pos: nat, k: nat)
    requires At(m, pos, k).Some?
    ensures At(m, pos, k + 1) == Move(m, At(m, pos, k).value)
    ensures Move(m, At(m, pos, k).value).Some? ==>
      var item := ItemAt(m, At(m, pos, k).value);
      Passed(m, pos, k + 1) == Passed(m, pos, k) + if item.Label? then [item.text] else []
    decreases k
  {
    if k == 0 {
      assert Move(m, pos).Some? ==> At(m, Move(m, pos).value, 0) == Move(m, pos);
    } else {
      OneMore(m, Move(m, pos).value, k - 1);
    }
  }

  lemma {:induction false} Longer(m: seq<Byte>, pos: nat, i: nat, k: nat)
    requires i <= k && At(m, pos, k).Some?
    ensures At(m, pos, i).Some? && Passed(m, pos, i) <= Passed(m, pos, k)
    ensures i < k ==> Move(m, At(m, pos, i).value).Some?
    decreases i
  {
    if i > 0 {
      Longer(m, Move(m, pos).value, i - 1, k - 1);
    }
  }

  lemma {:induction false} GoesOn(m: seq<Byte>, pos: nat, i: nat, d: nat)
    requires At(m, pos, i).Some?
    ensures At(m, pos, i + d) == At(m, At(m, pos, i).value, d)
    decreases i
  {
    if i > 0 {
      GoesOn(m, Move(m, pos).value, i - 1, d);
    }
  }

  // An expansion reaches the root label exactly when the traversal does.
  lemma {:induction false} RootExpands(m: seq<Byte>, pos: nat, k: nat, n: nat)
    requires RootAfter(m, pos, k) && k < n
    ensures Expand(m, pos, n) == Some(Passed(m, pos, k))
    decreases k
  {
    if k > 0 {
      RootExpands(m, Move(m, pos).value, k - 1, n - 1);
    }
  }

  lemma {:induction false} ExpandsToRoot(m: seq<Byte>, pos: nat, n: nat) returns (k: nat)
    requires Expand(m, pos, n).Some?
    ensures k < n && RootAfter(m, pos, k) && Expand(m, pos, n) == Some(Passed(m, pos, k))
    decreases n
  {
    if ItemAt(m, pos).Root? {
      k := 0;
    } else {
      var j := ExpandsToRoot(m, Move(m, pos).value, n - 1);
      k := j + 1;
    }
  }

  // There is only one root: nothing follows it.
  lemma OneRoot(m: seq<Byte>, pos: nat, i: nat, k: nat)
    requires RootAfter(m, pos, i) && At(m, pos, k).Some?
    ensures k <= i
  {
    if i < k {
      Longer(m, pos, i, k);
    }
  }

  /* ---------- The bound on the number of items ---------- */

  // The traversal comes back to an earlier position.
  ghost predicate Revisits(m: seq<Byte>, pos: nat, i: nat, j: nat) {
    i < j && At(m, pos, i).Some? && At(m, pos, i) == At(m, pos, j)
  }

  // A traversal that revisits a position never ends, so it reaches no root.
  lemma RevisitNeverEnds(m: seq<Byte>, pos: nat, i: nat, j: nat, k: nat)
    requires Revisits(m, pos, i, j)
    ensures !RootAfter(m, pos, k)
  {
    if RootAfter(m, pos, k) {
      OneRoot(m, pos, k, j);
      GoesOn(m, pos, j, k - j);
      GoesOn(m, pos, i, k - j);
      OneRoot(m, pos, i + (k - j), k);
    }
  }

  lemma {:induction false} Pigeonhole(s: seq<nat>, n: nat) returns (i: nat, j: nat)
    requires |s| > n && forall t :: 0 <= t < |s| ==> s[t] < n
    ensures i < j < |s| && s[i] == s[j]
    decreases n
  {
    if exists t :: 0 <= t < |s| && s[t] == n - 1 {
      var t :| 0 <= t < |s| && s[t] == n - 1;
      if exists u :: 0 <= u < |s| && u != t && s[u] == s[t] {
        var u :| 0 <= u < |s| && u != t && s[u] == s[t];
        i, j := if t < u then t else u, if t < u then u else t;
      } else {
        var a, b := Pigeonhole(s[..t] + s[t + 1..], n - 1);
        i, j := if a < t then a else a + 1, if b < t then b else b + 1;
      }
    } else {
      assert s[0] < n;
      i, j := Pigeonhole(s, n - 1);
    }
  }

  // Among more positions inside the message than it has bytes, one occurs twice.
  lemma BoundFindsRevisit(m: seq<Byte>, pos: nat) returns (i: nat, j: nat)
    requires forall k: nat :: k <= |m| ==> At(m, pos, k).Some? && At(m, pos, k).value < |m|
    ensures j <= |m| && Revisits(m, pos, i, j)
  {
    var s := seq(|m| + 1, k requires 0 <= k <= |m| => At(m, pos, k).value);
    i, j := Pigeonhole(s, |m|);
  }

  /* ---------- The text ---------- */

  lemma JoinAppend(labels: seq<seq<Byte>>, text: seq<Byte>)
    ensures Join(labels + [text]) == Join(labels) + (if labels == [] then [] else [DOT]) + text
  {
    assert (labels + [text])[..|labels|] == labels;
  }

  lemma {:induction false} JoinGrows(a: seq<seq<Byte>>, b: seq<seq<Byte>>)
    requires a <= b
    ensures |Join(a)| <= |Join(b)|
    decreases |b|
  {
    if a != b {
      JoinGrows(a, b[..|b| - 1]);
      JoinAppend(b[..|b| - 1], b[|b| - 1]);
      assert b == b[..|b| - 1] + [b[|b| - 1]];
    }
  }

  /* ---------- Why the decoder gives up ---------- */

  // Nothing that is not a root follows the last position of a traversal.
  lemma DeadEnd(m: seq<Byte>, pos: nat, k: nat, room: int)
    requires At(m, pos, k).Some? && ItemAt(m, At(m, pos, k).value).Malformed?
    ensures !Decodable(m, pos, room)
  {
    forall n: nat | Expand(m, pos, n).Some?
      ensures false
    {
      var j := ExpandsToRoot(m, pos, n);
      OneRoot(m, pos, j, k);
      if k < j {
        Longer(m, pos, k, j);
      }
    }
  }

  lemma TooLong(m: seq<Byte>, pos: nat, k: nat, room: int)
    requires At(m, pos, k).Some? && |Join(Passed(m, pos, k))| >= room
    ensures !Decodable(m, pos, room)
  {
    forall n: nat | Expand(m, pos, n).Some?
      ensures |Join(Expand(m, pos, n).value)| >= room
    {
      var j := ExpandsToRoot(m, pos, n);
      OneRoot(m, pos, j, k);
      Longer(m, pos, k, j);
      JoinGrows(Passed(m, pos, k), Passed(m, pos, j));
    }
  }

  lemma RevisitUndecodable(m: seq<Byte>, pos: nat, i: nat, j: nat, room: int)
    requires Revisits(m, pos, i, j)
    ensures !Decodable(m, pos, room)
  {
    forall n: nat | Expand(m, pos, n).Some?
      ensures false
    {
      var k := ExpandsToRoot(m, pos, n);
      RevisitNeverEnds(m, pos, i, j, k);
    }
  }

  // The text of a name is the same for every expansion that reaches its root.
  lemma RootText(m: seq<Byte>, pos: nat, k: nat, room: int)
    requires RootAfter(m, pos, k)
    ensures forall n: nat :: Expand(m, pos, n).Some? ==> Expand(m, pos, n).value == Passed(m, pos, k)
    ensures Decodable(m, pos, room) <==> |Join(Passed(m, pos, k))| < room
  {
    forall n: nat | Expand(m, pos, n).Some?
      ensures Expand(m, pos, n).value == Passed(m, pos, k)
    {
      var j := ExpandsToRoot(m, pos, n);
      OneRoot(m, pos, j, k);
      OneRoot(m, pos, k, j);
    }
    RootExpands(m, pos, k, k + 1);
    assert Expand(m, pos, k + 1).Some?;
  }

  /* ---------- The decoder ---------- */

  // Where the loop is after `steps` items: their positions are inside the message.
  ghost predicate Visited(m: seq<Byte>, offset: nat, steps: nat, pos: nat) {
    && (forall k: nat :: k < steps ==> At(m, offset, k).Some? && At(m, offset, k).value < |m|)
    && At(m, offset, steps) == Some(pos)
  }

  // `text` and `consumed` are those of the items so far.
  ghost predicate Told(m: seq<Byte>, offset: nat, steps: nat, pos: nat, text: seq<Byte>, consumed: nat, jumped: bool) {
    && text == Join(Passed(m, offset, steps)) && (text == [] <==> Passed(m, offset, steps) == [])
    && Encoded(m, offset) == consumed + if jumped then 0 else Encoded(m, pos)
  }

  ghost predicate Walked(m: seq<Byte>, offset: nat, steps: nat, pos: nat, text: seq<Byte>, consumed: nat,
                         jumped: bool) {
    Visited(m, offset, steps, pos) && Told(m, offset, steps, pos, text, consumed, jumped)
  }

  lemma VisitOneMore(m: seq<Byte>, offset: nat, steps: nat, pos: nat)
    requires Visited(m, offset, steps, pos) && Move(m, pos).Some?
    ensures Visited(m, offset, steps + 1, Move(m, pos).value)
  {
    OneMore(m, offset, steps);
  }

  lemma WalkLabel(m: seq<Byte>, offset: nat, steps: nat, pos: nat, text: seq<Byte>, consumed: nat, jumped: bool,
                  chunk: seq<Byte>)
    requires Walked(m, offset, steps, pos, text, consumed, jumped) && ItemAt(m, pos) == Label(chunk)
    ensures Walked(m, offset, steps + 1, pos + 1 + |chunk|, text + (if text == [] then [] else [DOT]) + chunk,
                   if jumped then consumed else consumed + |chunk| + 1, jumped)
  {
    VisitOneMore(m, offset, steps, pos);
    var was := Passed(m, offset, steps);
    assert Passed(m, offset, steps + 1) == was + [chunk] by {
      OneMore(m, offset, steps);
    }
    JoinAppend(was, chunk);
  }

  lemma WalkPointer(m: seq<Byte>, offset: nat, steps: nat, pos: nat, text: seq<Byte>, consumed: nat, jumped: bool,
                    target: nat)
    requires Walked(m, offset, steps, pos, text, consumed, jumped) && ItemAt(m, pos) == Pointer(target)
    ensures Walked(m, offset, steps + 1, target, text, if jumped then consumed else consumed + 2, true)
  {
    VisitOneMore(m, offset, steps, pos);
    assert Passed(m, offset, steps + 1) == Passed(m, offset, steps) by {
      OneMore(m, offset, steps);
    }
  }

  lemma WalkRoot(m: seq<Byte>, offset: nat, steps: nat, pos: nat, text: seq<Byte>, consumed: nat, jumped: bool,
                 room: int)
    requires Walked(m, offset, steps, pos, text, consumed, jumped) && ItemAt(m, pos).Root?
    ensures Encoded(m, offset) == consumed + if jumped then 0 else 1
    ensures Decodable(m, offset, room) <==> |text| < room
    ensures forall n: nat :: Expand(m, offset, n).Some? ==> Join(Expand(m, offset, n).value) == text
  {
    RootText(m, offset, steps, room);
  }

  // The loop ends without a root label: outside the message, or at its bound.
  lemma WalkEnds(m: seq<Byte>, offset: nat, steps: nat, pos: nat, text: seq<Byte>, consumed: nat, jumped: bool,
                 room: int)
    requires Walked(m, offset, steps, pos, text, consumed, jumped) && (pos >= |m| || steps == |m|)
    ensures !Decodable(m, offset, room)
  {
    if pos >= |m| {
      DeadEnd(m, offset, steps, room);
    } else {
      var i, j := BoundFindsRevisit(m, offset);
      RevisitUndecodable(m, offset, i, j, room);
    }
  }

  // What `out` holds after a successful call: the text as a C string.
  ghost predicate Holds(out: seq<Byte>, text: seq<Byte>) {
    |text| < |out| && out[..|text|] == text && out[|text|] == 0
  }

  // Writes a label behind the text so far.
  method Append(out: array<Byte>, from: nat, chunk: seq<Byte>, ghost text: seq<Byte>) returns (end: nat)
    requires Holds(out[..], text) && |text| == from
    requires from + (if from != 0 then 1 else 0) + |chunk| < out.Length
    modifies out
    ensures end == from + (if from != 0 then 1 else 0) + |chunk|
    ensures Holds(out[..], text + (if text == [] then [] else [DOT]) + chunk)
  {
    assert out[..from] == text;
    end := from;
    if from != 0 {
      out[end] := DOT;
      end := end + 1;
    }
    forall i | 0 <= i < |chunk| {
      out[end + i] := chunk[i];
    }
    end := end + |chunk|;
    out[end] := 0;
  }

  // The label at `pos` comes behind the text, if it fits.
  method TakeLabel(m: seq<Byte>, ghost offset: nat, out: array<Byte>, ghost steps: nat, pos: nat, outpos: nat,
                   ghost text: seq<Byte>, ghost consumed: nat, ghost jumped: bool)
    returns (fits: bool, end: nat, ghost longer: seq<Byte>)
    requires pos < |m| && 0 < m[pos] < 64 && m[pos] <= |m| - pos - 1
    requires Walked(m, offset, steps, pos, text, consumed, jumped) && Holds(out[..], text) && outpos == |text|
    modifies out
    ensures !fits ==> !Decodable(m, offset, out.Length)
    ensures fits ==>
      && Holds(out[..], longer) && end == |longer|
      && Walked(m, offset, steps + 1, pos + 1 + m[pos], longer, if jumped then consumed else consumed + m[pos] + 1,
                jumped)
  {
    var c := m[pos];
    var chunk := m[pos + 1..pos + 1 + c];
    WalkLabel(m, offset, steps, pos, text, consumed, jumped, chunk);
    longer := text + (if text == [] then [] else [DOT]) + chunk;
    fits, end := true, outpos;
    if c + (if outpos != 0 then 1 else 0) >= out.Length - outpos {
      TooLong(m, offset, steps + 1, out.Length);
      fits := false;
    } else {
      end := Append(out, outpos, chunk, text);
    }
  }

  // decode_dns_name. It succeeds exactly when unbounded expansion from `offset` reaches a
  // root label and the dotted text, with its terminator, fits `out`.
  method Decode(m: seq<Byte>, offset: int, out: array<Byte>) returns (consumed: int)
    modifies out
    ensures consumed == -1 || consumed >= 0
    ensures consumed >= 0 <==> 0 <= offset < |m| && Decodable(m, offset, out.Length)
    ensures consumed >= 0 ==> consumed == Encoded(m, offset)
    ensures consumed >= 0 ==> forall n: nat :: Expand(m, offset, n).Some? ==>
      Holds(out[..], Join(Expand(m, offset, n).value))
  {
    if out.Length <= 0 || offset < 0 || offset >= |m| {
      return -1;
    }
    consumed := 0;
    var jumped, pos, outpos, steps := false, offset, 0, 0;
    out[0] := 0;
    ghost var text: seq<Byte> := [];
    while pos < |m| && steps < |m|
      invariant 0 <= steps <= |m| && pos >= 0 && consumed >= 0
      invariant Walked(m, offset, steps, pos, text, consumed, jumped)
      invariant Holds(out[..], text) && outpos == |text|
      decreases |m| - steps
    {
      var c := m[pos];
      if c == 0 {
        WalkRoot(m, offset, steps, pos, text, consumed, jumped, out.Length);
        return if jumped then consumed else consumed + 1;
      }
      if c >= 192 {
        if pos + 1 >= |m| || Target(c, m[pos + 1]) >= |m| {
          DeadEnd(m, offset, steps, out.Length);
          return -1;
        }
        WalkPointer(m, offset, steps, pos, text, consumed, jumped, Target(c, m[pos + 1]));
        if !jumped {
          consumed := consumed + 2;
        }
        pos := Target(c, m[pos + 1]);
        jumped := true;
      } else {
        if c >= 64 || c > |m| - pos - 1 {
          DeadEnd(m, offset, steps, out.Length);
          return -1;
        }
        var fits;
        fits, outpos, text := TakeLabel(m, offset, out, steps, pos, outpos, text, consumed, jumped);
        if !fits {
          return -1;
        }
        if !jumped {
          consumed := consumed + c + 1;
        }
        pos := pos + c + 1;
      }
      steps := steps + 1;
    }
    WalkEnds(m, offset, steps, pos, text, consumed, jumped, out.Length);
    return -1;
  }
}
