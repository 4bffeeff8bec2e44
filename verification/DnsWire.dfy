// Names in the wire format of section 4.1.4 of RFC 1035, and their dotted text: what a
// sender puts into a message is what the decoder of DnsName takes out of it.
module DnsWire {
  import opened Bytes
  import opened Options
  import opened DnsName

  // Labels as they are sent, each behind its length
  function Wire(labels: seq<seq<Byte>>): seq<Byte>
    requires AreLabels(labels)
  {
    if labels == [] then [] else [|labels[0]|] + labels[0] + Wire(labels[1..])
  }

  predicate AreLabels(labels: seq<seq<Byte>>) {
    forall i :: 0 <= i < |labels| ==> 1 <= |labels[i]| <= 63
  }

  lemma LabelAt(before: seq<Byte>, head: seq<Byte>, rest: seq<Byte>)
    requires 1 <= |head| <= 63
    ensures ItemAt(before + [|head|] + head + rest, |before|) == Label(head)
  {
    var m := before + [|head|] + head + rest;
    assert m[|before|] == |head| && m[|before| + 1..|before| + 1 + |head|] == head;
  }

  lemma Regroup<T>(a: seq<T>, b: seq<T>, c: seq<T>, d: seq<T>, e: seq<T>)
    ensures a + (b + c + d) + e == a + b + c + d + e
    ensures a + (b + c + d) + e == a + b + c + (d + e)
  {
  }

  lemma WireSplits(before: seq<Byte>, labels: seq<seq<Byte>>, rest: seq<Byte>)
    requires AreLabels(labels) && labels != []
    ensures var m, more := before + Wire(labels) + rest, before + [|labels[0]|] + labels[0];
      && m == more + Wire(labels[1..]) + rest && ItemAt(m, |before|) == Label(labels[0])
      && |before| + |Wire(labels)| == |more| + |Wire(labels[1..])|
  {
    Regroup(before, [|labels[0]|], labels[0], Wire(labels[1..]), rest);
    LabelAt(before, labels[0], Wire(labels[1..]) + rest);
  }

  // From `pos` on there are these labels, up to `end`.
  predicate Leads(m: seq<Byte>, pos: nat, labels: seq<seq<Byte>>, end: nat, n: nat) {
    && pos <= end && Encoded(m, pos) == end - pos + Encoded(m, end)
    && Expand(m, pos, |labels| + n)
       == if Expand(m, end, n).None? then None else Some(labels + Expand(m, end, n).value)
  }

  lemma LeadsNowhere(m: seq<Byte>, pos: nat, n: nat)
    ensures Leads(m, pos, [], pos, n)
  {
    if Expand(m, pos, n).Some? {
      assert [] + Expand(m, pos, n).value == Expand(m, pos, n).value;
    }
  }

  lemma LeadsFurther(m: seq<Byte>, pos: nat, head: seq<Byte>, rest: seq<seq<Byte>>, end: nat, n: nat)
    requires ItemAt(m, pos) == Label(head) && Leads(m, pos + 1 + |head|, rest, end, n)
    ensures Leads(m, pos, [head] + rest, end, n)
  {
    if Expand(m, end, n).Some? {
      assert [head] + (rest + Expand(m, end, n).value) == [head] + rest + Expand(m, end, n).value;
    }
  }

  lemma {:induction false} LabelsLead(before: seq<Byte>, labels: seq<seq<Byte>>, rest: seq<Byte>, n: nat)
    requires AreLabels(labels)
    ensures Leads(before + Wire(labels) + rest, |before|, labels, |before| + |Wire(labels)|, n)
    decreases |labels|
  {
    if labels == [] {
      LeadsNowhere(before + Wire(labels) + rest, |before|, n);
    } else {
      WireSplits(before, labels, rest);
      LabelsLead(before + [|labels[0]|] + labels[0], labels[1..], rest, n);
      LeadsFurther(before + Wire(labels) + rest, |before|, labels[0], labels[1..], |before| + |Wire(labels)|, n);
      assert labels == [labels[0]] + labels[1..];
    }
  }

  // A name that was sent in full, wherever it stands in a message
  lemma RootRoundTrip(before: seq<Byte>, labels: seq<seq<Byte>>, behind: seq<Byte>)
    requires AreLabels(labels)
    ensures var m := before + Wire(labels) + [0] + behind;
      && Expand(m, |before|, |labels| + 1) == Some(labels)
      && Encoded(m, |before|) == |Wire(labels)| + 1
  {
    var m := before + Wire(labels) + [0] + behind;
    assert m == before + Wire(labels) + ([0] + behind);
    assert m[|before| + |Wire(labels)|] == 0;
    LabelsLead(before, labels, [0] + behind, 1);
    assert labels + [] == labels;
  }

  // A name whose end stands elsewhere in the message: a pointer is two bytes, with the
  // position in the lower 14 bits.
  lemma PointerRoundTrip(before: seq<Byte>, labels: seq<seq<Byte>>, target: nat, behind: seq<Byte>, n: nat)
    requires AreLabels(labels) && target < 0x4000
    requires target < |before| + |Wire(labels)| + 2 + |behind|
    ensures var m := before + Wire(labels) + [192 + target / 256, target % 256] + behind;
      && Encoded(m, |before|) == |Wire(labels)| + 2
      && Expand(m, |before|, |labels| + 1 + n)
         == if Expand(m, target, n).None? then None else Some(labels + Expand(m, target, n).value)
  {
    var pointer := [192 + target / 256, target % 256];
    var m, end := before + Wire(labels) + pointer + behind, |before| + |Wire(labels)|;
    assert m == before + Wire(labels) + (pointer + behind);
    assert m[end] == pointer[0] && m[end + 1] == pointer[1];
    assert Target(m[end], m[end + 1]) == target;
    LabelsLead(before, labels, pointer + behind, 1 + n);
  }

  /* ---------- The text ---------- */

  predicate AreAscii(names: seq<string>) {
    forall i :: 0 <= i < |names| ==> IsAscii(names[i])
  }

  function LabelsOf(names: seq<string>): seq<seq<Byte>>
    requires AreAscii(names)
  {
    seq(|names|, i requires 0 <= i < |names| => Ascii(names[i]))
  }

  // The names with a dot between any two
  function Dotted(names: seq<string>): (text: string)
    requires AreAscii(names)
    ensures IsAscii(text)
  {
    if names == [] then ""
    else if |names| == 1 then names[0]
    else Dotted(names[..|names| - 1]) + "." + names[|names| - 1]
  }

  lemma {:induction false} TextIsDotted(names: seq<string>)
    requires AreAscii(names)
    ensures Join(LabelsOf(names)) == Ascii(Dotted(names))
  {
    if |names| > 1 {
      var rest, last := names[..|names| - 1], names[|names| - 1];
      TextIsDotted(rest);
      assert LabelsOf(names)[..|names| - 1] == LabelsOf(rest);
      assert LabelsOf(names)[|names| - 1] == Ascii(last);
      assert Ascii(Dotted(rest) + "." + last) == Ascii(Dotted(rest)) + [46] + Ascii(last);
    }
  }

  // A name that was sent is decoded to its dotted text, and the bytes that it takes are
  // counted, exactly when the text and a terminator fit.
  method DecodesWhatWasSent(before: seq<Byte>, names: seq<string>, behind: seq<Byte>, out: array<Byte>)
    returns (consumed: int)
    requires AreAscii(names) && AreLabels(LabelsOf(names))
    modifies out
    ensures var text := Ascii(Dotted(names));
      if |text| < out.Length then consumed == |Wire(LabelsOf(names))| + 1 && Holds(out[..], text) else consumed == -1
  {
    ghost var labels := LabelsOf(names);
    var m := before + Wire(LabelsOf(names)) + [0] + behind;
    RootRoundTrip(before, labels, behind);
    TextIsDotted(names);
    ghost var k := ExpandsToRoot(m, |before|, |labels| + 1);
    RootText(m, |before|, k, out.Length);
    consumed := Decode(m, |before|, out);
  }
}
