// Bounded copies of UTF-8 text: finish_title of src/moonlight/gamestream_xml.c and
// xml_status_start of src/backend/legacy/legacy_gamestream.c, against section 4 of
// RFC 3629.
module Utf8 {
  import opened Bytes

  const BOUND := 255                // both buffers hold 255 bytes and a terminator

  predicate IsTail(b: Byte) {
    0x80 <= b < 0xC0
  }

  // The bytes of the character that starts the text, 0 if none does.
  function Width(s: seq<Byte>): (w: nat)
    ensures w <= 4 && w <= |s|
  {
    if s == [] then 0
    else if s[0] < 0x80 then 1
    else if 0xC2 <= s[0] < 0xE0 && |s| >= 2 && IsTail(s[1]) then 2
    else if 0xE0 <= s[0] < 0xF0 && |s| >= 3 && IsTail(s[1]) && IsTail(s[2])
            && (s[0] == 0xE0 ==> s[1] >= 0xA0) && (s[0] == 0xED ==> s[1] < 0xA0) then 3
    else if 0xF0 <= s[0] < 0xF5 && |s| >= 4 && IsTail(s[1]) && IsTail(s[2]) && IsTail(s[3])
            && (s[0] == 0xF0 ==> s[1] >= 0x90) && (s[0] == 0xF4 ==> s[1] < 0x90) then 4
    else 0
  }

  predicate Valid(s: seq<Byte>)
    decreases |s|
  {
    s == [] || (Width(s) > 0 && Valid(s[Width(s)..]))
  }

  // The bytes of the whole characters among the first `n`.
  function Whole(s: seq<Byte>, n: nat): (k: nat)
    requires n <= |s|
    ensures k <= n
    decreases |s|
  {
    if Width(s) == 0 || Width(s) > n then 0 else Width(s) + Whole(s[Width(s)..], n - Width(s))
  }

  // A prefix keeps its first character if that is not cut.
  lemma WidthOfPrefix(s: seq<Byte>, n: nat)
    requires n <= |s|
    ensures Width(s) <= n ==> Width(s[..n]) == Width(s)
    ensures Width(s[..n]) > 0 ==> Width(s[..n]) == Width(s)
  {
  }

  // The whole characters form the longest valid prefix.
  lemma {:induction false} WholeIsLongest(s: seq<Byte>, n: nat, k: nat)
    requires Valid(s) && n <= |s|
    ensures Valid(s[..Whole(s, n)])
    ensures k <= n && Valid(s[..k]) ==> k <= Whole(s, n)
    decreases |s|
  {
    var w := Width(s);
    if w > 0 && w <= n {
      var rest := s[w..];
      WholeIsLongest(rest, n - w, if k >= w then k - w else 0);
      WidthOfPrefix(s, Whole(s, n));
      assert s[..Whole(s, n)][w..] == rest[..Whole(rest, n - w)];
      if 0 < k <= n {
        WidthOfPrefix(s, k);
        assert k >= w ==> s[..k][w..] == rest[..k - w];
      }
    } else if k <= n {
      WidthOfPrefix(s, k);
    }
  }

  lemma {:induction false} WholeOfAll(s: seq<Byte>)
    requires Valid(s)
    ensures Whole(s, |s|) == |s|
    decreases |s|
  {
    if s != [] {
      WholeOfAll(s[Width(s)..]);
    }
  }

  /* ---------- Looking back from the end ---------- */

  // The width that finish_title reads off a lead byte.
  function LeadWidth(lead: Byte): nat {
    if lead < 0x80 then 1 else if lead < 0xE0 then 2 else if lead < 0xF0 then 3 else 4
  }

  // The last byte up to `i` that is not a tail, or the first byte.
  function Back(s: seq<Byte>, i: nat): (start: nat)
    requires i < |s|
    ensures start <= i
  {
    if i > 0 && IsTail(s[i]) then Back(s, i - 1) else i
  }

  // The length that finish_title leaves.
  function Trimmed(s: seq<Byte>): (k: nat)
    ensures k <= |s|
  {
    if s == [] then 0
    else
      var start := Back(s, |s| - 1);
      if start + LeadWidth(s[start]) > |s| then start else |s|
  }

  // The bytes of a character after its first are tails, and its first byte tells its width.
  lemma Shape(s: seq<Byte>)
    requires Width(s) > 0
    ensures !IsTail(s[0]) && LeadWidth(s[0]) == Width(s)
    ensures forall i :: 0 < i < Width(s) ==> IsTail(s[i])
  {
  }

  lemma {:induction false} BackInTails(s: seq<Byte>, i: nat)
    requires i < |s| && forall j :: 0 < j <= i ==> IsTail(s[j])
    ensures Back(s, i) == 0
  {
    if i > 0 {
      BackInTails(s, i - 1);
    }
  }

  lemma {:induction false} BackInRest(s: seq<Byte>, w: nat, i: nat)
    requires w <= i < |s| && !IsTail(s[w])
    ensures Back(s, i) == w + Back(s[w..], i - w)
  {
    if i > w {
      BackInRest(s, w, i - 1);
    }
  }

  lemma TrimmedRest(a: seq<Byte>, w: nat)
    requires w < |a| && !IsTail(a[w])
    ensures Trimmed(a) == w + Trimmed(a[w..])
  {
    BackInRest(a, w, |a| - 1);
  }

  lemma TrimmedFirst(s: seq<Byte>, n: nat)
    requires Width(s) > 0 && 0 < n <= Width(s)
    ensures Trimmed(s[..n]) == if n < Width(s) then 0 else n
  {
    Shape(s);
    assert forall j :: 0 < j < n ==> s[..n][j] == s[j];
    BackInTails(s[..n], n - 1);
  }

  // What finish_title leaves of the first `n` bytes are the whole characters.
  lemma {:induction false} TrimmedIsWhole(s: seq<Byte>, n: nat)
    requires Valid(s) && n <= |s|
    ensures Trimmed(s[..n]) == Whole(s, n)
    decreases |s|
  {
    var w := Width(s);
    if n > w {
      var rest := s[w..];
      Shape(rest);
      TrimmedIsWhole(rest, n - w);
      TrimmedRest(s[..n], w);
      assert s[..n][w..] == rest[..n - w];
    } else if n > 0 {
      TrimmedFirst(s, n);
    }
  }

  /* ---------- Looking at the byte behind the cut ---------- */

  // Looking back from the byte behind a cut finds the end of the whole characters.
  lemma {:induction false} CutIsWhole(s: seq<Byte>, n: nat)
    requires Valid(s) && n < |s|
    ensures Back(s, n) == Whole(s, n)
    decreases |s|
  {
    Shape(s);
    var w := Width(s);
    if n < w {
      BackInTails(s, n);
    } else {
      Shape(s[w..]);
      BackInRest(s, w, n);
      CutIsWhole(s[w..], n - w);
    }
  }

  /* ---------- The two functions ---------- */

  // The longest valid prefix of at most BOUND bytes
  ghost predicate IsLongest(s: seq<Byte>, k: nat) {
    && k <= |s| && k <= BOUND && Valid(s[..k])
    && (forall j :: 0 <= j <= |s| && j <= BOUND && Valid(s[..j]) ==> j <= k)
  }

  lemma {:induction false} WholeIs(s: seq<Byte>)
    requires Valid(s)
    ensures IsLongest(s, Whole(s, if |s| < BOUND then |s| else BOUND))
  {
    var n := if |s| < BOUND then |s| else BOUND;
    forall j | 0 <= j <= |s| && j <= BOUND && Valid(s[..j])
      ensures j <= Whole(s, n)
    {
      WholeIsLongest(s, n, j);
    }
    WholeIsLongest(s, n, 0);
  }

  // finish_title, on the text that character_data has clipped
  method TitleLength(text: seq<Byte>) returns (length: nat)
    ensures length == Trimmed(text)
  {
    length := |text|;
    if length != 0 {
      var start := length - 1;
      while start != 0 && 0x80 <= text[start] < 0xC0
        invariant 0 <= start < |text| && Back(text, |text| - 1) == Back(text, start)
      {
        start := start - 1;
      }
      var lead := text[start];
      var width := if lead < 0x80 then 1 else if lead < 0xE0 then 2 else if lead < 0xF0 then 3 else 4;
      if start + width > length {
        length := start;
      }
    }
  }

  // The copy of the status message in xml_status_start
  method MessageLength(text: seq<Byte>) returns (length: nat)
    ensures length == if |text| > BOUND then Back(text, BOUND) else |text|
    ensures Valid(text) ==> IsLongest(text, length)
  {
    length := |text|;
    if length >= BOUND + 1 {
      length := BOUND;
      while length != 0 && 0x80 <= text[length] < 0xC0
        invariant length <= BOUND && Back(text, BOUND) == Back(text, length)
      {
        length := length - 1;
      }
    }
    if Valid(text) {
      SameBoundedCopy(text);
    }
  }

  // Both keep the longest valid prefix that fits, hence the same text.
  lemma {:induction false} SameBoundedCopy(s: seq<Byte>)
    requires Valid(s)
    ensures var clipped := if |s| <= BOUND then s else s[..BOUND];
      && IsLongest(s, Trimmed(clipped))
      && Trimmed(clipped) == if |s| > BOUND then Back(s, BOUND) else |s|
  {
    var n := if |s| < BOUND then |s| else BOUND;
    assert s[..|s|] == s;
    WholeIs(s);
    TrimmedIsWhole(s, n);
    if |s| > BOUND {
      CutIsWhole(s, BOUND);
    } else {
      WholeOfAll(s);
    }
  }
}
