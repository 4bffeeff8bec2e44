// The Expat handlers of src/moonlight/gamestream_xml.c, as functions on their context.
// ParseContext gives them as methods that update it.
module XmlHandlers {
  import opened Bytes
  import opened Options
  import Utf8

  const INT_MAX := 0x7FFF_FFFF
  const SERVER_OK := 200
  const TEXT := Utf8.BOUND          // bytes of `text`, besides the terminator

  // Character data holds no zero byte, so that a text is also a C string.
  type Text = seq<Byte>

  /* ---------- Numbers ---------- */

  predicate IsSpace(c: Byte) {
    c == 32 || c == 9 || c == 13 || c == 10
  }

  predicate IsDigit(c: Byte) {
    48 <= c <= 57
  }

  function SpacesEnd(t: Text, i: nat): (j: nat)
    requires i <= |t|
    ensures i <= j <= |t| && forall k :: i <= k < j ==> IsSpace(t[k])
    ensures j < |t| ==> !IsSpace(t[j])
    decreases |t| - i
  {
    if i < |t| && IsSpace(t[i]) then SpacesEnd(t, i + 1) else i
  }

  function DigitsEnd(t: Text, i: nat): (j: nat)
    requires i <= |t|
    ensures i <= j <= |t| && forall k :: i <= k < j ==> IsDigit(t[k])
    ensures j < |t| ==> !IsDigit(t[j])
    decreases |t| - i
  {
    if i < |t| && IsDigit(t[i]) then DigitsEnd(t, i + 1) else i
  }

  lemma {:induction false} SpacesStop(t: Text, i: nat, j: nat)
    requires i <= j <= |t| && (forall k :: i <= k < j ==> IsSpace(t[k])) && (j < |t| ==> !IsSpace(t[j]))
    ensures SpacesEnd(t, i) == j
    decreases j - i
  {
    if i < j {
      SpacesStop(t, i + 1, j);
    }
  }

  lemma {:induction false} DigitsStop(t: Text, i: nat, j: nat)
    requires i <= j <= |t| && (forall k :: i <= k < j ==> IsDigit(t[k])) && (j < |t| ==> !IsDigit(t[j]))
    ensures DigitsEnd(t, i) == j
    decreases j - i
  {
    if i < j {
      DigitsStop(t, i + 1, j);
    }
  }

  // The number that digits denote.
  function Value(digits: Text): int {
    if digits == [] then 0 else Value(digits[..|digits| - 1]) * 10 + Digit(digits[|digits| - 1])
  }

  function Digit(c: Byte): int {
    var code: int := c;
    code - 48
  }

  function Number(t: Text): Option<int> {
    var a := SpacesEnd(t, 0);
    var b := DigitsEnd(t, a);
    if a == b || SpacesEnd(t, b) < |t| || Value(t[a..b]) > INT_MAX then None else Some(Value(t[a..b]))
  }

  // Digits from a to b, and spaces around them.
  predicate Numeral(t: Text, a: nat, b: nat) {
    && a < b <= |t| && (forall k :: a <= k < b ==> IsDigit(t[k]))
    && (forall k :: 0 <= k < a ==> IsSpace(t[k])) && (forall k :: b <= k < |t| ==> IsSpace(t[k]))
  }

  // Numbers are accepted up to INT_MAX, and nothing else is.
  lemma NumberAccepts(t: Text, a: nat, b: nat)
    requires Numeral(t, a, b)
    ensures Number(t) == if Value(t[a..b]) <= INT_MAX then Some(Value(t[a..b])) else None
  {
    assert IsDigit(t[a]);
    SpacesStop(t, 0, a);
    DigitsStop(t, a, b);
    SpacesStop(t, b, |t|);
  }

  lemma AcceptedIsNumeral(t: Text)
    requires Number(t).Some?
    ensures Numeral(t, SpacesEnd(t, 0), DigitsEnd(t, SpacesEnd(t, 0))) && 0 <= Number(t).value <= INT_MAX
  {
    var a := SpacesEnd(t, 0);
    var b := DigitsEnd(t, a);
    assert SpacesEnd(t, b) == |t|;
    ValueSign(t[a..b]);
  }

  lemma {:induction false} ValueSign(digits: Text)
    requires forall k :: 0 <= k < |digits| ==> IsDigit(digits[k])
    ensures Value(digits) >= 0
  {
    if digits != [] {
      ValueSign(digits[..|digits| - 1]);
    }
  }

  lemma {:induction false} ValueGrows(digits: Text, n: nat)
    requires n <= |digits| && forall k :: 0 <= k < |digits| ==> IsDigit(digits[k])
    ensures 0 <= Value(digits[..n]) <= Value(digits)
    decreases |digits|
  {
    ValueSign(digits[..n]);
    if n < |digits| {
      var rest := digits[..|digits| - 1];
      assert rest[..n] == digits[..n];
      ValueGrows(rest, n);
    } else {
      assert digits[..n] == digits;
    }
  }

  // A number in decimal digits: ASCII has the digits from 48 on.
  function Decimal(n: nat): (t: Text)
    ensures t != [] && forall k :: 0 <= k < |t| ==> IsDigit(t[k])
  {
    if n < 10 then [48 + n] else Decimal(n / 10) + [48 + n % 10]
  }

  // Copies of one byte
  function Repeated(c: Byte, n: nat): Text {
    seq(n, _ => c)
  }

  lemma {:induction false} ValueOfDecimal(zeros: nat, n: nat)
    ensures Value(Repeated(48, zeros) + Decimal(n)) == n
  {
    var t := Repeated(48, zeros) + Decimal(n);
    if n < 10 {
      assert t[..|t| - 1] == Repeated(48, zeros);
      ValueOfZeros(zeros);
    } else {
      assert t[..|t| - 1] == Repeated(48, zeros) + Decimal(n / 10);
      ValueOfDecimal(zeros, n / 10);
    }
  }

  lemma {:induction false} ValueOfZeros(zeros: nat)
    ensures Value(Repeated(48, zeros)) == 0
  {
    if zeros > 0 {
      assert Repeated(48, zeros)[..zeros - 1] == Repeated(48, zeros - 1);
      ValueOfZeros(zeros - 1);
    }
  }

  predicate AreSpaces(t: Text) {
    forall k :: 0 <= k < |t| ==> IsSpace(t[k])
  }

  // A number is read from its decimal digits, with spaces around them and leading zeros,
  // up to INT_MAX.
  lemma NumberOfDecimal(before: Text, zeros: nat, n: nat, behind: Text)
    requires AreSpaces(before) && AreSpaces(behind)
    ensures Number(before + Repeated(48, zeros) + Decimal(n) + behind) == if n <= INT_MAX then Some(n) else None
  {
    var digits := Repeated(48, zeros) + Decimal(n);
    var t, a := before + Repeated(48, zeros) + Decimal(n) + behind, |before|;
    assert t == before + digits + behind && t[a..a + |digits|] == digits;
    assert forall k :: 0 <= k < |digits| ==> t[a + k] == digits[k];
    ValueOfDecimal(zeros, n);
    NumberAccepts(t, a, a + |digits|);
  }

  // Whatever digits there are, they are the decimal ones of their value behind zeros.
  lemma {:induction false} DigitsAreDecimal(digits: Text) returns (zeros: nat)
    requires digits != [] && forall k :: 0 <= k < |digits| ==> IsDigit(digits[k])
    ensures Value(digits) >= 0 && digits == Repeated(48, zeros) + Decimal(Value(digits))
  {
    var rest, last := digits[..|digits| - 1], digits[|digits| - 1];
    assert digits == rest + [last];
    if rest == [] {
      zeros := 0;
    } else {
      zeros := DigitsAreDecimal(rest);
      if Value(rest) == 0 {
        zeros := zeros + 1;
        assert Repeated(48, zeros) == Repeated(48, zeros - 1) + [48];
      }
    }
  }

  // Nothing else is read as a number.
  lemma NumberIsDecimal(t: Text) returns (before: Text, zeros: nat, behind: Text)
    requires Number(t).Some?
    ensures AreSpaces(before) && AreSpaces(behind) && 0 <= Number(t).value <= INT_MAX
    ensures t == before + Repeated(48, zeros) + Decimal(Number(t).value) + behind
  {
    AcceptedIsNumeral(t);
    var a := SpacesEnd(t, 0);
    before, zeros, behind := NumeralIsDecimal(t, a, DigitsEnd(t, a));
  }

  lemma NumeralIsDecimal(t: Text, a: nat, b: nat) returns (before: Text, zeros: nat, behind: Text)
    requires Numeral(t, a, b)
    ensures AreSpaces(before) && AreSpaces(behind) && Value(t[a..b]) >= 0
    ensures t == before + Repeated(48, zeros) + Decimal(Value(t[a..b])) + behind
  {
    var digits := t[a..b];
    assert forall k :: 0 <= k < |digits| ==> digits[k] == t[a + k];
    zeros := DigitsAreDecimal(digits);
    before, behind := t[..a], t[b..];
    Parted(t, a, b, Repeated(48, zeros), Decimal(Value(digits)));
  }

  lemma Parted(t: Text, a: nat, b: nat, s: Text, u: Text)
    requires a <= b <= |t| && t[a..b] == s + u
    ensures t == t[..a] + s + u + t[b..]
  {
    assert t == t[..a] + t[a..b] + t[b..];
  }

  // The loops of parse_number
  method SkipSpaces(text: Text, from: nat) returns (i: nat)
    requires from <= |text|
    ensures i == SpacesEnd(text, from)
  {
    i := from;
    while i < |text| && IsSpace(text[i])
      invariant from <= i <= |text| && SpacesEnd(text, i) == SpacesEnd(text, from)
    {
      i := i + 1;
    }
  }

  // The digits' end, or None when their number is too large.
  method ReadDigits(text: Text, a: nat) returns (i: nat, result: Option<int>)
    requires a <= |text|
    ensures a <= i <= |text|
    ensures var b := DigitsEnd(text, a);
      if Value(text[a..b]) > INT_MAX then result == None else i == b && result == Some(Value(text[a..b]))
  {
    i := a;
    var number := 0;
    ghost var b := DigitsEnd(text, a);
    ghost var digits := text[a..b];
    while i < |text| && IsDigit(text[i])
      invariant a <= i <= b && DigitsEnd(text, i) == b
      invariant number == Value(digits[..i - a]) && 0 <= number <= INT_MAX
    {
      var digit := Digit(text[i]);
      ValueGrows(digits, i + 1 - a);
      assert digits[..i + 1 - a][..i - a] == digits[..i - a] && digits[i - a] == text[i];
      if number > (INT_MAX - digit) / 10 {
        return i, None;
      }
      number := number * 10 + digit;
      i := i + 1;
    }
    assert digits[..i - a] == digits;
    result := Some(number);
  }

  // parse_number
  method ParseNumber(text: Text) returns (value: Option<int>)
    ensures value == Number(text)
  {
    var a := SkipSpaces(text, 0);
    var b, result := ReadDigits(text, a);
    if result.None? {
      return None;
    }
    var end := SkipSpaces(text, b);
    value := if a == b || end < |text| then None else result;
  }

  /* ---------- The context ---------- */

  datatype Field = NoField | TitleField | IdField | SessionField | UrlField

  datatype App = App(id: int, name: Text)

  const NO_APP := App(0, [])

  datatype Attribute = Attribute(name: string, value: Text)

  // `stored` are the applications in the caller's array, `total` counts all. `wanted` is
  // the result field of a launch or cancel response, None for an application list.
  datatype Context = Context(
    status: int, message: Text, total: nat, stored: seq<App>, capacity: nat, depth: int,
    invalid: bool, rootSeen: bool, appOpen: bool, haveId: bool, haveTitle: bool, app: App,
    field: Field, fieldDepth: int, text: Text,
    wanted: Option<string>, haveSession: bool, url: Option<Text>)

  function Begin(capacity: nat, wanted: Option<string>): Context {
    Context(0, [], 0, [], capacity, 0, false, false, false, false, false, NO_APP, NoField, 0, [],
            wanted, false, None)
  }

  function Reject(c: Context): Context {
    c.(invalid := true)
  }

  function BeginField(c: Context, field: Field): Context {
    c.(field := field, fieldDepth := c.depth, text := [])
  }

  function Clip(t: Text): Text {
    if |t| <= TEXT then t else t[..TEXT]
  }

  // What is taken from the attributes of the root
  datatype Line = Line(status: int, message: Text, refused: bool)

  function ReadAttribute(l: Line, a: Attribute): Line {
    if a.name == "status_code" then
      if Number(a.value).Some? then l.(status := Number(a.value).value) else l.(refused := true)
    else if a.name == "status_message" then l.(message := Clip(a.value))
    else l
  }

  function ReadLine(l: Line, attributes: seq<Attribute>): Line
    decreases attributes
  {
    if attributes == [] then l else ReadLine(ReadAttribute(l, attributes[0]), attributes[1..])
  }

  function LineOf(c: Context): Line {
    Line(c.status, c.message, c.invalid)
  }

  function ReadAttributes(c: Context, attributes: seq<Attribute>): Context {
    var l := ReadLine(LineOf(c), attributes);
    c.(status := l.status, message := l.message, invalid := l.refused)
  }

  function StartRoot(c: Context, name: string, attributes: seq<Attribute>): Context {
    if c.rootSeen || name != "root" then Reject(c)
    else
      var read := ReadAttributes(c.(rootSeen := true), attributes);
      if read.status == 0 then Reject(read) else read
  }

  // An element of a launch or cancel response
  function StartResult(c: Context, name: string, wanted: string): Context {
    if c.depth != 2 then c
    else if name == wanted then if c.haveSession then Reject(c) else BeginField(c, SessionField)
    else if name == "sessionUrl0" then if c.url.Some? then Reject(c) else BeginField(c, UrlField)
    else c
  }

  // An element below the root, in a response with status 200
  function StartInner(c: Context, name: string): Context {
    if !c.field.NoField? then Reject(c)
    else if c.wanted.Some? then StartResult(c, name, c.wanted.value)
    else if name == "App" then
      if c.depth != 2 || c.appOpen then Reject(c)
      else c.(app := NO_APP, haveId := false, haveTitle := false, appOpen := true)
    else if !c.appOpen || c.depth != 3 then c
    else if name == "ID" then if c.haveId then Reject(c) else BeginField(c, IdField)
    else if name == "AppTitle" then if c.haveTitle then Reject(c) else BeginField(c, TitleField)
    else c
  }

  // start_element
  function OnStart(c: Context, name: string, attributes: seq<Attribute>): Context {
    if c.invalid then c
    else
      var d := c.(depth := c.depth + 1);
      if d.depth == 1 then StartRoot(d, name, attributes)
      else if d.status != SERVER_OK then d
      else StartInner(d, name)
  }

  // character_data
  function OnText(c: Context, data: Text): Context {
    if c.invalid || c.field.NoField? then c
    else if |c.text| + |data| > TEXT && !c.field.TitleField? then Reject(c)
    else c.(text := Clip(c.text + data))
  }

  predicate StartsWith(t: Text, prefix: Text) {
    |prefix| <= |t| && t[..|prefix|] == prefix
  }

  const RTSP: Text := [114, 116, 115, 112, 58, 47, 47]                      // rtsp://
  const RTSPENC: Text := [114, 116, 115, 112, 101, 110, 99, 58, 47, 47]     // rtspenc://

  predicate HasScheme(t: Text) {
    (StartsWith(t, RTSP) && |t| > |RTSP|) || (StartsWith(t, RTSPENC) && |t| > |RTSPENC|)
  }

  predicate HasSpace(t: Text) {
    exists i :: 0 <= i < |t| && IsSpace(t[i])
  }

  // A session URL: one of the two schemes, something behind it, and no space.
  predicate IsUrl(t: Text) {
    HasScheme(t) && !HasSpace(t)
  }

  function FinishField(c: Context): Context {
    match c.field
    case NoField => c
    case TitleField =>
      c.(app := c.app.(name := c.text[..Utf8.Trimmed(c.text)]), haveTitle := true, field := NoField)
    case IdField =>
      if Number(c.text).Some?
      then c.(app := c.app.(id := Number(c.text).value), haveId := true, field := NoField)
      else c.(invalid := true, haveId := true, field := NoField)
    case SessionField =>
      c.(invalid := c.invalid || Number(c.text) != Some(1), haveSession := true, field := NoField)
    case UrlField =>
      c.(invalid := c.invalid || !IsUrl(c.text), url := Some(if IsUrl(c.text) then c.text else []), field := NoField)
  }

  function FinishApp(c: Context): Context {
    if !c.haveId || !c.haveTitle || c.total == INT_MAX then Reject(c)
    else c.(stored := if |c.stored| < c.capacity then c.stored + [c.app] else c.stored,
            total := c.total + 1, appOpen := false)
  }

  // end_element
  function OnEnd(c: Context, name: string): Context {
    if c.invalid then c
    else
      var f := if c.depth == c.fieldDepth then FinishField(c) else c;
      if f.wanted.None? && f.depth == 2 && name == "App" && f.status == SERVER_OK && !f.invalid then
        var done := FinishApp(f);
        if done.invalid then done else done.(depth := done.depth - 1)
      else f.(depth := f.depth - 1)
  }

  /* ---------- The result ---------- */

  datatype Result = Ok | Invalid | ServerError

  // parse_response, after XML_Parse said whether the document was parsed to its end.
  function Outcome(c: Context, parsed: bool): Result {
    if !parsed || c.invalid || !c.rootSeen || c.depth != 0 then Invalid
    else if c.status != SERVER_OK then ServerError
    else if c.wanted.Some? && !c.haveSession then Invalid
    else Ok
  }
}
