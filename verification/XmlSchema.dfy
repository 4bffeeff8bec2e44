// Responses as trees, and the proof that the handlers of src/moonlight/gamestream_xml.c
// accept exactly the trees of their schemas.
//
// Expat is taken to report a well-formed document as the events of its tree, with the
// text of an element in chunks of any size.
module XmlSchema {
  import opened Bytes
  import opened Options
  import Utf8
  import opened XmlHandlers

  // Neighbouring chunks are one text, split at some place.
  datatype Node =
    | Chunk(data: Text)
    | Element(name: string, attributes: seq<Attribute>, children: seq<Node>)

  /* ---------- The schema ---------- */

  function TextOf(ns: seq<Node>): Text {
    if ns == [] then [] else (if ns[0].Chunk? then ns[0].data else []) + TextOf(ns[1..])
  }

  predicate IsLeaf(ns: seq<Node>) {
    forall i :: 0 <= i < |ns| ==> ns[i].Chunk?
  }

  // Applications are allowed directly below the root only.
  predicate NoApps(ns: seq<Node>) {
    forall n :: n in ns ==> n.Chunk? || (n.name != "App" && NoApps(n.children))
  }

  // A title is cut at a character boundary.
  function Shorten(t: Text): Text {
    Clip(t)[..Utf8.Trimmed(Clip(t))]
  }

  // What was read of an application so far.
  datatype Parts = Parts(id: Option<int>, title: Option<Text>)

  // The ID and the title among an application's children: each at most once, of text
  // only, and the ID a number of at most TEXT bytes.
  function ReadApp(p: Parts, ns: seq<Node>): Option<Parts>
    decreases ns
  {
    if ns == [] then Some(p)
    else
      match ns[0]
      case Chunk(_) => ReadApp(p, ns[1..])
      case Element(name, _, children) =>
        if name == "ID" then
          if p.id.None? && IsLeaf(children) && |TextOf(children)| <= TEXT && Number(TextOf(children)).Some?
          then ReadApp(p.(id := Number(TextOf(children))), ns[1..]) else None
        else if name == "AppTitle" then
          if p.title.None? && IsLeaf(children)
          then ReadApp(p.(title := Some(Shorten(TextOf(children)))), ns[1..]) else None
        else if name != "App" && NoApps(children) then ReadApp(p, ns[1..]) else None
  }

  const NOTHING_READ := Parts(None, None)

  function AppOf(children: seq<Node>): Option<App> {
    match ReadApp(NOTHING_READ, children)
    case Some(Parts(Some(id), Some(title))) => Some(App(id, title))
    case _ => None
  }

  // The applications of a list, in document order.
  function ReadApps(ns: seq<Node>): Option<seq<App>>
    decreases ns
  {
    if ns == [] then Some([])
    else
      match ns[0]
      case Chunk(_) => ReadApps(ns[1..])
      case Element(name, _, children) =>
        if name == "App" then
          if AppOf(children).Some? && ReadApps(ns[1..]).Some?
          then Some([AppOf(children).value] + ReadApps(ns[1..]).value) else None
        else if NoApps(children) then ReadApps(ns[1..]) else None
  }

  // The root's status, if its status_code is a number.
  function Status(attributes: seq<Attribute>, before: int): Option<int>
    decreases attributes
  {
    if attributes == [] then Some(before)
    else if attributes[0].name != "status_code" then Status(attributes[1..], before)
    else if Number(attributes[0].value).None? then None
    else Status(attributes[1..], Number(attributes[0].value).value)
  }

  // The root's message, as much of it as is kept
  function Message(attributes: seq<Attribute>, before: Text): Text
    decreases attributes
  {
    if attributes == [] then before
    else Message(attributes[1..], if attributes[0].name == "status_message" then Clip(attributes[0].value) else before)
  }

  // The first `n` applications, or all
  function Take(apps: seq<App>, n: nat): (first: seq<App>)
    ensures first <= apps && |first| == if |apps| <= n then |apps| else n
  {
    if |apps| <= n then apps else apps[..n]
  }

  /* ---------- The handlers on a tree ---------- */

  datatype Event = Start(name: string, attributes: seq<Attribute>) | Chars(data: Text) | End(name: string)

  function EventsOf(ns: seq<Node>): seq<Event> {
    if ns == [] then []
    else
      match ns[0]
      case Chunk(data) => [Chars(data)] + EventsOf(ns[1..])
      case Element(name, attributes, children) =>
        [Start(name, attributes)] + EventsOf(children) + [End(name)] + EventsOf(ns[1..])
  }

  function Handle(c: Context, e: Event): Context {
    match e
    case Start(name, attributes) => OnStart(c, name, attributes)
    case Chars(data) => OnText(c, data)
    case End(name) => OnEnd(c, name)
  }

  function HandleAll(c: Context, es: seq<Event>): Context
    decreases es
  {
    if es == [] then c else HandleAll(Handle(c, es[0]), es[1..])
  }

  // The handlers, called in the order of the tree.
  function Feed(c: Context, ns: seq<Node>): Context
    decreases ns
  {
    if ns == [] then c
    else
      match ns[0]
      case Chunk(data) => Feed(OnText(c, data), ns[1..])
      case Element(name, attributes, children) =>
        Feed(OnEnd(Feed(OnStart(c, name, attributes), children), name), ns[1..])
  }

  lemma {:induction false} HandleMore(c: Context, a: seq<Event>, b: seq<Event>)
    ensures HandleAll(c, a + b) == HandleAll(HandleAll(c, a), b)
    decreases a
  {
    if a == [] {
      assert a + b == b;
    } else {
      assert (a + b)[1..] == a[1..] + b;
      HandleMore(Handle(c, a[0]), a[1..], b);
    }
  }

  lemma HandleElement(c: Context, name: string, attributes: seq<Attribute>, inner: seq<Event>, rest: seq<Event>)
    ensures HandleAll(c, [Start(name, attributes)] + inner + [End(name)] + rest)
            == HandleAll(OnEnd(HandleAll(OnStart(c, name, attributes), inner), name), rest)
  {
    var es := [Start(name, attributes)] + inner + [End(name)] + rest;
    assert es[1..] == inner + ([End(name)] + rest);
    HandleMore(OnStart(c, name, attributes), inner, [End(name)] + rest);
    assert ([End(name)] + rest)[1..] == rest;
  }

  // Feeding the tree is handling its events.
  lemma {:induction false} FeedHandlesEvents(c: Context, ns: seq<Node>)
    ensures Feed(c, ns) == HandleAll(c, EventsOf(ns))
    decreases ns
  {
    if ns != [] {
      match ns[0]
      case Chunk(data) =>
        FeedHandlesEvents(OnText(c, data), ns[1..]);
      case Element(name, attributes, children) =>
        var started := OnStart(c, name, attributes);
        FeedHandlesEvents(started, children);
        FeedHandlesEvents(OnEnd(Feed(started, children), name), ns[1..]);
        HandleElement(c, name, attributes, EventsOf(children), EventsOf(ns[1..]));
    }
  }

  lemma {:induction false} RejectedStays(c: Context, ns: seq<Node>)
    requires c.invalid
    ensures Feed(c, ns) == c
    decreases ns
  {
    if ns != [] {
      if ns[0].Element? {
        RejectedStays(c, ns[0].children);
      }
      RejectedStays(c, ns[1..]);
    }
  }

  // A response without success is not looked into.
  lemma {:induction false} NoSuccess(c: Context, ns: seq<Node>)
    requires !c.invalid && c.status != SERVER_OK && c.field.NoField? && c.depth >= 1
    ensures Feed(c, ns) == c
    decreases ns
  {
    if ns != [] {
      if ns[0].Element? {
        var started := OnStart(c, ns[0].name, ns[0].attributes);
        NoSuccess(started, ns[0].children);
        assert OnEnd(started, ns[0].name) == c;
      }
      NoSuccess(c, ns[1..]);
    }
  }

  // Where no application and no field can start
  predicate Outside(c: Context) {
    && !c.invalid && c.status == SERVER_OK && c.field.NoField? && c.wanted.None?
    && (c.depth >= 3 || (c.depth == 2 && !c.appOpen))
  }

  lemma {:induction false} Ignored(c: Context, ns: seq<Node>)
    requires Outside(c)
    ensures if NoApps(ns) then Feed(c, ns) == c else Feed(c, ns).invalid
    decreases ns
  {
    if ns != [] {
      var n := ns[0];
      assert NoApps(ns) <==> (n.Chunk? || (n.name != "App" && NoApps(n.children))) && NoApps(ns[1..]);
      if n.Chunk? {
        Ignored(c, ns[1..]);
      } else if n.name == "App" {
        RejectedStays(OnStart(c, n.name, n.attributes), n.children);
        RejectedStays(OnStart(c, n.name, n.attributes), ns[1..]);
      } else {
        var started := OnStart(c, n.name, n.attributes);
        Ignored(started, n.children);
        if NoApps(n.children) {
          assert OnEnd(started, n.name) == c;
          Ignored(c, ns[1..]);
        } else {
          RejectedStays(Feed(started, n.children), ns[1..]);
        }
      }
    }
  }

  lemma ClipMore(a: Text, b: Text, c: Text)
    ensures Clip(Clip(a + b) + c) == Clip(a + (b + c))
    ensures |a| + |b| <= TEXT ==> Clip(a + b) == a + b
  {
    assert a + b + c == a + (b + c);
  }

  // The content of a field
  lemma {:induction false} FieldText(c: Context, ns: seq<Node>)
    requires !c.invalid && c.status == SERVER_OK && !c.field.NoField? && c.depth >= 1 && |c.text| <= TEXT
    ensures if IsLeaf(ns) && (c.field.TitleField? || |c.text| + |TextOf(ns)| <= TEXT)
            then Feed(c, ns) == c.(text := Clip(c.text + TextOf(ns))) else Feed(c, ns).invalid
    decreases ns
  {
    if ns == [] {
      assert c.text + [] == c.text;
    } else if ns[0].Element? {
      var rejected := OnStart(c, ns[0].name, ns[0].attributes);
      RejectedStays(rejected, ns[0].children);
      RejectedStays(rejected, ns[1..]);
    } else {
      FieldChunk(c, ns[0].data, ns[1..]);
      assert IsLeaf(ns) <==> IsLeaf(ns[1..]);
      if OnText(c, ns[0].data).invalid {
        RejectedStays(OnText(c, ns[0].data), ns[1..]);
      } else {
        FieldText(OnText(c, ns[0].data), ns[1..]);
      }
    }
  }

  lemma FieldChunk(c: Context, data: Text, rest: seq<Node>)
    requires !c.invalid && !c.field.NoField? && |c.text| <= TEXT
    ensures var d := OnText(c, data);
      if !c.field.TitleField? && |c.text| + |data| > TEXT then d.invalid
      else d == c.(text := Clip(c.text + data)) && |d.text| <= TEXT
           && Clip(d.text + TextOf(rest)) == Clip(c.text + (data + TextOf(rest)))
           && (!c.field.TitleField? ==> |d.text| == |c.text| + |data|)
  {
    ClipMore(c.text, data, TextOf(rest));
  }

  /* ---------- An application ---------- */

  // The context while an application's children are read.
  predicate InApp(c: Context, p: Parts) {
    && !c.invalid && c.status == SERVER_OK && c.field.NoField? && c.wanted.None? && c.depth == 2 && c.appOpen
    && c.haveId == p.id.Some? && c.haveTitle == p.title.Some?
    && (p.id.Some? ==> c.app.id == p.id.value) && (p.title.Some? ==> c.app.name == p.title.value)
  }

  // `d` is `c` but for the application being read and the text buffer.
  predicate SameList(c: Context, d: Context) {
    d == c.(haveId := d.haveId, haveTitle := d.haveTitle, app := d.app, appOpen := d.appOpen,
            text := d.text, fieldDepth := d.fieldDepth, stored := d.stored, total := d.total)
  }

  // `d` moreover has the same list.
  predicate SameOutside(c: Context, d: Context) {
    SameList(c, d) && d.appOpen == c.appOpen && d.stored == c.stored && d.total == c.total
  }

  function Child(c: Context, n: Node): Context
    requires n.Element?
  {
    OnEnd(Feed(OnStart(c, n.name, n.attributes), n.children), n.name)
  }

  lemma ReadId(c: Context, p: Parts, n: Node)
    requires InApp(c, p) && n.Element? && n.name == "ID"
    ensures var t, d := TextOf(n.children), Child(c, n);
      if p.id.None? && IsLeaf(n.children) && |t| <= TEXT && Number(t).Some?
      then InApp(d, p.(id := Number(t))) && SameOutside(c, d) else d.invalid
  {
    var started := OnStart(c, n.name, n.attributes);
    if p.id.Some? {
      RejectedStays(started, n.children);
    } else {
      FieldText(started, n.children);
      assert [] + TextOf(n.children) == TextOf(n.children);
    }
  }

  lemma ReadTitle(c: Context, p: Parts, n: Node)
    requires InApp(c, p) && n.Element? && n.name == "AppTitle"
    ensures var t, d := TextOf(n.children), Child(c, n);
      if p.title.None? && IsLeaf(n.children)
      then InApp(d, p.(title := Some(Shorten(t)))) && SameOutside(c, d) else d.invalid
  {
    var started := OnStart(c, n.name, n.attributes);
    if p.title.Some? {
      RejectedStays(started, n.children);
    } else {
      FieldText(started, n.children);
      assert [] + TextOf(n.children) == TextOf(n.children);
    }
  }

  lemma ReadOther(c: Context, n: Node)
    requires !c.invalid && c.status == SERVER_OK && c.field.NoField? && c.wanted.None?
    requires (c.depth == 2 && c.appOpen && n.Element? && n.name != "ID" && n.name != "AppTitle") ||
             (c.depth == 1 && !c.appOpen && n.Element? && n.name != "App")
    ensures if n.name != "App" && NoApps(n.children) then Child(c, n) == c else Child(c, n).invalid
  {
    var started := OnStart(c, n.name, n.attributes);
    if n.name == "App" {
      RejectedStays(started, n.children);
    } else {
      Ignored(started, n.children);
    }
  }

  lemma {:induction false} AppContent(c: Context, p: Parts, ns: seq<Node>)
    requires InApp(c, p)
    ensures match ReadApp(p, ns)
      case None => Feed(c, ns).invalid
      case Some(q) => InApp(Feed(c, ns), q) && SameOutside(c, Feed(c, ns))
    decreases ns
  {
    if ns != [] {
      if ns[0].Chunk? {
        AppContent(c, p, ns[1..]);
      } else {
        var d := Child(c, ns[0]);
        var q := p;
        if ns[0].name == "ID" {
          ReadId(c, p, ns[0]);
          q := p.(id := Number(TextOf(ns[0].children)));
        } else if ns[0].name == "AppTitle" {
          ReadTitle(c, p, ns[0]);
          q := p.(title := Some(Shorten(TextOf(ns[0].children))));
        } else {
          ReadOther(c, ns[0]);
        }
        if d.invalid {
          RejectedStays(d, ns[1..]);
        } else {
          AppContent(d, q, ns[1..]);
        }
      }
    }
  }

  // An App element adds its application to the list.
  lemma ReadAppElement(c: Context, n: Node)
    requires !c.invalid && c.status == SERVER_OK && c.field.NoField? && c.wanted.None? && c.depth == 1 && !c.appOpen
    requires n.Element? && n.name == "App" && c.total <= INT_MAX
    ensures var d := Child(c, n);
      if AppOf(n.children).None? || c.total == INT_MAX then d.invalid
      else && !d.invalid && SameList(c, d) && !d.appOpen && d.total == c.total + 1
           && d.stored == if |c.stored| < c.capacity then c.stored + [AppOf(n.children).value] else c.stored
  {
    var started := OnStart(c, n.name, n.attributes);
    assert InApp(started, NOTHING_READ);
    AppContent(started, NOTHING_READ, n.children);
  }

  /* ---------- The list ---------- */

  lemma TakeMore(stored: seq<App>, app: App, apps: seq<App>, n: nat)
    requires |stored| <= n
    ensures Take((if |stored| < n then stored + [app] else stored) + apps, n) == Take(stored + ([app] + apps), n)
  {
    assert stored + [app] + apps == stored + ([app] + apps);
  }

  lemma {:induction false} ListContent(c: Context, ns: seq<Node>)
    requires !c.invalid && c.status == SERVER_OK && c.field.NoField? && c.wanted.None? && c.depth == 1 && !c.appOpen
    requires c.total <= INT_MAX && |c.stored| <= c.capacity
    ensures var d := Feed(c, ns);
      if ReadApps(ns).None? || c.total + |ReadApps(ns).value| > INT_MAX then d.invalid
      else && !d.invalid && SameList(c, d) && d.total == c.total + |ReadApps(ns).value|
           && d.stored == Take(c.stored + ReadApps(ns).value, c.capacity)
    decreases ns
  {
    if ns == [] {
      assert c.stored + [] == c.stored;
    } else if ns[0].Chunk? {
      ListContent(c, ns[1..]);
    } else {
      var d := Child(c, ns[0]);
      if ns[0].name == "App" {
        ReadAppElement(c, ns[0]);
      } else {
        ReadOther(c, ns[0]);
      }
      if d.invalid {
        RejectedStays(d, ns[1..]);
      } else {
        ListContent(d, ns[1..]);
        if ns[0].name == "App" && ReadApps(ns[1..]).Some? {
          TakeMore(c.stored, AppOf(ns[0].children).value, ReadApps(ns[1..]).value, c.capacity);
        }
      }
    }
  }

  lemma {:induction false} RefusedLine(l: Line, attributes: seq<Attribute>)
    requires l.refused
    ensures ReadLine(l, attributes).refused
    decreases attributes
  {
    if attributes != [] {
      RefusedLine(ReadAttribute(l, attributes[0]), attributes[1..]);
    }
  }

  lemma {:induction false} RootStatus(l: Line, attributes: seq<Attribute>)
    requires !l.refused
    ensures var m := ReadLine(l, attributes);
      if Status(attributes, l.status).None? then m.refused
      else m == Line(Status(attributes, l.status).value, Message(attributes, l.message), false)
    decreases attributes
  {
    if attributes != [] {
      var next := ReadAttribute(l, attributes[0]);
      if next.refused {
        RefusedLine(next, attributes[1..]);
      } else {
        RootStatus(next, attributes[1..]);
      }
    }
  }

  lemma FeedOne(c: Context, n: Node)
    requires n.Element?
    ensures Feed(c, [n]) == Child(c, n)
  {
    assert [n][1..] == [];
    assert Feed(Child(c, n), []) == Child(c, n);
  }

  // What a response's root says before its content is looked at: None if it is refused.
  function RootCode(root: Node): Option<int>
    requires root.Element?
  {
    var status := Status(root.attributes, 0);
    if root.name != "root" || status == Some(0) then None else status
  }

  // The context inside the root
  lemma RootStarted(c: Context, root: Node)
    requires root.Element? && c == Begin(c.capacity, c.wanted)
    ensures var d := OnStart(c, root.name, root.attributes);
      if RootCode(root).None? then d.invalid
      else
        && !d.invalid
        && d == c.(depth := 1, rootSeen := true, status := RootCode(root).value,
                   message := Message(root.attributes, []))
  {
    RootStatus(LineOf(c), root.attributes);
  }

  // The parsed document
  function Parse(root: Node, capacity: nat): Context {
    Feed(Begin(capacity, None), [root])
  }

  // What the schema makes of a list.
  function Meaning(root: Node): Result
    requires root.Element?
  {
    if RootCode(root).None? then Invalid
    else if RootCode(root).value != SERVER_OK then ServerError
    else if ReadApps(root.children).None? || |ReadApps(root.children).value| > INT_MAX then Invalid
    else Ok
  }

  // The handlers accept exactly the documents of the schema; they store the first
  // applications, as many as there is room for, and count all of them.
  lemma ParseMeansSchema(root: Node, capacity: nat)
    requires root.Element?
    ensures Outcome(Parse(root, capacity), true) == Meaning(root)
    ensures Meaning(root) == Ok ==>
      && Parse(root, capacity).stored == Take(ReadApps(root.children).value, capacity)
      && Parse(root, capacity).total == |ReadApps(root.children).value|
    ensures Meaning(root) != Invalid ==>
      && Parse(root, capacity).status == RootCode(root).value
      && Parse(root, capacity).message == Message(root.attributes, [])
  {
    var c := Begin(capacity, None);
    var started := OnStart(c, root.name, root.attributes);
    FeedOne(c, root);
    RootStarted(c, root);
    if started.invalid {
      RejectedStays(started, root.children);
    } else if started.status != SERVER_OK {
      NoSuccess(started, root.children);
    } else {
      ListContent(started, root.children);
      if ReadApps(root.children).Some? {
        assert [] + ReadApps(root.children).value == ReadApps(root.children).value;
      }
    }
  }

  /* ---------- Launch and cancel responses ---------- */

  // What was read of a launch or cancel response so far.
  datatype Launch = Launch(session: bool, url: Option<Text>)

  // The result field is 1 and the URL is one, each at most once and of text only.
  function ReadLaunch(p: Launch, wanted: string, ns: seq<Node>): Option<Launch>
    decreases ns
  {
    if ns == [] then Some(p)
    else
      match ns[0]
      case Chunk(_) => ReadLaunch(p, wanted, ns[1..])
      case Element(name, _, children) =>
        var t := TextOf(children);
        var leaf := IsLeaf(children) && |t| <= TEXT;
        if name == wanted then
          if !p.session && leaf && Number(t) == Some(1)
          then ReadLaunch(p.(session := true), wanted, ns[1..]) else None
        else if name == "sessionUrl0" then
          if p.url.None? && leaf && IsUrl(t) then ReadLaunch(p.(url := Some(t)), wanted, ns[1..]) else None
        else ReadLaunch(p, wanted, ns[1..])
  }

  const NO_LAUNCH := Launch(false, None)

  // What the schema makes of a launch or cancel response.
  function LaunchMeaning(root: Node, wanted: string): Result
    requires root.Element?
  {
    if RootCode(root).None? then Invalid
    else if RootCode(root).value != SERVER_OK then ServerError
    else
      match ReadLaunch(NO_LAUNCH, wanted, root.children)
      case Some(Launch(true, _)) => Ok
      case _ => Invalid
  }

  predicate InLaunch(c: Context, p: Launch) {
    && !c.invalid && c.status == SERVER_OK && c.field.NoField? && c.wanted.Some? && c.depth == 1
    && c.haveSession == p.session && c.url == p.url
  }

  // `d` is `c` but for what is read of the response.
  predicate SameLaunch(c: Context, d: Context) {
    d == c.(text := d.text, fieldDepth := d.fieldDepth, haveSession := d.haveSession, url := d.url)
  }

  lemma {:induction false} LaunchIgnored(c: Context, ns: seq<Node>)
    requires !c.invalid && c.status == SERVER_OK && c.field.NoField? && c.wanted.Some? && c.depth >= 2
    ensures Feed(c, ns) == c
    decreases ns
  {
    if ns != [] {
      if ns[0].Element? {
        LaunchIgnored(OnStart(c, ns[0].name, ns[0].attributes), ns[0].children);
      }
      LaunchIgnored(c, ns[1..]);
    }
  }

  lemma SessionEnds(c: Context, name: string)
    requires !c.invalid && c.wanted.Some? && c.field.SessionField? && c.fieldDepth == c.depth
    ensures var d := OnEnd(c, name);
      if Number(c.text) == Some(1) then d == c.(haveSession := true, field := NoField, depth := c.depth - 1)
      else d.invalid
  {
  }

  lemma LaunchResult(c: Context, p: Launch, n: Node)
    requires InLaunch(c, p) && n.Element? && n.name == c.wanted.value
    ensures var d, t := Child(c, n), TextOf(n.children);
      if !p.session && IsLeaf(n.children) && |t| <= TEXT && Number(t) == Some(1)
      then InLaunch(d, p.(session := true)) && SameLaunch(c, d) else d.invalid
  {
    var started := OnStart(c, n.name, n.attributes);
    if started.invalid {
      RejectedStays(started, n.children);
    } else {
      FieldText(started, n.children);
      assert [] + TextOf(n.children) == TextOf(n.children);
      var inner := Feed(started, n.children);
      if !inner.invalid {
        SessionEnds(inner, n.name);
      }
    }
  }

  lemma UrlEnds(c: Context, name: string)
    requires !c.invalid && c.wanted.Some? && c.field.UrlField? && c.fieldDepth == c.depth
    ensures var d := OnEnd(c, name);
      if IsUrl(c.text) then d == c.(url := Some(c.text), field := NoField, depth := c.depth - 1) else d.invalid
  {
  }

  lemma LaunchUrl(c: Context, p: Launch, n: Node)
    requires InLaunch(c, p) && n.Element? && n.name != c.wanted.value && n.name == "sessionUrl0"
    ensures var d, t := Child(c, n), TextOf(n.children);
      if p.url.None? && IsLeaf(n.children) && |t| <= TEXT && IsUrl(t)
      then InLaunch(d, p.(url := Some(t))) && SameLaunch(c, d) else d.invalid
  {
    var started := OnStart(c, n.name, n.attributes);
    if started.invalid {
      RejectedStays(started, n.children);
    } else {
      FieldText(started, n.children);
      assert [] + TextOf(n.children) == TextOf(n.children);
      var inner := Feed(started, n.children);
      if !inner.invalid {
        UrlEnds(inner, n.name);
      }
    }
  }

  lemma LaunchOther(c: Context, p: Launch, n: Node)
    requires InLaunch(c, p) && n.Element? && n.name != c.wanted.value && n.name != "sessionUrl0"
    ensures Child(c, n) == c
  {
    LaunchIgnored(OnStart(c, n.name, n.attributes), n.children);
  }

  lemma {:induction false} LaunchContent(c: Context, p: Launch, ns: seq<Node>)
    requires InLaunch(c, p)
    ensures match ReadLaunch(p, c.wanted.value, ns)
      case None => Feed(c, ns).invalid
      case Some(q) => InLaunch(Feed(c, ns), q) && SameLaunch(c, Feed(c, ns))
    decreases ns
  {
    if ns != [] {
      if ns[0].Chunk? {
        LaunchContent(c, p, ns[1..]);
      } else {
        var d := Child(c, ns[0]);
        if ns[0].name == c.wanted.value {
          LaunchResult(c, p, ns[0]);
        } else if ns[0].name == "sessionUrl0" {
          LaunchUrl(c, p, ns[0]);
        } else {
          LaunchOther(c, p, ns[0]);
        }
        if d.invalid {
          RejectedStays(d, ns[1..]);
        } else {
          LaunchContent(d, Launch(d.haveSession, d.url), ns[1..]);
        }
      }
    }
  }

  function ParseResponse(root: Node, wanted: string): Context {
    Feed(Begin(0, Some(wanted)), [root])
  }

  // A launch or cancel response is accepted exactly when its status is 200, its result
  // field is there with the value 1, and a session URL, if there is one, is valid.
  lemma ParseMeansLaunch(root: Node, wanted: string)
    requires root.Element?
    ensures Outcome(ParseResponse(root, wanted), true) == LaunchMeaning(root, wanted)
    ensures LaunchMeaning(root, wanted) == Ok ==>
      ParseResponse(root, wanted).url == ReadLaunch(NO_LAUNCH, wanted, root.children).value.url
    ensures LaunchMeaning(root, wanted) != Invalid ==>
      && ParseResponse(root, wanted).status == RootCode(root).value
      && ParseResponse(root, wanted).message == Message(root.attributes, [])
  {
    var c := Begin(0, Some(wanted));
    var started := OnStart(c, root.name, root.attributes);
    FeedOne(c, root);
    RootStarted(c, root);
    if started.invalid {
      RejectedStays(started, root.children);
    } else if started.status != SERVER_OK {
      NoSuccess(started, root.children);
    } else {
      LaunchContent(started, NO_LAUNCH, root.children);
    }
  }

  /* ---------- Chunks ---------- */

  // The same tree with each text in one chunk.
  function Fuse(ns: seq<Node>): seq<Node> {
    if ns == [] then []
    else
      var rest := Fuse(ns[1..]);
      match ns[0]
      case Element(name, attributes, children) => [Element(name, attributes, Fuse(children))] + rest
      case Chunk(data) =>
        if rest != [] && rest[0].Chunk? then [Chunk(data + rest[0].data)] + rest[1..] else [Chunk(data)] + rest
  }

  lemma {:induction false} FuseText(ns: seq<Node>)
    ensures TextOf(Fuse(ns)) == TextOf(ns)
    decreases ns
  {
    if ns != [] {
      var rest := Fuse(ns[1..]);
      FuseText(ns[1..]);
      if ns[0].Chunk? && rest != [] && rest[0].Chunk? {
        assert ns[0].data + rest[0].data + TextOf(rest[1..]) == ns[0].data + TextOf(rest);
      }
    }
  }

  lemma LeafFirst(n: Node, rest: seq<Node>)
    ensures IsLeaf([n] + rest) <==> n.Chunk? && IsLeaf(rest)
  {
    var all := [n] + rest;
    assert all[0] == n && forall i :: 0 <= i < |rest| ==> rest[i] == all[i + 1];
    assert IsLeaf(all) ==> forall i :: 0 <= i < |rest| ==> rest[i].Chunk?;
  }

  lemma {:induction false} FuseLeaf(ns: seq<Node>)
    ensures IsLeaf(Fuse(ns)) <==> IsLeaf(ns)
    decreases ns
  {
    if ns != [] {
      var rest := Fuse(ns[1..]);
      FuseLeaf(ns[1..]);
      LeafFirst(ns[0], ns[1..]);
      assert ns == [ns[0]] + ns[1..];
      if ns[0].Chunk? && rest != [] && rest[0].Chunk? {
        LeafFirst(rest[0], rest[1..]);
        assert rest == [rest[0]] + rest[1..];
        LeafFirst(Fuse(ns)[0], rest[1..]);
      } else {
        LeafFirst(Fuse(ns)[0], rest);
      }
    }
  }

  lemma {:induction false} FuseNoApps(ns: seq<Node>)
    ensures NoApps(Fuse(ns)) <==> NoApps(ns)
    decreases ns
  {
    if ns != [] {
      var rest, n := Fuse(ns[1..]), ns[0];
      FuseNoApps(ns[1..]);
      assert NoApps(ns) <==> (n.Chunk? || (n.name != "App" && NoApps(n.children))) && NoApps(ns[1..]);
      if n.Element? {
        FuseNoApps(n.children);
        NoAppsFirst(Element(n.name, n.attributes, Fuse(n.children)), rest);
      } else if rest != [] && rest[0].Chunk? {
        NoAppsFirst(Chunk(n.data + rest[0].data), rest[1..]);
        NoAppsFirst(rest[0], rest[1..]);
        assert [rest[0]] + rest[1..] == rest;
      } else {
        NoAppsFirst(n, rest);
      }
    }
  }

  lemma NoAppsFirst(n: Node, rest: seq<Node>)
    ensures NoApps([n] + rest) <==> (n.Chunk? || (n.name != "App" && NoApps(n.children))) && NoApps(rest)
  {
    var ns := [n] + rest;
    assert forall m :: m in ns <==> m == n || m in rest;
  }

  lemma {:induction false} FuseApp(p: Parts, ns: seq<Node>)
    ensures ReadApp(p, Fuse(ns)) == ReadApp(p, ns)
    decreases ns
  {
    if ns != [] {
      var n := ns[0];
      if n.Chunk? {
        FuseApp(p, ns[1..]);
      } else {
        FuseText(n.children);
        FuseLeaf(n.children);
        FuseNoApps(n.children);
        assert Fuse(ns)[1..] == Fuse(ns[1..]);
        var t := TextOf(n.children);
        FuseApp(if n.name == "ID" then p.(id := Number(t))
                else if n.name == "AppTitle" then p.(title := Some(Shorten(t))) else p, ns[1..]);
      }
    }
  }

  lemma {:induction false} FuseApps(ns: seq<Node>)
    ensures ReadApps(Fuse(ns)) == ReadApps(ns)
    decreases ns
  {
    if ns != [] {
      var n, rest := ns[0], Fuse(ns[1..]);
      FuseApps(ns[1..]);
      if n.Chunk? {
        assert rest != [] && rest[0].Chunk? ==> ReadApps(rest) == ReadApps(rest[1..]);
        assert Fuse(ns)[0].Chunk? && Fuse(ns)[1..] == if rest != [] && rest[0].Chunk? then rest[1..] else rest;
      } else {
        FuseApp(NOTHING_READ, n.children);
        FuseNoApps(n.children);
        assert Fuse(ns)[1..] == Fuse(ns[1..]);
      }
    }
  }

  lemma {:induction false} FuseLaunch(p: Launch, wanted: string, ns: seq<Node>)
    ensures ReadLaunch(p, wanted, Fuse(ns)) == ReadLaunch(p, wanted, ns)
    decreases ns
  {
    if ns != [] {
      var n := ns[0];
      if n.Chunk? {
        FuseLaunch(p, wanted, ns[1..]);
      } else {
        FuseText(n.children);
        FuseLeaf(n.children);
        assert Fuse(ns)[1..] == Fuse(ns[1..]);
        FuseLaunch(if n.name == wanted then p.(session := true)
                   else if n.name == "sessionUrl0" then p.(url := Some(TextOf(n.children))) else p,
                   wanted, ns[1..]);
      }
    }
  }

  // However the text of a document is split into chunks, the outcome is the same.
  lemma ChunksDoNotMatter(root: Node, other: Node, capacity: nat)
    requires root.Element? && other.Element? && Fuse([root]) == Fuse([other])
    ensures var c, d := Parse(root, capacity), Parse(other, capacity);
      && Outcome(c, true) == Outcome(d, true)
      && (Outcome(c, true) == Ok ==> c.stored == d.stored && c.total == d.total)
  {
    assert Fuse([root])[0] == Element(root.name, root.attributes, Fuse(root.children));
    assert Fuse([other])[0] == Element(other.name, other.attributes, Fuse(other.children));
    FuseApps(root.children);
    FuseApps(other.children);
    ParseMeansSchema(root, capacity);
    ParseMeansSchema(other, capacity);
  }

  lemma ChunksDoNotMatterToLaunch(root: Node, other: Node, wanted: string)
    requires root.Element? && other.Element? && Fuse([root]) == Fuse([other])
    ensures var c, d := ParseResponse(root, wanted), ParseResponse(other, wanted);
      Outcome(c, true) == Outcome(d, true) && (Outcome(c, true) == Ok ==> c.url == d.url)
  {
    assert Fuse([root])[0] == Element(root.name, root.attributes, Fuse(root.children));
    assert Fuse([other])[0] == Element(other.name, other.attributes, Fuse(other.children));
    FuseLaunch(NO_LAUNCH, wanted, root.children);
    FuseLaunch(NO_LAUNCH, wanted, other.children);
    ParseMeansLaunch(root, wanted);
    ParseMeansLaunch(other, wanted);
  }

  /* ---------- What the schema says of one application ---------- */

  function Named(ns: seq<Node>, name: string): seq<Node> {
    if ns == [] then []
    else if ns[0].Element? && ns[0].name == name then [ns[0]] + Named(ns[1..], name)
    else Named(ns[1..], name)
  }

  predicate IsId(n: Node) {
    n.Element? && IsLeaf(n.children) && |TextOf(n.children)| <= TEXT && Number(TextOf(n.children)).Some?
  }

  predicate IsTitle(n: Node) {
    n.Element? && IsLeaf(n.children)
  }

  predicate IsNeither(ns: seq<Node>) {
    forall n :: n in ns && n.Element? && n.name != "ID" && n.name != "AppTitle" ==>
      n.name != "App" && NoApps(n.children)
  }

  // What may still follow when some parts were read.
  predicate Follows(p: Parts, ns: seq<Node>) {
    var ids, titles := Named(ns, "ID"), Named(ns, "AppTitle");
    && |ids| <= (if p.id.None? then 1 else 0) && |titles| <= (if p.title.None? then 1 else 0)
    && (forall n :: n in ids ==> IsId(n)) && (forall n :: n in titles ==> IsTitle(n)) && IsNeither(ns)
  }

  function Found(p: Parts, ns: seq<Node>): Parts {
    var ids, titles := Named(ns, "ID"), Named(ns, "AppTitle");
    Parts(if ids != [] && ids[0].Element? then Number(TextOf(ids[0].children)) else p.id,
          if titles != [] && titles[0].Element? then Some(Shorten(TextOf(titles[0].children))) else p.title)
  }

  lemma {:induction false} ReadAppMeans(p: Parts, ns: seq<Node>)
    ensures ReadApp(p, ns) == if Follows(p, ns) then Some(Found(p, ns)) else None
    decreases ns
  {
    if ns != [] {
      var n := ns[0];
      assert forall m :: m in ns <==> m == n || m in ns[1..];
      if n.Chunk? {
        ReadAppMeans(p, ns[1..]);
      } else if n.name == "ID" {
        assert Named(ns, "ID") == [n] + Named(ns[1..], "ID") && n in Named(ns, "ID");
        assert Named(ns, "AppTitle") == Named(ns[1..], "AppTitle");
        assert IsNeither(ns) <==> IsNeither(ns[1..]);
        ReadAppMeans(p.(id := Number(TextOf(n.children))), ns[1..]);
      } else if n.name == "AppTitle" {
        assert Named(ns, "AppTitle") == [n] + Named(ns[1..], "AppTitle") && n in Named(ns, "AppTitle");
        assert Named(ns, "ID") == Named(ns[1..], "ID");
        assert IsNeither(ns) <==> IsNeither(ns[1..]);
        ReadAppMeans(p.(title := Some(Shorten(TextOf(n.children)))), ns[1..]);
      } else {
        ReadAppMeans(p, ns[1..]);
      }
    }
  }

  // An App is one with exactly one ID and one AppTitle, both of text only, whose ID is a
  // number and whose other children hold no App.
  lemma AppMeans(children: seq<Node>)
    ensures var ids, titles := Named(children, "ID"), Named(children, "AppTitle");
      && (AppOf(children).Some? <==>
            |ids| == 1 && |titles| == 1 && IsId(ids[0]) && IsTitle(titles[0]) && IsNeither(children))
      && (AppOf(children).Some? ==>
            AppOf(children).value == App(Number(TextOf(ids[0].children)).value, Shorten(TextOf(titles[0].children))))
  {
    ReadAppMeans(NOTHING_READ, children);
    NamedAreElements(children, "ID");
    NamedAreElements(children, "AppTitle");
  }

  lemma {:induction false} NamedAreElements(ns: seq<Node>, name: string)
    ensures forall n :: n in Named(ns, name) ==> n.Element?
  {
    if ns != [] {
      NamedAreElements(ns[1..], name);
    }
  }

  // A list is one whose App elements all are applications and whose other elements hold
  // none; its applications are those, in document order.
  lemma {:induction false} AppsMean(ns: seq<Node>)
    ensures ReadApps(ns).Some? <==>
      && (forall n :: n in Named(ns, "App") ==> n.Element? && AppOf(n.children).Some?)
      && (forall n :: n in ns && n.Element? && n.name != "App" ==> NoApps(n.children))
    ensures ReadApps(ns).Some? ==>
      var apps, elements := ReadApps(ns).value, Named(ns, "App");
      && |apps| == |elements|
      && (forall i :: 0 <= i < |apps| ==> elements[i].Element? && AppOf(elements[i].children) == Some(apps[i]))
    decreases ns
  {
    if ns != [] {
      AppsMean(ns[1..]);
      assert forall m :: m in ns <==> m == ns[0] || m in ns[1..];
      if ns[0].Element? && ns[0].name == "App" {
        assert Named(ns, "App") == [ns[0]] + Named(ns[1..], "App") && ns[0] in Named(ns, "App");
      }
    }
  }

  /* ---------- What the schema says of a launch or cancel response ---------- */

  predicate IsResult(n: Node) {
    n.Element? && IsLeaf(n.children) && |TextOf(n.children)| <= TEXT && Number(TextOf(n.children)) == Some(1)
  }

  predicate IsSession(n: Node) {
    n.Element? && IsLeaf(n.children) && |TextOf(n.children)| <= TEXT && IsUrl(TextOf(n.children))
  }

  // The session URLs, unless that is the name of the result field
  function Urls(ns: seq<Node>, wanted: string): seq<Node> {
    if wanted == "sessionUrl0" then [] else Named(ns, "sessionUrl0")
  }

  // What may still follow when some of the response was read.
  predicate FollowsLaunch(p: Launch, wanted: string, ns: seq<Node>) {
    var results, urls := Named(ns, wanted), Urls(ns, wanted);
    && |results| <= (if p.session then 0 else 1) && |urls| <= (if p.url.None? then 1 else 0)
    && (forall n :: n in results ==> IsResult(n)) && (forall n :: n in urls ==> IsSession(n))
  }

  function FoundLaunch(p: Launch, wanted: string, ns: seq<Node>): Launch {
    var results, urls := Named(ns, wanted), Urls(ns, wanted);
    Launch(p.session || results != [],
           if urls != [] && urls[0].Element? then Some(TextOf(urls[0].children)) else p.url)
  }

  lemma {:induction false} ReadLaunchMeans(p: Launch, wanted: string, ns: seq<Node>)
    ensures ReadLaunch(p, wanted, ns)
            == if FollowsLaunch(p, wanted, ns) then Some(FoundLaunch(p, wanted, ns)) else None
    decreases ns
  {
    if ns != [] {
      var n := ns[0];
      if n.Element? && n.name == wanted {
        assert Named(ns, wanted) == [n] + Named(ns[1..], wanted) && n in Named(ns, wanted);
        assert Urls(ns, wanted) == Urls(ns[1..], wanted);
        ReadLaunchMeans(p.(session := true), wanted, ns[1..]);
      } else if n.Element? && n.name == "sessionUrl0" {
        assert Urls(ns, wanted) == [n] + Urls(ns[1..], wanted) && n in Urls(ns, wanted);
        assert Named(ns, wanted) == Named(ns[1..], wanted);
        ReadLaunchMeans(p.(url := Some(TextOf(n.children))), wanted, ns[1..]);
      } else {
        assert Named(ns, wanted) == Named(ns[1..], wanted) && Urls(ns, wanted) == Urls(ns[1..], wanted);
        ReadLaunchMeans(p, wanted, ns[1..]);
      }
    }
  }

  // Exactly one result field and at most one session URL
  predicate IsLaunch(wanted: string, ns: seq<Node>) {
    var results, urls := Named(ns, wanted), Urls(ns, wanted);
    && |results| == 1 && IsResult(results[0])
    && (urls == [] || (|urls| == 1 && IsSession(urls[0])))
  }

  lemma LaunchParts(wanted: string, ns: seq<Node>)
    ensures var p, urls := ReadLaunch(NO_LAUNCH, wanted, ns), Urls(ns, wanted);
      && (p.Some? && p.value.session <==> IsLaunch(wanted, ns))
      && (p.Some? && urls != [] ==> urls[0].Element? && p.value.url == Some(TextOf(urls[0].children)))
      && (p.Some? && urls == [] ==> p.value.url == None)
  {
    ReadLaunchMeans(NO_LAUNCH, wanted, ns);
    NamedAreElements(ns, "sessionUrl0");
  }

  // A response is accepted exactly when its status is 200, it has exactly one result
  // field, of text only and with the value 1, and at most one session URL, a valid one.
  lemma LaunchMeans(root: Node, wanted: string)
    requires root.Element?
    ensures Outcome(ParseResponse(root, wanted), true) == Ok <==>
              RootCode(root) == Some(SERVER_OK) && IsLaunch(wanted, root.children)
    ensures var urls := Urls(root.children, wanted);
      (Outcome(ParseResponse(root, wanted), true) == Ok ==>
            if urls == [] then ParseResponse(root, wanted).url == None
            else urls[0].Element? && ParseResponse(root, wanted).url == Some(TextOf(urls[0].children)))
  {
    ParseMeansLaunch(root, wanted);
    LaunchParts(wanted, root.children);
  }

  /* ---------- What the schema says of the root ---------- */

  lemma {:induction false} NoStatus(attributes: seq<Attribute>, before: int)
    requires forall a :: a in attributes ==> a.name != "status_code"
    ensures Status(attributes, before) == Some(before)
    decreases attributes
  {
    if attributes != [] {
      NoStatus(attributes[1..], before);
    }
  }

  lemma {:induction false} OneStatus(attributes: seq<Attribute>, i: nat, before: int)
    requires i < |attributes| && attributes[i].name == "status_code"
    requires forall j :: 0 <= j < |attributes| && j != i ==> attributes[j].name != "status_code"
    ensures Status(attributes, before) == Number(attributes[i].value)
    decreases attributes
  {
    if i > 0 {
      OneStatus(attributes[1..], i - 1, before);
    } else if Number(attributes[0].value).Some? {
      NoStatus(attributes[1..], Number(attributes[0].value).value);
    }
  }

  // An attribute of the root: the only one named status_code, as XML has it.
  predicate IsStatus(root: Node, i: nat)
    requires root.Element?
  {
    && root.name == "root" && i < |root.attributes| && root.attributes[i].name == "status_code"
    && (forall j :: 0 <= j < |root.attributes| && j != i ==> root.attributes[j].name != "status_code")
  }

  lemma {:induction false} NoMessage(attributes: seq<Attribute>, before: Text)
    requires forall a :: a in attributes ==> a.name != "status_message"
    ensures Message(attributes, before) == before
    decreases attributes
  {
    if attributes != [] {
      NoMessage(attributes[1..], before);
    }
  }

  // The message is the value of its attribute, cut to 255 bytes, and empty without one.
  lemma {:induction false} OneMessage(attributes: seq<Attribute>, i: nat, before: Text)
    requires i < |attributes| && attributes[i].name == "status_message"
    requires forall j :: 0 <= j < |attributes| && j != i ==> attributes[j].name != "status_message"
    ensures var m, all := Message(attributes, before), attributes[i].value;
      m <= all && |m| == if |all| <= 255 then |all| else 255
    decreases attributes
  {
    if i > 0 {
      OneMessage(attributes[1..], i - 1, if attributes[0].name == "status_message" then [] else before);
    } else {
      NoMessage(attributes[1..], Clip(attributes[0].value));
    }
  }

  // A list is refused when its status is not a number between 1 and INT_MAX, reported as an
  // error of the server when it is not 200, and otherwise read.
  lemma StatusDecides(root: Node, i: nat, capacity: nat, before: Text, zeros: nat, n: nat, behind: Text)
    requires root.Element? && IsStatus(root, i) && AreSpaces(before) && AreSpaces(behind)
    requires root.attributes[i].value == before + Repeated(48, zeros) + Decimal(n) + behind
    ensures Outcome(Parse(root, capacity), true) ==
      if n == 0 || n > INT_MAX then Invalid
      else if n != 200 then ServerError
      else if ReadApps(root.children).None? || |ReadApps(root.children).value| > INT_MAX then Invalid
      else Ok
  {
    NumberOfDecimal(before, zeros, n, behind);
    OneStatus(root.attributes, i, 0);
    ParseMeansSchema(root, capacity);
  }

  // The same of a launch or cancel response
  lemma StatusDecidesLaunch(root: Node, i: nat, wanted: string, before: Text, zeros: nat, n: nat, behind: Text)
    requires root.Element? && IsStatus(root, i) && AreSpaces(before) && AreSpaces(behind)
    requires root.attributes[i].value == before + Repeated(48, zeros) + Decimal(n) + behind
    ensures Outcome(ParseResponse(root, wanted), true) ==
      if n == 0 || n > INT_MAX then Invalid
      else if n != 200 then ServerError
      else if IsLaunch(wanted, root.children) then Ok
      else Invalid
  {
    NumberOfDecimal(before, zeros, n, behind);
    OneStatus(root.attributes, i, 0);
    ParseMeansLaunch(root, wanted);
    LaunchParts(wanted, root.children);
  }

  // A status that is missing, or not a number, is refused.
  lemma BadStatus(root: Node, capacity: nat, wanted: string)
    requires root.Element?
    requires (forall a :: a in root.attributes ==> a.name != "status_code") ||
             (exists i :: 0 <= i < |root.attributes| && IsStatus(root, i) && Number(root.attributes[i].value).None?)
    ensures Outcome(Parse(root, capacity), true) == Outcome(ParseResponse(root, wanted), true) == Invalid
  {
    ParseMeansSchema(root, capacity);
    ParseMeansLaunch(root, wanted);
    if forall a :: a in root.attributes ==> a.name != "status_code" {
      NoStatus(root.attributes, 0);
    } else {
      var i :| 0 <= i < |root.attributes| && IsStatus(root, i) && Number(root.attributes[i].value).None?;
      OneStatus(root.attributes, i, 0);
    }
  }

  // The characters that the parser knows by their codes
  const SPACES := " \t\r\n"
  const DIGITS := "0123456789"
  const SCHEME := "rtsp://"
  const SECURE_SCHEME := "rtspenc://"

  lemma SpacesAndDigits(c: Byte)
    ensures IsSpace(c) <==> (c as int) as char in SPACES
    ensures IsDigit(c) <==> (c as int) as char in DIGITS
  {
    if IsDigit(c) {
      assert DIGITS[c - 48] == (c as int) as char;
    }
  }

  lemma Schemes()
    ensures RTSP == Ascii(SCHEME)
    ensures RTSPENC == Ascii(SECURE_SCHEME)
  {
    forall i | 0 <= i < |RTSP|
      ensures RTSP[i] == SCHEME[i] as int
    {
    }
    forall i | 0 <= i < |RTSPENC|
      ensures RTSPENC[i] == SECURE_SCHEME[i] as int
    {
    }
  }

  // A session URL is one of the two schemes, something behind it, and no space.
  lemma UrlMeans(t: Text)
    ensures IsUrl(t) <==>
      && ((RTSP <= t && |t| > |RTSP|) || (RTSPENC <= t && |t| > |RTSPENC|))
      && (forall i :: 0 <= i < |t| ==> !IsSpace(t[i]))
  {
    assert StartsWith(t, RTSP) <==> RTSP <= t;
    assert StartsWith(t, RTSPENC) <==> RTSPENC <= t;
  }

  lemma StatusText()
    ensures Decimal(200) == Ascii("200")
  {
    assert Decimal(200) == Decimal(20) + [48] && Decimal(20) == Decimal(2) + [48];
  }

  // The stored title is the longest valid text that fits.
  lemma {:induction false} TitleIsLongest(t: Text)
    requires Utf8.Valid(t)
    ensures Shorten(t) <= t && Utf8.IsLongest(t, |Shorten(t)|)
  {
    Utf8.SameBoundedCopy(t);
    assert |t| <= TEXT ==> Clip(t) == t;
  }
}
