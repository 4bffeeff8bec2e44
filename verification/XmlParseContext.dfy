// The parse context of src/moonlight/gamestream_xml.c with its handlers, which update it
// in place. The text buffer is a sequence of at most TEXT bytes.
module XmlParseContext {
  import opened Bytes
  import opened Options
  import Utf8
  import opened XmlHandlers
  import opened XmlSchema

  class ParseContext {
    const apps: array<App>
    var count: nat
    var statusCode: int
    var statusMessage: Text
    var totalApplications: nat
    var depth: int
    var invalid: bool
    var rootSeen: bool
    var appOpen: bool
    var haveId: bool
    var haveTitle: bool
    var app: App
    var field: Field
    var fieldDepth: int
    var text: Text
    const wanted: Option<string>
    var haveSession: bool
    var url: Option<Text>

    ghost predicate Valid()
      reads this
    {
      count <= apps.Length && |text| <= TEXT
    }

    ghost function View(): Context
      requires Valid()
      reads this, apps
    {
      Context(statusCode, statusMessage, totalApplications, apps[..count], apps.Length, depth, invalid, rootSeen,
              appOpen, haveId, haveTitle, app, field, fieldDepth, text, wanted, haveSession, url)
    }

    // The context of a response, with an array of its own for the caller's
    constructor (capacity: nat, wanted: Option<string>)
      ensures Valid() && View() == Begin(capacity, wanted) && fresh(apps)
    {
      apps := new App[capacity](_ => NO_APP);
      count, statusCode, statusMessage, totalApplications, depth := 0, 0, [], 0, 0;
      invalid, rootSeen, appOpen, haveId, haveTitle := false, false, false, false, false;
      app, field, fieldDepth, text := NO_APP, NoField, 0, [];
      this.wanted, haveSession, url := wanted, false, None;
      new;
      assert apps[..0] == [];
    }

    // reject
    method RejectDocument()
      requires Valid()
      modifies `invalid
      ensures Valid() && View() == Reject(old(View()))
    {
      invalid := true;
    }

    // begin_field
    method StartField(wanted: Field)
      requires Valid()
      modifies `field, `fieldDepth, `text
      ensures Valid() && View() == BeginField(old(View()), wanted)
    {
      field := wanted;
      fieldDepth := depth;
      text := [];
    }

    // One attribute of the root
    method TakeAttribute(a: Attribute)
      requires Valid()
      modifies `statusCode, `statusMessage, `invalid
      ensures Valid() && LineOf(View()) == ReadAttribute(old(LineOf(View())), a)
    {
      if a.name == "status_code" {
        var number := ParseNumber(a.value);
        if number.None? {
          RejectDocument();
        } else {
          statusCode := number.value;
        }
      } else if a.name == "status_message" {
        statusMessage := if |a.value| <= TEXT then a.value else a.value[..TEXT];
      }
    }

    // The root element, in start_element
    method TakeRoot(name: string, attributes: seq<Attribute>)
      requires Valid()
      modifies `statusCode, `statusMessage, `invalid, `rootSeen
      ensures Valid() && View() == StartRoot(old(View()), name, attributes)
    {
      if rootSeen || name != "root" {
        RejectDocument();
        return;
      }
      rootSeen := true;
      ghost var line := ReadLine(LineOf(View()), attributes);
      var i := 0;
      while i < |attributes|
        invariant 0 <= i <= |attributes| && Valid()
        invariant rootSeen && ReadLine(LineOf(View()), attributes[i..]) == line
      {
        assert attributes[i..][1..] == attributes[i + 1..];
        TakeAttribute(attributes[i]);
        i := i + 1;
      }
      assert attributes[i..] == [];
      if statusCode == 0 {
        RejectDocument();
      }
    }

    // An element of a launch or cancel response, in start_element
    method TakeResult(name: string, expected: string)
      requires Valid()
      modifies `invalid, `field, `fieldDepth, `text
      ensures Valid() && View() == StartResult(old(View()), name, expected)
    {
      if depth == 2 {
        if name == expected {
          if haveSession {
            RejectDocument();
          } else {
            StartField(SessionField);
          }
        } else if name == "sessionUrl0" {
          if url.Some? {
            RejectDocument();
          } else {
            StartField(UrlField);
          }
        }
      }
    }

    // An element below the root, in start_element
    method TakeElement(name: string)
      requires Valid()
      modifies `invalid, `app, `haveId, `haveTitle, `appOpen, `field, `fieldDepth, `text
      ensures Valid() && View() == StartInner(old(View()), name)
    {
      if field != NoField {
        RejectDocument();
        return;
      }
      if wanted.Some? {
        TakeResult(name, wanted.value);
        return;
      }
      if name == "App" {
        if depth != 2 || appOpen {
          RejectDocument();
          return;
        }
        app := NO_APP;
        haveId, haveTitle := false, false;
        appOpen := true;
      } else if appOpen && depth == 3 {
        if name == "ID" {
          if haveId {
            RejectDocument();
          } else {
            StartField(IdField);
          }
        } else if name == "AppTitle" {
          if haveTitle {
            RejectDocument();
          } else {
            StartField(TitleField);
          }
        }
      }
    }

    // start_element
    method StartElement(name: string, attributes: seq<Attribute>)
      requires Valid()
      modifies this
      ensures Valid() && View() == OnStart(old(View()), name, attributes)
    {
      if invalid {
        return;
      }
      depth := depth + 1;
      if depth == 1 {
        TakeRoot(name, attributes);
        return;
      }
      if statusCode != SERVER_OK {
        return;
      }
      TakeElement(name);
    }

    // character_data
    method CharacterData(data: Text)
      requires Valid()
      modifies `text, `invalid
      ensures Valid() && View() == OnText(old(View()), data)
    {
      if invalid || field == NoField {
        return;
      }
      var available := TEXT - |text|;
      var copy := if |data| < available then |data| else available;
      if |data| > available && field != TitleField {
        RejectDocument();
        return;
      }
      ghost var was := text;
      text := text + data[..copy];
      assert text == Clip(was + data);
    }

    // finish_title
    method FinishTitle()
      requires Valid()
      modifies `app, `haveTitle
      ensures Valid() && View() == old(View()).(app := old(app).(name := text[..Utf8.Trimmed(text)]), haveTitle := true)
    {
      var length := Utf8.TitleLength(text);
      app := app.(name := text[..length]);
      haveTitle := true;
    }

    // The result field, in end_element
    method FinishSession()
      requires Valid()
      modifies `haveSession, `invalid
      ensures Valid()
      ensures View() == old(View()).(invalid := old(invalid) || Number(text) != Some(1), haveSession := true)
    {
      var number := ParseNumber(text);
      if number != Some(1) {
        RejectDocument();
      }
      haveSession := true;
    }

    // strpbrk for the four space characters
    method FindSpace() returns (found: bool)
      ensures found <==> HasSpace(text)
    {
      var i := 0;
      while i < |text|
        invariant 0 <= i <= |text| && forall k :: 0 <= k < i ==> !IsSpace(text[k])
      {
        if IsSpace(text[i]) {
          return true;
        }
        i := i + 1;
      }
      found := false;
    }

    // The session URL, in end_element
    method FinishUrl()
      requires Valid()
      modifies `url, `invalid
      ensures Valid()
      ensures View() == old(View()).(invalid := old(invalid) || !IsUrl(text),
                                     url := Some(if IsUrl(text) then text else []))
    {
      var space := FindSpace();
      url := Some([]);
      if HasScheme(text) && !space {
        url := Some(text);
      } else {
        RejectDocument();
      }
    }

    // The ID field, in end_element
    method FinishId()
      requires Valid()
      modifies `app, `haveId, `invalid
      ensures Valid()
      ensures View() == if Number(text).Some?
                        then old(View()).(app := old(app).(id := Number(text).value), haveId := true)
                        else old(View()).(invalid := true, haveId := true)
    {
      var number := ParseNumber(text);
      if number.None? {
        RejectDocument();
      } else {
        app := app.(id := number.value);
      }
      haveId := true;
    }

    method CloseField()
      requires Valid()
      modifies `field
      ensures Valid() && View() == old(View()).(field := NoField)
    {
      field := NoField;
    }

    // A field of an application, in end_element
    method EndAppField()
      requires Valid() && (field == TitleField || field == IdField)
      modifies `app, `haveId, `haveTitle, `invalid, `field
      ensures Valid() && View() == FinishField(old(View()))
    {
      if field == TitleField {
        FinishTitle();
      } else {
        FinishId();
      }
      CloseField();
    }

    // A field of a launch or cancel response, in end_element
    method EndResultField()
      requires Valid() && (field == SessionField || field == UrlField)
      modifies `invalid, `field, `haveSession, `url
      ensures Valid() && View() == FinishField(old(View()))
    {
      if field == SessionField {
        FinishSession();
      } else {
        FinishUrl();
      }
      CloseField();
    }

    // The end of a field, in end_element
    method EndField()
      requires Valid()
      modifies `app, `haveId, `haveTitle, `invalid, `field, `haveSession, `url
      ensures Valid() && View() == FinishField(old(View()))
    {
      if field == TitleField || field == IdField {
        EndAppField();
      } else if field == SessionField || field == UrlField {
        EndResultField();
      }
    }

    method LeaveField()
      requires Valid()
      modifies `app, `haveId, `haveTitle, `invalid, `field, `haveSession, `url
      ensures Valid()
      ensures View() == if old(depth) == old(fieldDepth) then FinishField(old(View())) else old(View())
    {
      if field != NoField && depth == fieldDepth {
        EndField();
      }
    }

    // The end of an application, in end_element
    method EndApp()
      requires Valid()
      modifies `count, `totalApplications, `appOpen, `invalid, apps
      ensures Valid() && View() == FinishApp(old(View()))
    {
      if !haveId || !haveTitle || totalApplications == INT_MAX {
        RejectDocument();
        return;
      }
      if count < apps.Length {
        apps[count] := app;
        count := count + 1;
      }
      totalApplications := totalApplications + 1;
      appOpen := false;
    }

    method Leave()
      requires Valid()
      modifies `depth
      ensures Valid() && View() == old(View()).(depth := old(depth) - 1)
    {
      depth := depth - 1;
    }

    // end_element
    method EndElement(name: string)
      requires Valid()
      modifies this, apps
      ensures Valid() && View() == OnEnd(old(View()), name)
    {
      if invalid {
        return;
      }
      LeaveField();
      if wanted.None? && depth == 2 && name == "App" && statusCode == SERVER_OK && !invalid {
        EndApp();
        if invalid {
          return;
        }
      }
      Leave();
    }

    // The handler calls of XML_Parse
    method HandleEvents(es: seq<Event>)
      requires Valid()
      modifies this, apps
      ensures Valid() && View() == HandleAll(old(View()), es)
    {
      ghost var end := HandleAll(View(), es);
      var i := 0;
      while i < |es|
        invariant 0 <= i <= |es| && Valid()
        invariant HandleAll(View(), es[i..]) == end
      {
        assert es[i..][0] == es[i] && es[i..][1..] == es[i + 1..];
        match es[i] {
          case Start(name, attributes) => StartElement(name, attributes);
          case Chars(data) => CharacterData(data);
          case End(name) => EndElement(name);
        }
        i := i + 1;
      }
      assert es[i..] == [];
    }

    // parse_response, once the document is parsed
    method Finish(parsed: bool) returns (result: Result)
      requires Valid()
      ensures result == Outcome(View(), parsed)
    {
      if !parsed || invalid || !rootSeen || depth != 0 {
        return Invalid;
      }
      if statusCode != SERVER_OK {
        return ServerError;
      }
      result := if wanted.Some? && !haveSession then Invalid else Ok;
    }
  }

  // moonlight_xml_parse_applications, on the document of a tree
  method ParseApplications(root: Node, capacity: nat)
    returns (result: Result, apps: seq<App>, total: nat, status: int, message: Text)
    requires root.Element?
    ensures result == Meaning(root)
    ensures result != Invalid ==> RootCode(root) == Some(status) && message == Message(root.attributes, [])
    ensures result == Ok ==>
      total == |ReadApps(root.children).value| && apps == XmlSchema.Take(ReadApps(root.children).value, capacity)
  {
    var context := new ParseContext(capacity, None);
    context.HandleEvents(EventsOf([root]));
    result := context.Finish(true);
    apps, total := context.apps[..context.count], context.totalApplications;
    status, message := context.statusCode, context.statusMessage;
    FeedHandlesEvents(Begin(capacity, None), [root]);
    ParseMeansSchema(root, capacity);
  }

  // moonlight_xml_parse_launch and moonlight_xml_parse_cancel, on the document of a tree
  method ParseLaunch(root: Node, wanted: string)
    returns (result: Result, url: Option<Text>, status: int, message: Text)
    requires root.Element?
    ensures result == LaunchMeaning(root, wanted)
    ensures result != Invalid ==> RootCode(root) == Some(status) && message == Message(root.attributes, [])
    ensures result == Ok ==> url == ReadLaunch(NO_LAUNCH, wanted, root.children).value.url
  {
    var context := new ParseContext(0, Some(wanted));
    context.HandleEvents(EventsOf([root]));
    result := context.Finish(true);
    url, status, message := context.url, context.statusCode, context.statusMessage;
    FeedHandlesEvents(Begin(0, Some(wanted)), [root]);
    ParseMeansLaunch(root, wanted);
  }
}
