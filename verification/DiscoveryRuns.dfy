// Whole runs of the discovery cache of src/backend/legacy/legacy_host_discovery.c: calls of
// its users, of its worker and of the sniffer, in the order of their critical sections.
module DiscoveryRuns {
  import opened Bytes
  import opened CStrings
  import opened HostDiscovery
  import opened Options

  /* ---------- Addresses ---------- */

  // The data of an A record, which the sniffer prints with "%u.%u.%u.%u".
  datatype Quad = Quad(a: Byte, b: Byte, c: Byte, d: Byte)

  function Digit(n: nat): char
    requires n < 10
  {
    '0' + n as char
  }

  function Decimal(n: Byte): (s: string)
    ensures 1 <= |s| <= 3
  {
    if n < 10 then [Digit(n)]
    else if n < 100 then [Digit(n / 10), Digit(n % 10)]
    else [Digit(n / 100), Digit(n / 10 % 10), Digit(n % 10)]
  }

  // An address fits 16 characters with its terminator.
  function Dotted(q: Quad): (s: string)
    ensures 7 <= |s| <= 15
  {
    Decimal(q.a) + "." + Decimal(q.b) + "." + Decimal(q.c) + "." + Decimal(q.d)
  }

  /* ---------- Calls ---------- */

  datatype Call =
    | Start(now: nat, error: int)
    | Stop
    | Shutdown
    | Serve(generation: nat)
    | Report(name: string, address: Quad, port: int, now: nat)
    | Tick(generation: nat, healthy: bool, now: nat, lastTick: nat, clock: nat)
    | Look(now: nat)

  // What the calls come to: the listed entries, every report that was stored, and the
  // hosts that a reader, who keeps the snapshot of its last reading, has.
  datatype Book = Book(entries: seq<Entry>, stored: seq<Entry>, healthy: nat, enabled: bool, shutdown: bool,
                       created: bool, generation: nat, serving: nat, leaseUntil: nat, copy: seq<Host>)

  const UNUSED := Book([], [], 0, false, false, false, 0, 0, 0, [])

  predicate Leased(b: Book, g: nat, now: nat) {
    b.enabled && !b.shutdown && g == b.generation && now < b.leaseUntil
  }

  // A report is refused only when all entries are taken by other routes.
  predicate HasRoom(es: seq<Entry>, address: string, port: int) {
    |es| < MAX_HOSTS || Position(HostsOf(es), address, port) < |es|
  }

  function Reporting(b: Book, name: string, address: string, port: int): Book {
    if HasRoom(b.entries, address, port) then
      b.(entries := Reported(b.entries, name, address, port, b.healthy),
         stored := b.stored + [Entry(Host(Truncate(name), address, port), b.healthy)])
    else b
  }

  function Booked(b: Book, c: Call): Book {
    match c
    case Start(now, error) =>
      if b.shutdown || (!b.created && error != 0) then b
      else b.(created := true, enabled := true, leaseUntil := now + LEASE,
              generation := if !b.enabled || now >= b.leaseUntil then NextGeneration(b.generation)
                            else b.generation)
    case Stop => b.(enabled := false)
    case Shutdown => b.(enabled := false, shutdown := true)
    case Serve(g) => b.(serving := g)
    case Report(name, address, port, now) =>
      if name != "" && 0 < port <= 65535 && Leased(b, b.serving, now)
      then Reporting(b, name, Dotted(address), port) else b
    case Tick(g, healthy, now, lastTick, clock) =>
      if !healthy || !Leased(b, g, clock) then b
      else
        var time := b.healthy + if now >= lastTick then now - lastTick else 0;
        b.(healthy := time, entries := FreshOnly(b.entries, time))
    case Look(now) => if Leased(b, b.generation, now) then b.(copy := HostsOf(b.entries)) else b
  }

  function BookOf(calls: seq<Call>): Book {
    if calls == [] then UNUSED else Booked(BookOf(calls[..|calls| - 1]), calls[|calls| - 1])
  }

  /* ---------- What is listed ---------- */

  // The last report of a route.
  function Last(reports: seq<Entry>, address: string, port: int): (e: Option<Entry>)
    ensures e.Some? ==> SameRoute(e.value.host, address, port)
  {
    if reports == [] then None
    else
      var e := reports[|reports| - 1];
      if SameRoute(e.host, address, port) then Some(e) else Last(reports[..|reports| - 1], address, port)
  }

  lemma LastAppend(reports: seq<Entry>, e: Entry, address: string, port: int)
    ensures Last(reports + [e], address, port)
            == if SameRoute(e.host, address, port) then Some(e) else Last(reports, address, port)
  {
    assert (reports + [e])[..|reports|] == reports;
  }

  // A route is listed exactly while its last stored report is fresh, with the name and the
  // time of that report.
  ghost predicate Listed(es: seq<Entry>, reports: seq<Entry>, healthy: nat) {
    && (forall e :: e in es ==> Last(reports, e.host.address, e.host.port) == Some(e))
    && (forall address, port {:trigger Last(reports, address, port)} ::
          Last(reports, address, port).Some? && Fresh(Last(reports, address, port).value, healthy) ==>
            Last(reports, address, port).value in es)
  }

  lemma ReportedIs(es: seq<Entry>, name: string, address: string, port: int, healthy: nat, e: Entry)
    requires Unique(HostsOf(es)) && |address| < BUFFER && HasRoom(es, address, port) && |es| <= MAX_HOSTS
    ensures e in Reported(es, name, address, port, healthy) <==>
            e == Entry(Host(Truncate(name), address, port), healthy) || (e in es && !SameRoute(e.host, address, port))
  {
    var i, hs, next := Position(HostsOf(es), address, port), HostsOf(es), Reported(es, name, address, port, healthy);
    assert next[i] == Entry(Host(Truncate(name), address, port), healthy);
    assert forall k :: 0 <= k < |es| ==> hs[k] == es[k].host;
    forall k | 0 <= k < |es| && k != i
      ensures next[k] == es[k] && !SameRoute(es[k].host, address, port)
    {
      assert !SameRoute(hs[k], address, port);
    }
    if e in es && !SameRoute(e.host, address, port) {
      var k :| 0 <= k < |es| && es[k] == e;
      assert next[k] == e;
    }
  }

  lemma ReportListed(es: seq<Entry>, reports: seq<Entry>, name: string, address: string, port: int, healthy: nat)
    requires Unique(HostsOf(es)) && |address| < BUFFER && HasRoom(es, address, port) && |es| <= MAX_HOSTS
    requires Listed(es, reports, healthy)
    ensures Listed(Reported(es, name, address, port, healthy),
                   reports + [Entry(Host(Truncate(name), address, port), healthy)], healthy)
  {
    var e, next := Entry(Host(Truncate(name), address, port), healthy), Reported(es, name, address, port, healthy);
    forall x | x in next
      ensures Last(reports + [e], x.host.address, x.host.port) == Some(x)
    {
      ReportedIs(es, name, address, port, healthy, x);
      LastAppend(reports, e, x.host.address, x.host.port);
    }
    forall a, p | Last(reports + [e], a, p).Some? && Fresh(Last(reports + [e], a, p).value, healthy)
      ensures Last(reports + [e], a, p).value in next
    {
      LastAppend(reports, e, a, p);
      ReportedIs(es, name, address, port, healthy, Last(reports + [e], a, p).value);
    }
  }

  lemma ExpireListed(es: seq<Entry>, reports: seq<Entry>, before: nat, healthy: nat)
    requires Listed(es, reports, before) && before <= healthy
    ensures Listed(FreshOnly(es, healthy), reports, healthy)
  {
    forall x | x in FreshOnly(es, healthy)
      ensures x in es
    {
      FreshOnlyKeeps(es, healthy, x);
    }
    forall a, p | Last(reports, a, p).Some? && Fresh(Last(reports, a, p).value, healthy)
      ensures Last(reports, a, p).value in FreshOnly(es, healthy)
    {
      FreshOnlyKeeps(es, healthy, Last(reports, a, p).value);
    }
  }

  ghost predicate Right(b: Book) {
    && Unique(HostsOf(b.entries)) && InPast(b.entries, b.healthy) && AllFresh(b.entries, b.healthy)
    && |b.entries| <= MAX_HOSTS && Listed(b.entries, b.stored, b.healthy) && Unique(b.copy)
  }

  lemma ReportingKeeps(b: Book, name: string, address: Quad, port: int)
    requires Right(b)
    ensures Right(Reporting(b, name, Dotted(address), port))
  {
    var text := Dotted(address);
    if HasRoom(b.entries, text, port) {
      ReportedUnique(b.entries, name, text, port, b.healthy);
      ReportedInPast(b.entries, name, text, port, b.healthy);
      ReportedFresh(b.entries, name, text, port, b.healthy);
      ReportListed(b.entries, b.stored, name, text, port, b.healthy);
    }
  }

  lemma TickKeeps(b: Book, time: nat)
    requires Right(b) && b.healthy <= time
    ensures Right(b.(healthy := time, entries := FreshOnly(b.entries, time)))
  {
    FreshOnlyUnique(b.entries, time);
    FreshOnlyInPast(b.entries, time);
    FreshOnlyFresh(b.entries, time);
    ExpireListed(b.entries, b.stored, b.healthy, time);
    FreshOnlySize(b.entries, time);
  }

  lemma {:induction false} FreshOnlySize(es: seq<Entry>, healthy: nat)
    ensures |FreshOnly(es, healthy)| <= |es|
  {
    if es != [] {
      FreshOnlySize(es[1..], healthy);
    }
  }

  lemma BookedKeeps(b: Book, c: Call)
    requires Right(b)
    ensures Right(Booked(b, c))
  {
    match c {
      case Report(name, address, port, _) => ReportingKeeps(b, name, address, port);
      case Tick(_, _, now, lastTick, _) =>
        TickKeeps(b, b.healthy + if now >= lastTick then now - lastTick else 0);
      case _ =>
    }
  }

  // In every reachable state, the hosts and those of each reader are unique by route, and
  // the listed routes are exactly those whose last stored report is fresh.
  lemma {:induction false} HostsAreRight(calls: seq<Call>)
    ensures Right(BookOf(calls))
  {
    if calls == [] {
      assert forall a, p :: Last([], a, p) == None;
    } else {
      HostsAreRight(calls[..|calls| - 1]);
      BookedKeeps(BookOf(calls[..|calls| - 1]), calls[|calls| - 1]);
    }
  }

  // A route is listed exactly while its last stored report is less than 15 seconds of
  // healthy time old.
  lemma ListedForFifteenSeconds(calls: seq<Call>, address: string, port: int)
    ensures var b := BookOf(calls);
      (exists e :: e in b.entries && SameRoute(e.host, address, port)) <==>
        Last(b.stored, address, port).Some? && b.healthy - Last(b.stored, address, port).value.seen < 15000000
  {
    HostsAreRight(calls);
    var b := BookOf(calls);
    if e :| e in b.entries && SameRoute(e.host, address, port) {
      assert Last(b.stored, e.host.address, e.host.port) == Some(e) && Fresh(e, b.healthy);
    }
  }

  /* ---------- Leases ---------- */

  // A search is started by the first call that can create the worker, and by any later one
  // until shutdown.
  predicate Grants(before: seq<Call>, c: Call)
    decreases |before|, 1
  {
    c.Start? && Shutdown !in before && (c.error == 0 || HasWorker(before))
  }

  predicate HasWorker(calls: seq<Call>)
    decreases |calls|, 0
  {
    if calls == [] then false
    else HasWorker(calls[..|calls| - 1]) || Grants(calls[..|calls| - 1], calls[|calls| - 1])
  }

  // When the last search was started that was not stopped since.
  function Started(calls: seq<Call>): Option<nat> {
    if calls == [] then None
    else
      var before, c := calls[..|calls| - 1], calls[|calls| - 1];
      if Grants(before, c) then Some(c.now)
      else if c.Stop? || c.Shutdown? then None
      else Started(before)
  }

  predicate IsLeased(calls: seq<Call>, now: nat) {
    Started(calls).Some? && now < Started(calls).value + 250000
  }

  // A search is active for a quarter of a second after it was started, unless it is stopped.
  lemma {:induction false} LeaseMeans(calls: seq<Call>, now: nat)
    ensures var b := BookOf(calls);
      && (Leased(b, b.generation, now) <==> IsLeased(calls, now))
      && (b.enabled <==> Started(calls).Some?) && (b.shutdown <==> Shutdown in calls)
      && (b.created <==> HasWorker(calls))
      && (b.enabled ==> !b.shutdown && b.leaseUntil == Started(calls).value + 250000)
  {
    if calls != [] {
      var before, c := calls[..|calls| - 1], calls[|calls| - 1];
      LeaseMeans(before, now);
      assert calls == before + [c];
    }
  }

  // A search that is still active keeps its generation when it is started again; any other
  // gets the next one.
  lemma GenerationMeans(calls: seq<Call>, c: Call)
    requires Grants(calls, c)
    ensures BookOf(calls + [c]).generation
            == if IsLeased(calls, c.now) then BookOf(calls).generation
               else if BookOf(calls).generation == 0xFFFF_FFFF then 1
               else BookOf(calls).generation + 1
  {
    LeaseMeans(calls, c.now);
    assert (calls + [c])[..|calls|] == calls;
  }

  /* ---------- The cache does what the book says ---------- */

  ghost predicate At(d: Discovery, b: Book)
    reads d, d.hosts, d.seen
  {
    && d.Valid() && d.fits && d.Entries() == b.entries && d.healthyTime == b.healthy
    && d.enabled == b.enabled && d.shutdown == b.shutdown && d.threadCreated == b.created
    && d.generation == b.generation && d.activeGeneration == b.serving && d.leaseUntil == b.leaseUntil
  }

  method DoReport(d: Discovery, name: string, address: Quad, port: int, now: nat, ghost b: Book)
    requires At(d, b)
    modifies d, d.hosts, d.seen
    ensures At(d, Booked(b, Report(name, address, port, now))) && d.copies == old(d.copies)
  {
    d.OnHost(name, Dotted(address), port, now);
  }

  method DoTick(d: Discovery, g: nat, healthy: bool, now: nat, lastTick: nat, clock: nat, ghost b: Book)
    requires At(d, b)
    modifies d, d.hosts, d.seen
    ensures At(d, Booked(b, Tick(g, healthy, now, lastTick, clock))) && d.copies == old(d.copies)
  {
    d.Tick(g, healthy, now, lastTick, clock);
  }

  method DoLook(d: Discovery, now: nat, copy: Snapshot, ghost b: Book) returns (next: Snapshot)
    requires At(d, b) && copy in d.copies && copy.hosts == b.copy
    modifies d
    ensures At(d, Booked(b, Look(now))) && next in d.copies && next.hosts == Booked(b, Look(now)).copy
  {
    var changed;
    d.HostsAre();
    changed, next := d.Read(copy, now);
  }

  method DoControl(d: Discovery, c: Call, ghost b: Book)
    requires At(d, b) && (c.Start? || c.Stop? || c.Shutdown? || c.Serve?)
    modifies d
    ensures At(d, Booked(b, c)) && d.copies == old(d.copies)
  {
    match c {
      case Start(now, error) =>
        var result, started := d.Start(now, error);
      case Stop => d.Stop();
      case Shutdown => d.Shutdown();
      case Serve(g) => d.Serve(g);
    }
  }

  method Do(d: Discovery, c: Call, copy: Snapshot, ghost b: Book) returns (next: Snapshot)
    requires At(d, b) && copy in d.copies && copy.hosts == b.copy
    modifies d, d.hosts, d.seen
    ensures At(d, Booked(b, c)) && next in d.copies && next.hosts == Booked(b, c).copy
  {
    next := copy;
    match c {
      case Report(name, address, port, now) => DoReport(d, name, address, port, now, b);
      case Tick(g, healthy, now, lastTick, clock) => DoTick(d, g, healthy, now, lastTick, clock, b);
      case Look(now) => next := DoLook(d, now, copy, b);
      case _ => DoControl(d, c, b);
    }
  }

  // After any calls, the cache and a reader have what the book says.
  method Run(calls: seq<Call>) returns (d: Discovery, copy: Snapshot)
    ensures At(d, BookOf(calls)) && copy.hosts == BookOf(calls).copy
    ensures Right(BookOf(calls)) && Unique(d.hosts[..d.count]) && Unique(copy.hosts)
  {
    d := new Discovery();
    copy := ZERO;
    var i := 0;
    while i < |calls|
      modifies d, d.hosts, d.seen
      invariant 0 <= i <= |calls| && fresh(d) && fresh(d.hosts) && fresh(d.seen)
      invariant At(d, BookOf(calls[..i])) && copy in d.copies && copy.hosts == BookOf(calls[..i]).copy
    {
      assert calls[..i + 1][..i] == calls[..i];
      copy := Do(d, calls[i], copy, BookOf(calls[..i]));
      i := i + 1;
    }
    assert calls[..i] == calls;
    HostsAreRight(calls);
    d.HostsAre();
  }
}
