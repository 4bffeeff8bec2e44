// The discovery cache of src/backend/legacy/legacy_host_discovery.c: hosts and their ages
// in parallel arrays, and a snapshot that readers compare by generation and revision.
//
// Each method is one critical section of `s_mutex`; readings of the clock are parameters.
// The 32-bit revision is unbounded here, so that it does not wrap around.
module HostDiscovery {
  import opened CStrings

  const MAX_HOSTS := 16
  const EXPIRY := 15000000
  const LEASE := 250000
  const WORD := 0x1_0000_0000

  datatype Host = Host(name: string, address: string, port: int)

  // A host, and the healthy time at which it was last seen.
  datatype Entry = Entry(host: Host, seen: nat)

  datatype Snapshot = Snapshot(generation: nat, revision: nat, hosts: seq<Host>)

  const ZERO := Snapshot(0, 0, [])

  predicate SameRoute(h: Host, address: string, port: int) {
    h.address == address && h.port == port
  }

  // No two hosts have one route.
  predicate Unique(hosts: seq<Host>) {
    forall i, j :: 0 <= i < j < |hosts| ==> !SameRoute(hosts[i], hosts[j].address, hosts[j].port)
  }

  predicate Fresh(e: Entry, healthy: nat) {
    healthy < e.seen + EXPIRY
  }

  // The fresh entries, in order.
  function FreshOnly(es: seq<Entry>, healthy: nat): seq<Entry> {
    if es == [] then []
    else if Fresh(es[0], healthy) then [es[0]] + FreshOnly(es[1..], healthy)
    else FreshOnly(es[1..], healthy)
  }

  function HostsOf(es: seq<Entry>): (hs: seq<Host>)
    ensures |hs| == |es| && forall i :: 0 <= i < |es| ==> hs[i] == es[i].host
  {
    seq(|es|, i requires 0 <= i < |es| => es[i].host)
  }

  // Hosts with the times at which they were last seen
  function Pairs(hs: seq<Host>, times: seq<nat>): (es: seq<Entry>)
    requires |hs| == |times|
    ensures |es| == |hs| && forall i :: 0 <= i < |es| ==> es[i] == Entry(hs[i], times[i])
  {
    seq(|hs|, i requires 0 <= i < |hs| && |hs| == |times| => Entry(hs[i], times[i]))
  }

  // Filtering keeps what is fresh and nothing else, and no two hosts of one route.
  lemma {:induction false} FreshOnlyKeeps(es: seq<Entry>, healthy: nat, e: Entry)
    ensures e in FreshOnly(es, healthy) <==> e in es && Fresh(e, healthy)
    ensures |FreshOnly(es, healthy)| <= |es|
    ensures |FreshOnly(es, healthy)| == |es| ==> FreshOnly(es, healthy) == es
  {
    if es != [] {
      FreshOnlyKeeps(es[1..], healthy, e);
      assert e in es <==> e == es[0] || e in es[1..];
    }
  }

  lemma {:induction false} FreshOnlyUnique(es: seq<Entry>, healthy: nat)
    requires Unique(HostsOf(es))
    ensures Unique(HostsOf(FreshOnly(es, healthy)))
  {
    if es != [] {
      var rest := FreshOnly(es[1..], healthy);
      assert HostsOf(es)[1..] == HostsOf(es[1..]);
      FreshOnlyUnique(es[1..], healthy);
      forall j | 0 <= j < |rest|
        ensures !SameRoute(es[0].host, rest[j].host.address, rest[j].host.port)
      {
        FreshOnlyKeeps(es[1..], healthy, rest[j]);
        var k :| 0 <= k < |es[1..]| && es[1..][k] == rest[j];
        assert HostsOf(es)[k + 1] == rest[j].host;
      }
    }
  }

  // One entry of the backward loop: `now` is what the loop has made of the entries so far.
  lemma FilterOne(es: seq<Entry>, now: seq<Entry>, i: nat, healthy: nat)
    requires i < |es| && now == es[..i + 1] + FreshOnly(es[i + 1..], healthy)
    ensures i < |now| && now[i] == es[i]
    ensures (if Fresh(es[i], healthy) then now else now[..i] + now[i + 1..])
            == es[..i] + FreshOnly(es[i..], healthy)
  {
    assert es[i..][0] == es[i] && es[i..][1..] == es[i + 1..] && es[..i + 1] == es[..i] + [es[i]];
  }

  /* ---------- A report ---------- */

  // The position of a route among the hosts, or their number.
  function Position(hosts: seq<Host>, address: string, port: int): (i: nat)
    ensures i <= |hosts| && (i < |hosts| ==> SameRoute(hosts[i], address, port))
    ensures forall k :: 0 <= k < i ==> !SameRoute(hosts[k], address, port)
  {
    if hosts == [] then 0
    else if SameRoute(hosts[0], address, port) then 0
    else
      assert forall k :: 1 <= k < |hosts| ==> hosts[k] == hosts[1..][k - 1];
      1 + Position(hosts[1..], address, port)
  }

  // Stored addresses fit their buffer.
  predicate Clipped(hosts: seq<Host>) {
    forall i :: 0 <= i < |hosts| ==> |hosts[i].address| < BUFFER
  }

  // The entries after a host was reported: a new one at the end if there is room, and
  // otherwise its name and its age renewed. The whole address is compared with stored
  // ones, but only what fits is stored.
  function Reported(es: seq<Entry>, name: string, address: string, port: int, healthy: nat): seq<Entry> {
    var i := Position(HostsOf(es), address, port);
    if i == |es| then
      if i < MAX_HOSTS then es + [Entry(Host(Truncate(name), Truncate(address), port), healthy)] else es
    else es[i := Entry(es[i].host.(name := Truncate(name)), healthy)]
  }

  // The report makes no second host of one route: a long address is never found again.
  predicate KeepsUnique(hosts: seq<Host>, address: string, port: int) {
    |address| < BUFFER || |hosts| >= MAX_HOSTS || Position(hosts, Truncate(address), port) == |hosts|
  }

  lemma ReportedUnique(es: seq<Entry>, name: string, address: string, port: int, healthy: nat)
    requires Unique(HostsOf(es)) && Clipped(HostsOf(es)) && |es| <= MAX_HOSTS
    ensures Unique(HostsOf(Reported(es, name, address, port, healthy))) <==> KeepsUnique(HostsOf(es), address, port)
  {
    var i, j := Position(HostsOf(es), address, port), Position(HostsOf(es), Truncate(address), port);
    var hs, hs' := HostsOf(es), HostsOf(Reported(es, name, address, port, healthy));
    assert forall k :: 0 <= k < |es| && k != i ==> hs'[k] == hs[k];
    if i < |es| {
      assert SameRoute(hs[i], hs'[i].address, hs'[i].port) && |hs[i].address| < BUFFER;
    } else if i < MAX_HOSTS && j < |es| {
      assert SameRoute(hs'[j], hs'[i].address, hs'[i].port);
    }
  }

  // What would happen to an address that does not fit, which the sniffer never reports:
  // the host is stored again each time.
  lemma LongAddressTwice(name: string, address: string, port: int, healthy: nat)
    requires |address| >= BUFFER
    ensures var once := Reported([], name, address, port, healthy);
      Unique(HostsOf(once)) && !Unique(HostsOf(Reported(once, name, address, port, healthy)))
  {
    var once := Reported([], name, address, port, healthy);
    ReportedUnique([], name, address, port, healthy);
    assert once == [Entry(Host(Truncate(name), Truncate(address), port), healthy)];
    ReportedUnique(once, name, address, port, healthy);
  }

  // Every entry was seen less than EXPIRY of healthy time ago.
  predicate AllFresh(es: seq<Entry>, healthy: nat) {
    forall i :: 0 <= i < |es| ==> Fresh(es[i], healthy)
  }

  // Stored addresses fit, and no time is in the future.
  predicate InPast(es: seq<Entry>, healthy: nat) {
    Clipped(HostsOf(es)) && forall i :: 0 <= i < |es| ==> es[i].seen <= healthy
  }

  lemma {:induction false} FreshOnlyInPast(es: seq<Entry>, healthy: nat)
    requires InPast(es, healthy)
    ensures InPast(FreshOnly(es, healthy), healthy)
  {
    if es != [] {
      assert HostsOf(es)[1..] == HostsOf(es[1..]) && HostsOf(es)[0] == es[0].host;
      FreshOnlyInPast(es[1..], healthy);
    }
  }

  lemma ReportedInPast(es: seq<Entry>, name: string, address: string, port: int, healthy: nat)
    requires InPast(es, healthy)
    ensures InPast(Reported(es, name, address, port, healthy), healthy)
  {
    var i := Position(HostsOf(es), address, port);
    var next := Reported(es, name, address, port, healthy);
    forall k | 0 <= k < |next|
      ensures |HostsOf(next)[k].address| < BUFFER
    {
      assert k < |es| ==> |HostsOf(es)[k].address| < BUFFER;
    }
  }

  lemma ReportedFresh(es: seq<Entry>, name: string, address: string, port: int, healthy: nat)
    requires AllFresh(es, healthy)
    ensures AllFresh(Reported(es, name, address, port, healthy), healthy)
  {
  }

  lemma FreshOnlyFresh(es: seq<Entry>, healthy: nat)
    ensures AllFresh(FreshOnly(es, healthy), healthy)
  {
    forall i | 0 <= i < |FreshOnly(es, healthy)|
      ensures Fresh(FreshOnly(es, healthy)[i], healthy)
    {
      FreshOnlyKeeps(es, healthy, FreshOnly(es, healthy)[i]);
    }
  }

  // Generations are 32-bit words without zero.
  function NextGeneration(g: nat): nat {
    if g + 1 == WORD then 1 else g + 1
  }

  class Discovery {
    const hosts: array<Host>
    const seen: array<nat>
    var count: nat
    var published: nat              // the snapshot's generation
    var revision: nat
    var generation: nat
    var activeGeneration: nat
    var enabled: bool
    var shutdown: bool
    var leaseUntil: nat
    var healthyTime: nat
    var threadCreated: bool

    // The snapshots that readers have copied.
    ghost var copies: set<Snapshot>

    // Every address reported so far has fitted its buffer.
    ghost var fits: bool

    ghost function Entries(): (es: seq<Entry>)
      requires count <= hosts.Length && count <= seen.Length
      reads `count, hosts, seen
      ensures |es| == count
    {
      Pairs(hosts[..count], seen[..count])
    }

    ghost function View(): Snapshot
      requires count <= hosts.Length
      reads `count, `published, `revision, hosts
    {
      Snapshot(published, revision, hosts[..count])
    }

    ghost predicate Shape()
      reads `count
    {
      hosts.Length == seen.Length == MAX_HOSTS && count <= MAX_HOSTS
    }

    // A copy of the current revision is the current snapshot.
    ghost predicate Copies()
      requires Shape()
      reads `count, `published, `revision, `copies, hosts
    {
      forall c :: c in copies ==> c.revision <= revision && (c.revision == revision ==> c == View())
    }

    ghost predicate Sound()
      reads `count, `published, `revision, `generation, `healthyTime, `copies, hosts, seen
    {
      Shape() && Copies() && InPast(Entries(), healthyTime) && published == generation < WORD
    }

    // The hosts are unique and fresh at any time.
    ghost predicate Valid()
      reads `count, `published, `revision, `generation, `healthyTime, `copies, `fits, hosts, seen
    {
      Sound() && AllFresh(Entries(), healthyTime) && (fits ==> Unique(HostsOf(Entries())))
    }

    lemma HostsAre()
      requires Shape()
      ensures HostsOf(Entries()) == hosts[..count]
    {
    }

    // legacy_host_discovery_init; a reader's snapshot starts as zero.
    constructor ()
      ensures Valid() && fits && View() == ZERO && ZERO in copies && fresh(hosts) && fresh(seen)
      ensures healthyTime == 0 && !enabled && !shutdown && !threadCreated && Entries() == []
      ensures generation == activeGeneration == leaseUntil == 0
    {
      hosts := new Host[MAX_HOSTS](_ => Host("", "", 0));
      seen := new nat[MAX_HOSTS](_ => 0);
      count, published, revision, generation, activeGeneration := 0, 0, 0, 0, 0;
      enabled, shutdown, threadCreated, leaseUntil, healthyTime, copies := false, false, false, 0, 0, {ZERO};
      fits := true;
      new;
      assert View() == ZERO;
    }

    // generation_active
    predicate Active(g: nat, now: nat)
      reads this
    {
      enabled && !shutdown && g == generation && now < leaseUntil
    }

    // A new generation with the hosts of the last one
    method Renew()
      requires Valid()
      modifies `generation, `published, `revision
      ensures Valid() && Entries() == old(Entries()) && View().hosts == old(View()).hosts
      ensures generation == NextGeneration(old(generation)) && revision == old(revision) + 1
      ensures generation == if old(generation) == 0xFFFF_FFFF then 1 else old(generation) + 1
    {
      generation := if generation + 1 == WORD then 0 else generation + 1;
      if generation == 0 {
        generation := 1;
      }
      published := generation;
      revision := revision + 1;
    }

    // legacy_host_discovery_start; `error` is what creating the worker would return.
    method Start(now: nat, error: int) returns (result: int, started: nat)
      requires Valid()
      modifies `generation, `published, `revision, `enabled, `leaseUntil, `threadCreated
      ensures Valid() && Entries() == old(Entries()) && View().hosts == old(View()).hosts
      ensures result == if old(shutdown) then -1 else if old(threadCreated) then 0 else -error
      ensures threadCreated == (old(threadCreated) || (!old(shutdown) && error == 0))
      ensures result == 0 ==> started == generation && Active(started, now) && leaseUntil == now + LEASE
      ensures result == 0 && (!old(enabled) || now >= old(leaseUntil)) ==>
        && started == NextGeneration(old(generation)) && started != 0 && started != old(generation)
        && revision == old(revision) + 1
      ensures result == 0 && old(enabled) && now < old(leaseUntil) ==> View() == old(View())
      ensures result != 0 ==>
        View() == old(View()) && generation == old(generation) && enabled == old(enabled)
        && leaseUntil == old(leaseUntil)
    {
      if shutdown {
        return -1, 0;
      }
      if !threadCreated {
        if error != 0 {
          return -error, 0;
        }
        threadCreated := true;
      }
      result := 0;
      started := Lease(now);
    }

    // The lease, once there is a worker
    method Lease(now: nat) returns (started: nat)
      requires Valid() && !shutdown
      modifies `generation, `published, `revision, `enabled, `leaseUntil
      ensures Valid() && Entries() == old(Entries())
      ensures started == generation && Active(started, now) && leaseUntil == now + LEASE
      ensures if !old(enabled) || now >= old(leaseUntil)
              then generation == NextGeneration(old(generation)) && revision == old(revision) + 1
              else generation == old(generation) && published == old(published) && revision == old(revision)
    {
      if !enabled || now >= leaseUntil {
        Renew();
      }
      enabled, leaseUntil := true, now + LEASE;
      started := generation;
    }

    // legacy_host_discovery_stop
    method Stop()
      requires Valid()
      modifies `enabled
      ensures Valid() && !enabled && View() == old(View()) && Entries() == old(Entries())
      ensures forall g, now :: !Active(g, now)
    {
      enabled := false;
    }

    // legacy_host_discovery_shutdown, without joining the worker
    method Shutdown()
      requires Valid()
      modifies `enabled, `shutdown
      ensures Valid() && !enabled && shutdown && View() == old(View()) && Entries() == old(Entries())
      ensures forall g, now :: !Active(g, now)
    {
      enabled := false;
      shutdown := true;
    }

    // legacy_host_discovery_read: after a reading with an active lease the reader has the
    // current snapshot, whether it was copied or not.
    method Read(have: Snapshot, now: nat) returns (changed: int, copy: Snapshot)
      requires Valid() && have in copies
      modifies `copies
      ensures Valid() && copy in copies && View() == old(View()) && Entries() == old(Entries())
      ensures -1 <= changed <= 1 && (changed == -1 <==> !Active(generation, now))
      ensures changed == -1 ==> copy == have
      ensures changed != -1 ==> copy == View() && (changed == 0 <==> have == View())
    {
      changed, copy := -1, have;
      if Active(generation, now) {
        if have.generation != published || have.revision != revision {
          changed, copy := 1, Snapshot(published, revision, hosts[..count]);
          copies := copies + {copy};
        } else {
          changed := 0;
        }
      }
    }

    method Find(address: string, port: int) returns (index: nat)
      requires Shape()
      ensures index == Position(hosts[..count], address, port)
    {
      index := 0;
      while index < count
        invariant index <= count
        invariant Position(hosts[..count], address, port) == index + Position(hosts[index..count], address, port)
      {
        assert hosts[index..count][0] == hosts[index] && hosts[index..count][1..] == hosts[index + 1..count];
        if hosts[index].port == port && hosts[index].address == address {
          return;
        }
        index := index + 1;
      }
    }

    // on_mdns_host
    method OnHost(name: string, address: string, port: int, now: nat)
      requires Valid()
      modifies `count, `revision, `fits, hosts, seen
      ensures Valid() && fits == (old(fits) && |address| < BUFFER)
      ensures var accepted := name != "" && address != "" && 0 < port <= 65535 && old(Active(activeGeneration, now));
        && Entries() == (if accepted then Reported(old(Entries()), name, address, port, healthyTime)
                         else old(Entries()))
        && (old(Unique(hosts[..count])) ==>
              (Unique(hosts[..count]) <==> !accepted || KeepsUnique(old(hosts[..count]), address, port)))
      ensures revision > old(revision) <==> hosts[..count] != old(hosts[..count])
    {
      HostsAre();
      if name == "" || address == "" || port <= 0 || port > 65535 || !Active(activeGeneration, now) {
        Note(address);
        return;
      }
      ghost var es := Entries();
      if Unique(HostsOf(es)) {
        ReportedUnique(es, name, address, port, healthyTime);
      }
      Accept(name, address, port);
      HostsAre();
      Note(address);
    }

    ghost method Note(address: string)
      requires Sound() && AllFresh(Entries(), healthyTime)
      requires fits && |address| < BUFFER ==> Unique(HostsOf(Entries()))
      modifies `fits
      ensures Valid() && fits == (old(fits) && |address| < BUFFER) && Entries() == old(Entries())
    {
      fits := fits && |address| < BUFFER;
    }

    // on_mdns_host, once the report is accepted
    method Accept(name: string, address: string, port: int)
      requires Valid() && name != ""
      modifies `count, `revision, hosts, seen
      ensures Sound() && AllFresh(Entries(), healthyTime)
      ensures Entries() == Reported(old(Entries()), name, address, port, healthyTime)
      ensures revision > old(revision) <==> hosts[..count] != old(hosts[..count])
    {
      HostsAre();
      ReportedFresh(Entries(), name, address, port, healthyTime);
      ReportedInPast(Entries(), name, address, port, healthyTime);
      var index := Find(address, port);
      if index < MAX_HOSTS {
        Put(index, name, address, port);
        HostsAre();
      }
    }

    // The host at `index`, which may be new, gets its name and its age.
    method Put(index: nat, name: string, address: string, port: int)
      requires Shape() && Copies() && index <= count && index < MAX_HOSTS && name != ""
      modifies `count, `revision, hosts, seen
      ensures Shape() && Copies()
      ensures Entries() == if index == old(count)
                           then old(Entries()) + [Entry(Host(Truncate(name), Truncate(address), port), healthyTime)]
                           else old(Entries())[index :=
                             Entry(old(hosts[index]).(name := Truncate(name)), healthyTime)]
      ensures old(revision) <= revision && (revision > old(revision) <==> hosts[..count] != old(hosts[..count]))
    {
      ghost var was, es := View(), Entries();
      if index == count {
        hosts[index] := Host("", Truncate(address), port);
        count := count + 1;
        revision := revision + 1;
      }
      if hosts[index].name != Truncate(name) {
        hosts[index] := hosts[index].(name := Truncate(name));
        revision := revision + 1;
      }
      seen[index] := healthyTime;
      if revision == was.revision {
        assert hosts[..count] == was.hosts;
      } else if count == |was.hosts| {
        assert hosts[..count][index] != was.hosts[index];
      }
    }

    // The worker starts on a generation, or stops with 0.
    method Serve(g: nat)
      requires Valid()
      modifies `activeGeneration
      ensures Valid() && View() == old(View()) && Entries() == old(Entries()) && activeGeneration == g
    {
      activeGeneration := g;
    }

    // expire_hosts: the entries that are too old go, the others keep their order.
    method Expire()
      requires Sound() && (fits ==> Unique(HostsOf(Entries())))
      modifies `count, `revision, hosts, seen
      ensures Valid() && Entries() == FreshOnly(old(Entries()), healthyTime)
      ensures old(Unique(hosts[..count])) ==> Unique(hosts[..count])
      ensures revision == old(revision) + (old(count) - count)
    {
      ghost var es := Entries();
      HostsAre();
      ExpireLoop();
      if Unique(HostsOf(es)) {
        FreshOnlyUnique(es, healthyTime);
      }
      FreshOnlyFresh(es, healthyTime);
      FreshOnlyInPast(es, healthyTime);
      HostsAre();
    }

    method ExpireLoop()
      requires Shape()
      modifies `count, `revision, hosts, seen
      ensures Shape() && Entries() == FreshOnly(old(Entries()), healthyTime)
      ensures count <= old(count) && revision == old(revision) + (old(count) - count)
      ensures count == old(count) ==> hosts[..count] == old(hosts[..count])
    {
      ghost var es, was := Entries(), hosts[..count];
      var i := count;
      assert es[..i] == es && es[i..] == [];
      while i > 0
        modifies `count, `revision, hosts, seen
        invariant 0 <= i <= |es| && i <= count <= |es| && Shape()
        invariant Entries() == es[..i] + FreshOnly(es[i..], healthyTime)
        invariant revision == old(revision) + (|es| - count)
        invariant count == |es| ==> hosts[..count] == was
      {
        i := i - 1;
        FilterOne(es, Entries(), i, healthyTime);
        if healthyTime >= seen[i] + EXPIRY {
          RemoveAt(i);
        }
      }
      assert es[..0] == [] && es[0..] == es;
    }

    // --count and the two calls of memmove
    method RemoveAt(i: nat)
      requires Shape() && i < count
      modifies `count, `revision, hosts, seen
      ensures Shape() && count == old(count) - 1 && revision == old(revision) + 1
      ensures Entries() == old(Entries())[..i] + old(Entries())[i + 1..]
    {
      ghost var hs, times := hosts[..count], seen[..count];
      count := count - 1;
      forall k | i <= k < count {
        hosts[k] := hosts[k + 1];
      }
      forall k | i <= k < count {
        seen[k] := seen[k + 1];
      }
      assert hosts[..count] == hs[..i] + hs[i + 1..];
      assert seen[..count] == times[..i] + times[i + 1..];
      revision := revision + 1;
    }

    // The end of a turn of the worker: time passes only while polling is healthy.
    method Tick(g: nat, healthy: bool, now: nat, lastTick: nat, clock: nat)
      requires Valid()
      modifies `count, `revision, `healthyTime, hosts, seen
      ensures Valid()
      ensures var passed := if now >= lastTick then now - lastTick else 0;
        if healthy && old(Active(g, clock))
        then healthyTime == old(healthyTime) + passed && Entries() == FreshOnly(old(Entries()), healthyTime)
        else healthyTime == old(healthyTime) && Entries() == old(Entries()) && revision == old(revision)
      ensures old(Unique(hosts[..count])) ==> Unique(hosts[..count])
    {
      if healthy && Active(g, clock) {
        healthyTime := healthyTime + if now >= lastTick then now - lastTick else 0;
        assert Entries() == old(Entries());
        Expire();
      }
    }
  }
}
