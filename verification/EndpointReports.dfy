/**
 What each handler reports and what it leaves behind, written out; and what a container that borrowed an endpoint
 can rely on until it is deleted.
 */
module EndpointReports {
  import opened Types
  import opened Endpoints
  import opened EndpointHandlers
  import opened EndpointInvariant

  /** The address of the existing endpoint a container is created on, if there is one. */
  function Target(kind: Kind, d: Dir, id: string): Option<string> {
    match kind
    case Plain => None
    case Fixed => if id in d.links && d.links[id] in d.netns then Some(d.links[id]) else None
    case _ => if kind.ip in d.netns then Some(kind.ip) else None
  }

  predicate Specified(kind: Kind) {
    kind.Specific? || kind.FixedSpecific?
  }

  /** The lock file that creating a container makes. */
  function LockMade(kind: Kind, f: Faults): set<string> {
    if Specified(kind) && !f.lock then {kind.ip} else {}
  }

  /**
   Creating a container on an existing endpoint succeeds exactly if nobody is its tenant and nothing fails; then the
   container is, and nothing else changes but the lock file. A failure leaves no more than a tenant file
   that could be made but not written.
   */
  lemma CreateOnEndpoint(kind: Kind, d: Dir, id: string, f: Faults)
    requires Sound(d) && Target(kind, d, id).Some?
    ensures var (d', o) := HandleCreate(kind, d, id, f);
      var ip := Target(kind, d, id).value;
      && o != Crashed
      && (o == Done <==>
            ip !in d.tenant && !f.occupy && !f.unwritten && !f.save && (Specified(kind) ==> !f.lock))
      && (o == Done ==> d' == d.(tenant := d.tenant[ip := id], flocks := d.flocks + LockMade(kind, f)))
      && (o != Done ==> d' == d.(tenant := d'.tenant, flocks := d.flocks + LockMade(kind, f)))
      && (o != Done ==>
            d'.tenant ==
              if ip !in d.tenant && f.unwritten && !f.occupy && (Specified(kind) ==> !f.lock) then d.tenant[ip := ""]
              else d.tenant)
  {
    var ip := Target(kind, d, id).value;
    assert ip !in d.tenant ==> Without(d.tenant[ip := id], ip) == d.tenant;
    assert d.flocks + {} == d.flocks;
  }

  /** Without an endpoint creating a container only hooks its start. */
  lemma CreateHooks(kind: Kind, d: Dir, id: string, f: Faults)
    requires Sound(d) && Target(kind, d, id).None?
    ensures var (d', o) := HandleCreate(kind, d, id, f);
      && d' == d.(flocks := d.flocks + LockMade(kind, f))
      && o == if f.hook || f.save || (Specified(kind) && f.lock) then Failed else Done
  {
    assert d.flocks + {} == d.flocks;
  }

  /**
   A start fails if its container has no endpoint yet and one cannot be made, occupied and connected for it, or if it
   has a fixed specific address whose endpoint it cannot be connected to; a plain one, if its hook fails.
   */
  lemma StartReports(kind: Kind, d: Dir, id: string, f: Faults)
    requires Sound(d)
    ensures var (d', o) := HandleStart(kind, d, id, f);
      && o != Crashed
      && match kind
         case Plain => d' == d && (o == Done <==> !f.hook)
         case Specific(_) => d' == d && o == Done
         case Fixed =>
           if id in d.links then d' == d && o == Done
           else o == Done <==> Makes(d, f)
         case FixedSpecific(ip) =>
           if ip in d.netns then
             && (o == Done <==> !f.connect)
             && d' == d.(links := if id in d.links || f.connect then d.links else d.links[id := ip])
           else o == Done <==> Makes(d, f)
  {
    hide CreateEndpoint;
    MakesIff(d, id, f);
  }

  /** A new endpoint can be made, connected and occupied. */
  predicate Makes(d: Dir, f: Faults) {
    f.probe.Some? && f.probe.value !in d.netns && !f.create && !f.connect && !f.occupy && !f.unwritten
  }

  lemma MakesIff(d: Dir, id: string, f: Faults)
    requires Sound(d)
    ensures var (d', o) := CreateEndpoint(d, id, f);
      o != Crashed && (o == Done <==> Makes(d, f))
      && (o == Done ==>
            var ip := f.probe.value;
            d' == Dir(d.owner[ip := id], d.tenant[ip := id], d.netns + {ip},
                      if id in d.links then d.links else d.links[id := ip], d.flocks))
  {
  }

  /**
   Deleting a fixed-IP container with an endpoint frees it exactly if the container is the tenant; deleting one with
   a specific address also deletes the endpoint once nobody is linked to it.
   */
  lemma DeleteReports(kind: Kind, d: Dir, id: string, f: Faults)
    requires Sound(d)
    ensures var (d', o) := HandleDelete(kind, d, id, f);
      match kind
      case Plain => d' == d && o == if f.hook then Failed else Done
      case Specific(ip) =>
        if ip !in d.netns then d' == d && o == Done
        else if ip !in d.tenant || d.tenant[ip] != id || f.unlink then d' == d && o == Failed
        else
          && d'.tenant == Without(d.tenant, ip) && d'.links == d.links
          && (o == Done <==> !f.lock && ((exists x :: x in d.links && d.links[x] == ip) || !f.exec))
          && o != Crashed
          && (ip !in d'.netns <==> !f.lock && !(exists x :: x in d.links && d.links[x] == ip))
          && (forall j :: j != ip ==> (j in d'.netns <==> j in d.netns))
      case _ =>
        if id !in d.links then d' == d && o == Crashed
        else
          var ip := d.links[id];
          if ip !in d.tenant || d.tenant[ip] != id || f.unlink then d' == d && o == Failed
          else d' == d.(tenant := Without(d.tenant, ip)) && o == Done
  {
    if kind.Specific? && kind.ip in d.tenant && !f.lock {
      var d1 := Freed(d, id, kind.ip);
      RefcountPositive(Locked(d1, kind.ip), kind.ip);
      assert Without(Without(d.tenant, kind.ip), kind.ip) == Without(d.tenant, kind.ip);
    }
  }

  /** Removing a container drops its link, and the endpoint with it once nobody else refers to it. */
  lemma RemoveReports(d: Dir, id: string, f: Faults)
    requires Sound(d)
    ensures var (d', o) := RemoveNetwork(d, id, f);
      if id !in d.links then d' == d && o == Done
      else if f.unlink then d' == d && o == Failed
      else
        var ip := d.links[id];
        var needed := ip in d.tenant || exists x :: x in d.links && x != id && d.links[x] == ip;
        && d'.links == Without(d.links, id) && d'.tenant == d.tenant
        && (o == Done <==> !f.lock && (needed || !f.exec)) && o != Crashed
        && (ip !in d'.netns <==> !f.lock && !needed)
        && (forall j :: j != ip ==> (j in d'.netns <==> j in d.netns))
  {
    if id in d.links && !f.lock {
      var ip := d.links[id];
      var d1 := Disconnected(d, id);
      RefcountPositive(Locked(d1, ip), ip);
      if x :| x in d.links && x != id && d.links[x] == ip {
        assert x in d1.links && d1.links[x] == ip;
      }
      assert ip !in d.tenant ==> Without(d.tenant, ip) == d.tenant;
    }
  }

  // ----- until its own delete

  /** x is the tenant of an existing endpoint. */
  predicate Holds(d: Dir, x: string, ip: string) {
    ip in d.tenant && d.tenant[ip] == x && ip in d.netns && ip in d.owner
  }

  /** x stays the tenant of the same endpoint. */
  predicate HeldOn(d: Dir, d': Dir, x: string, ip: string) {
    Holds(d, x, ip) ==> Holds(d', x, ip) && d'.owner[ip] == d.owner[ip]
  }

  lemma CreateHolds(kind: Kind, d: Dir, id: string, f: Faults, x: string, ip: string)
    ensures HeldOn(d, HandleCreate(kind, d, id, f).0, x, ip)
  {
  }

  lemma MakeHolds(d: Dir, id: string, f: Faults, x: string, ip: string)
    ensures HeldOn(d, CreateEndpoint(d, id, f).0, x, ip)
  {
  }

  lemma StartHolds(kind: Kind, d: Dir, id: string, f: Faults, x: string, ip: string)
    ensures HeldOn(d, HandleStart(kind, d, id, f).0, x, ip)
  {
    hide CreateEndpoint;
    MakeHolds(d, id, f, x, ip);
  }

  /** An endpoint with a tenant is not dangling. */
  lemma DanglingHolds(d: Dir, j: string, f: Faults, x: string, ip: string)
    ensures HeldOn(d, DeleteDangling(d, j, f).0, x, ip)
  {
    RefcountPositive(Locked(d, j), j);
  }

  lemma DeleteHolds(kind: Kind, d: Dir, id: string, f: Faults, x: string, ip: string)
    requires id != x
    ensures HeldOn(d, HandleDelete(kind, d, id, f).0, x, ip)
  {
    hide DeleteDangling;
    if kind.Specific? {
      DanglingHolds(Freed(d, id, kind.ip), kind.ip, f, x, ip);
    }
  }

  lemma RemoveHolds(d: Dir, id: string, f: Faults, x: string, ip: string)
    ensures HeldOn(d, RemoveNetwork(d, id, f).0, x, ip)
  {
    hide DeleteDangling;
    if id in d.links {
      DanglingHolds(Disconnected(d, id), d.links[id], f, x, ip);
    }
  }

  /** Nothing but x's own delete ends its tenancy. */
  lemma HandleKeepsTenant(kinds: string -> Kind, d: Dir, e: Event, x: string, ip: string)
    requires !(e.Delete? && e.id == x)
    ensures HeldOn(d, Handle(kinds(e.id), d, e).0, x, ip)
  {
    hide HandleCreate, HandleStart, HandleDelete, RemoveNetwork, HeldOn;
    match e {
      case Create(id, f) => CreateHolds(kinds(id), d, id, f, x, ip);
      case Start(id, f) => StartHolds(kinds(id), d, id, f, x, ip);
      case Delete(id, f) => DeleteHolds(kinds(id), d, id, f, x, ip);
      case Remove(id, f) => RemoveHolds(d, id, f, x, ip);
    }
  }

  lemma {:induction false} TenantUntilDelete(
      kinds: string -> Kind, d: Dir, events: seq<Event>, x: string, ip: string)
    requires forall i :: 0 <= i < |events| ==> !(events[i].Delete? && events[i].id == x)
    ensures HeldOn(d, RunOn(kinds, d, events), x, ip)
    decreases |events|
  {
    hide Handle, Holds;
    if events != [] {
      var front := events[..|events| - 1];
      TenantUntilDelete(kinds, d, front, x, ip);
      HandleKeepsTenant(kinds, RunOn(kinds, d, front), events[|events| - 1], x, ip);
    }
  }

  /**
   From its successful creation on an existing endpoint until its own delete a container is the tenant and the
   endpoint is there, whatever the handlers of all containers do in between and whichever calls fail; with a
   specific address, its delete then succeeds unless something fails.
   */
  lemma BorrowedUntilDelete(kinds: string -> Kind, d: Dir, x: string, f: Faults, after: seq<Event>, g: Faults)
    requires Reachable(kinds, d) && ValidEvents(kinds, after)
    requires Target(kinds(x), d, x).Some? && HandleCreate(kinds(x), d, x, f).1 == Done
    requires forall i :: 0 <= i < |after| ==> !(after[i].Delete? && after[i].id == x)
    ensures var later := RunOn(kinds, HandleCreate(kinds(x), d, x, f).0, after);
      var ip := Target(kinds(x), d, x).value;
      && ip in later.tenant && later.tenant[ip] == x && Exists(later, ip) && later.owner[ip] == d.owner[ip]
      && ByIP(later, ip) == ByIP(d, ip)
      && (kinds(x).Specific? && !g.unlink && !g.lock && !g.exec ==> HandleDelete(kinds(x), later, x, g).1 == Done)
  {
    hide HandleCreate, HandleDelete;
    ReachableKept(kinds, d);
    CreateOnEndpoint(kinds(x), d, x, f);
    HandleKeeps(kinds, d, Event.Create(x, f), "");
    var borrowed := Handle(kinds(x), d, Event.Create(x, f)).0;
    TenantUntilDelete(kinds, borrowed, after, x, Target(kinds(x), d, x).value);
    RunKeeps(kinds, borrowed, after, "");
    DeleteReports(kinds(x), RunOn(kinds, borrowed, after), x, g);
  }

  /** The same from a start that made the endpoint, until the container's own delete. */
  lemma MadeUntilDelete(kinds: string -> Kind, d: Dir, x: string, f: Faults, after: seq<Event>)
    requires Reachable(kinds, d) && ValidEvent(kinds, Start(x, f)) && ValidEvents(kinds, after)
    requires Target(kinds(x), d, x).None? && (kinds(x).Fixed? || kinds(x).FixedSpecific?)
    requires HandleStart(kinds(x), d, x, f).1 == Done
    requires forall i :: 0 <= i < |after| ==> !(after[i].Delete? && after[i].id == x)
    ensures var later := RunOn(kinds, HandleStart(kinds(x), d, x, f).0, after);
      f.probe.Some? && Holds(later, x, f.probe.value) && later.owner[f.probe.value] == x
  {
    hide CreateEndpoint;
    ReachableKept(kinds, d);
    MakesIff(d, x, f);
    HandleKeeps(kinds, d, Start(x, f), "");
    var made := Handle(kinds(x), d, Start(x, f)).0;
    TenantUntilDelete(kinds, made, after, x, f.probe.value);
  }
}
