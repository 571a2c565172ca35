/**
 What the handlers keep over every run: nothing refers to a missing endpoint, and an endpoint exists exactly as
 long as somebody refers to it, but for those let go by a handler that could not take the lock.
 */
module EndpointInvariant {
  import opened Types
  import opened Endpoints
  import opened EndpointHandlers

  /** An endpoint is its owner file and its netns file together. */
  predicate Exists(d: Dir, ip: string) {
    ip in d.netns && ip in d.owner
  }

  predicate Referenced(d: Dir, ip: string) {
    ip in d.tenant || exists id :: id in d.links && d.links[id] == ip
  }

  predicate Dangling(d: Dir, ip: string) {
    ip in d.netns && !Referenced(d, ip)
  }

  /** Owner and netns files come in pairs, and no link or tenant refers to a missing endpoint. */
  predicate Sound(d: Dir) {
    && d.owner.Keys == d.netns
    && (forall ip :: ip in d.tenant ==> ip in d.netns)
    && (forall id :: id in d.links ==> d.links[id] in d.netns)
  }

  predicate Consistent(d: Dir) {
    Sound(d) && forall ip :: ip in d.netns ==> Referenced(d, ip)
  }

  /** A container with a specific address is only ever linked to it. */
  predicate LinksOwn(kinds: string -> Kind, d: Dir) {
    forall id :: id in d.links && kinds(id).FixedSpecific? ==> d.links[id] == kinds(id).ip
  }

  lemma RefcountPositive(d: Dir, ip: string)
    ensures Refcount(d, ip) > 0 <==> Referenced(d, ip)
  {
    if exists id :: id in d.links && d.links[id] == ip {
      var id :| id in d.links && d.links[id] == ip;
      assert id in LinksTo(d, ip);
    }
    if |LinksTo(d, ip)| > 0 {
      var id :| id in LinksTo(d, ip);
    }
  }

  /**
   At a handler boundary: an endpoint exists for an address iff its reference count is positive, and nothing
   refers to a missing one.
   */
  predicate Boundary(d: Dir, ip: string) {
    && (ip in d.netns <==> ip in d.owner)
    && (Exists(d, ip) <==> Refcount(d, ip) > 0)
    && (ip in d.tenant ==> Exists(d, ip))
    && (forall id :: id in d.links && d.links[id] == ip ==> Exists(d, ip))
  }

  /** A specific-address container's namespace has that address. */
  predicate ValidEvent(kinds: string -> Kind, e: Event) {
    e.Start? && kinds(e.id).FixedSpecific? ==> e.faults.probe == None || e.faults.probe == Some(kinds(e.id).ip)
  }

  function RunOn(kinds: string -> Kind, d: Dir, events: seq<Event>): Dir
    decreases |events|
  {
    if events == [] then d
    else
      var before := RunOn(kinds, d, events[..|events| - 1]);
      var e := events[|events| - 1];
      Handle(kinds(e.id), before, e).0
  }

  predicate ValidEvents(kinds: string -> Kind, events: seq<Event>) {
    forall i :: 0 <= i < |events| ==> ValidEvent(kinds, events[i])
  }

  function Empty(): Dir {
    Dir(map[], map[], {}, map[], {})
  }

  // ----- each step

  /** The handler cannot take the lock of the address after dropping the last reference to its endpoint. */
  predicate Abandons(kind: Kind, d: Dir, e: Event, ip: string) {
    && e.faults.lock && !e.faults.unlink
    && match e
       case Remove(id, _) => id in d.links && d.links[id] == ip && ip !in d.tenant && LinksTo(d, ip) == {id}
       case Delete(id, _) => kind == Specific(ip) && CanFree(d, id, ip) && LinksTo(d, ip) == {}
       case _ => false
  }

  lemma LockKeeps(d: Dir, ip: string, j: string)
    ensures Referenced(Locked(d, ip), j) <==> Referenced(d, j)
  {
  }

  /** A step that only adds references. */
  lemma GrownReferences(d: Dir, d': Dir, j: string)
    requires Referenced(d, j)
    requires forall k :: k in d.tenant ==> k in d'.tenant
    requires forall k :: k in d.links ==> k in d'.links && d'.links[k] == d.links[k]
    ensures Referenced(d', j)
  {
    if j !in d.tenant {
      var x :| x in d.links && d.links[x] == j;
      assert x in d'.links && d'.links[x] == j;
    }
  }

  /** Deletes the endpoint exactly if nothing refers to it. */
  lemma DeleteDanglingEffect(d: Dir, ip: string, f: Faults, j: string)
    requires Sound(d) && !f.lock
    ensures var d' := DeleteDangling(d, ip, f).0;
      && Sound(d') && d'.links == d.links
      && (Dangling(d', j) <==> Dangling(d, j) && j != ip)
      && (forall k :: k in d.owner && Referenced(d, k) ==> k in d'.owner && d'.owner[k] == d.owner[k])
  {
    RefcountPositive(Locked(d, ip), ip);
    LockKeeps(d, ip, ip);
    LockKeeps(d, ip, j);
    var d' := DeleteDangling(d, ip, f).0;
    if !Referenced(d, ip) {
      assert forall id :: id in d.links ==> d.links[id] != ip;
      assert j != ip ==> (Referenced(d', j) <==> Referenced(d, j));
    }
  }

  lemma DisconnectEffect(d: Dir, id: string, j: string)
    requires Sound(d) && id in d.links
    ensures Sound(Disconnected(d, id))
    ensures Referenced(Disconnected(d, id), j) <==>
      if j == d.links[id] then j in d.tenant || LinksTo(d, j) != {id} else Referenced(d, j)
  {
    var d' := Disconnected(d, id);
    assert id in LinksTo(d, d.links[id]);
    if Referenced(d', j) && j !in d.tenant {
      var x :| x in d'.links && d'.links[x] == j;
      assert x in LinksTo(d, j) && x != id;
    }
    if Referenced(d, j) && j !in d.tenant && j != d.links[id] {
      var x :| x in d.links && d.links[x] == j;
      assert x in d'.links && d'.links[x] == j;
    }
    if j == d.links[id] && LinksTo(d, j) != {id} {
      var x :| x in LinksTo(d, j) && x != id;
      assert x in d'.links && d'.links[x] == j;
    }
  }

  lemma FreeEffect(d: Dir, id: string, ip: string, j: string)
    requires Sound(d)
    ensures Sound(Freed(d, id, ip))
    ensures Referenced(Freed(d, id, ip), j) <==>
      if CanFree(d, id, ip) && j == ip then LinksTo(d, j) != {} else Referenced(d, j)
  {
    var d' := Freed(d, id, ip);
    if j !in d'.tenant && Referenced(d', j) {
      var x :| x in d'.links && d'.links[x] == j;
      assert x in LinksTo(d, j);
    }
    if LinksTo(d, j) != {} {
      var x :| x in LinksTo(d, j);
      assert x in d'.links && d'.links[x] == j;
    }
    if j !in d.tenant && Referenced(d, j) {
      var x :| x in d.links && d.links[x] == j;
      assert x in LinksTo(d, j);
    }
  }

  lemma BorrowEffect(d: Dir, id: string, ip: string, f: Faults)
    requires Sound(d) && ip in d.netns
    ensures var d' := Borrow(d, id, ip, f).0;
      Sound(d') && d'.links == d.links && d'.owner == d.owner && d.tenant.Keys <= d'.tenant.Keys
  {
    assert ip !in d.tenant ==> Without(d.tenant[ip := id], ip) == d.tenant;
  }

  /** With no link of the container, a failed create in a sound directory changes nothing but the lock file. */
  lemma CreateRollsBack(d: Dir, id: string, f: Faults)
    requires Sound(d) && id !in d.links
    requires CreateEndpoint(d, id, f).1 != Done
    ensures CreateEndpoint(d, id, f).0 == d.(flocks := CreateEndpoint(d, id, f).0.flocks)
  {
    if f.probe.Some? && f.probe.value !in d.owner {
      var ip := f.probe.value;
      assert Without(d.owner[ip := id], ip) == d.owner;
      assert Without(d.tenant, ip) == d.tenant;
      assert Without(d.links[id := ip], id) == d.links;
    }
  }

  /** What an endpoint's creation adds; failed at any point it adds nothing. */
  predicate GrewBy(d: Dir, d': Dir, id: string, ip: Option<string>) {
    && (forall k :: k in d.links ==> k in d'.links && d'.links[k] == d.links[k])
    && (forall k :: k in d'.links && k !in d.links ==> k == id && ip == Some(d'.links[k]))
    && (forall j :: j in d.owner ==> j in d'.owner && d'.owner[j] == d.owner[j])
    && (forall j :: j in d.tenant ==> j in d'.tenant)
    && (forall j :: j in d'.netns ==> j in d.netns || j in d'.tenant)
  }

  lemma CreateKeeps(d: Dir, id: string, f: Faults)
    requires Sound(d) && id !in d.links
    ensures Sound(CreateEndpoint(d, id, f).0) && GrewBy(d, CreateEndpoint(d, id, f).0, id, f.probe)
  {
    if CreateEndpoint(d, id, f).1 != Done {
      CreateRollsBack(d, id, f);
    }
  }

  lemma CreateHandled(kind: Kind, d: Dir, id: string, f: Faults)
    requires Sound(d)
    ensures var d' := HandleCreate(kind, d, id, f).0;
      Sound(d') && GrewBy(d, d', id, None) && d'.links == d.links
  {
    if kind.Fixed? && id in d.links {
      BorrowEffect(d, id, d.links[id], f);
    } else if (kind.Specific? || kind.FixedSpecific?) && kind.ip in d.netns {
      BorrowEffect(Locked(d, kind.ip), id, kind.ip, f);
    }
  }

  lemma StartHandled(kinds: string -> Kind, d: Dir, id: string, f: Faults)
    requires Sound(d) && LinksOwn(kinds, d) && ValidEvent(kinds, Start(id, f))
    ensures var d' := HandleStart(kinds(id), d, id, f).0;
      && Sound(d') && LinksOwn(kinds, d')
      && GrewBy(d, d', id, match kinds(id) case FixedSpecific(ip) => Some(ip) case _ => f.probe)
  {
    hide CreateEndpoint, Connected;
    var kind := kinds(id);
    if kind.FixedSpecific? && kind.ip in d.netns {
      ConnectKeeps(d, id, kind.ip);
    } else if (kind.Fixed? && id !in d.links) || kind.FixedSpecific? {
      CreateKeeps(d, id, f);
      CreateProbed(d, id, f);
    }
  }

  lemma ConnectKeeps(d: Dir, id: string, ip: string)
    requires Sound(d) && ip in d.netns
    ensures Sound(Connected(d, id, ip)) && GrewBy(d, Connected(d, id, ip), id, Some(ip))
  {
  }

  lemma CreateProbed(d: Dir, id: string, f: Faults)
    ensures f.probe == None ==> CreateEndpoint(d, id, f).0 == d
  {
  }

  /** A linked container's own link keeps the endpoint it frees. */
  lemma DeleteHandled(kind: Kind, d: Dir, id: string, f: Faults, j: string)
    requires Sound(d)
    ensures var d' := HandleDelete(kind, d, id, f).0;
      && Sound(d') && d'.links == d.links
      && (Dangling(d', j) && !Dangling(d, j) <==> Abandons(kind, d, Event.Delete(id, f), j))
  {
    if f.unlink {
    } else if kind.Specific? && kind.ip in d.netns {
      FreeEffect(d, id, kind.ip, j);
      if !f.lock {
        DeleteDanglingEffect(Freed(d, id, kind.ip), kind.ip, f, j);
      }
    } else if (kind.Fixed? || kind.FixedSpecific?) && id in d.links {
      FreeEffect(d, id, d.links[id], j);
      assert id in LinksTo(d, d.links[id]);
    }
  }

  lemma RemoveHandled(d: Dir, id: string, f: Faults, kind: Kind, j: string)
    requires Sound(d)
    ensures var d' := RemoveNetwork(d, id, f).0;
      && Sound(d')
      && (forall k :: k in d'.links <==> k in d.links && (k != id || f.unlink))
      && (forall k :: k in d'.links ==> d'.links[k] == d.links[k])
      && (Dangling(d', j) && !Dangling(d, j) <==> Abandons(kind, d, Remove(id, f), j))
  {
    if id in d.links && !f.unlink {
      DisconnectEffect(d, id, j);
      if !f.lock {
        DeleteDanglingEffect(Disconnected(d, id), d.links[id], f, j);
      }
    }
  }

  lemma GrownDangles(d: Dir, d': Dir, id: string, ip: Option<string>, j: string)
    requires GrewBy(d, d', id, ip)
    ensures Dangling(d', j) ==> Dangling(d, j)
  {
    if Referenced(d, j) {
      GrownReferences(d, d', j);
    }
  }

  /** The one way for an endpoint to be left without any reference: its last holder could not take the lock. */
  lemma HandleKeeps(kinds: string -> Kind, d: Dir, e: Event, j: string)
    requires Sound(d) && LinksOwn(kinds, d) && ValidEvent(kinds, e)
    ensures var d' := Handle(kinds(e.id), d, e).0;
      && Sound(d') && LinksOwn(kinds, d')
      && (Dangling(d', j) && !Dangling(d, j) <==> Abandons(kinds(e.id), d, e, j))
  {
    hide GrewBy, Abandons, Dangling, HandleCreate, HandleStart, HandleDelete, RemoveNetwork;
    var d' := Handle(kinds(e.id), d, e).0;
    match e {
      case Create(id, f) =>
        CreateHandled(kinds(id), d, id, f);
        GrownDangles(d, d', id, None, j);
        NeverAbandons(kinds(id), d, e, j);
      case Start(id, f) =>
        StartHandled(kinds, d, id, f);
        GrownDangles(d, d', id, match kinds(id) case FixedSpecific(ip) => Some(ip) case _ => f.probe, j);
        NeverAbandons(kinds(id), d, e, j);
      case Delete(id, f) => DeleteHandled(kinds(id), d, id, f, j);
      case Remove(id, f) => RemoveHandled(d, id, f, kinds(id), j);
    }
  }

  lemma NeverAbandons(kind: Kind, d: Dir, e: Event, ip: string)
    requires !e.faults.lock || e.Create? || e.Start?
    ensures !Abandons(kind, d, e, ip)
  {
  }

  // ----- every run

  /** Some handler of the run has let the endpoint go. */
  ghost predicate Abandoned(kinds: string -> Kind, d: Dir, events: seq<Event>, ip: string) {
    exists n :: 0 <= n < |events| && Abandons(kinds(events[n].id), RunOn(kinds, d, events[..n]), events[n], ip)
  }

  lemma {:induction false} RunKeeps(kinds: string -> Kind, d: Dir, events: seq<Event>, ip: string)
    requires Sound(d) && LinksOwn(kinds, d) && ValidEvents(kinds, events)
    ensures Sound(RunOn(kinds, d, events)) && LinksOwn(kinds, RunOn(kinds, d, events))
    ensures Dangling(RunOn(kinds, d, events), ip) ==> Dangling(d, ip) || Abandoned(kinds, d, events, ip)
    decreases |events|
  {
    hide Dangling, Abandons, Handle, Sound, LinksOwn;
    if events != [] {
      var n := |events| - 1;
      RunKeeps(kinds, d, events[..n], ip);
      HandleKeeps(kinds, RunOn(kinds, d, events[..n]), events[n], ip);
      if Abandoned(kinds, d, events[..n], ip) {
        var m :| 0 <= m < n
          && Abandons(kinds(events[..n][m].id), RunOn(kinds, d, events[..n][..m]), events[..n][m], ip);
        assert events[..n][..m] == events[..m] && events[..n][m] == events[m];
      }
    }
  }

  /** A handler boundary of some run from an empty directory. */
  ghost predicate Reachable(kinds: string -> Kind, d: Dir) {
    exists events :: ValidEvents(kinds, events) && d == RunOn(kinds, Empty(), events)
  }

  lemma ReachableKept(kinds: string -> Kind, d: Dir)
    requires Reachable(kinds, d)
    ensures Sound(d) && LinksOwn(kinds, d)
  {
    var events :| ValidEvents(kinds, events) && d == RunOn(kinds, Empty(), events);
    RunKeeps(kinds, Empty(), events, "");
  }

  /**
   At every handler boundary of every run from an empty directory, at every address: nothing refers to a missing
   endpoint, and an endpoint exists iff its reference count is positive - unless a handler of the run,
   unable to take the lock, let go of it.
   */
  lemma BoundaryUnlessAbandoned(kinds: string -> Kind, events: seq<Event>, d: Dir, ip: string)
    requires ValidEvents(kinds, events) && d == RunOn(kinds, Empty(), events)
    ensures Boundary(d, ip) || (Exists(d, ip) && Refcount(d, ip) == 0 && Abandoned(kinds, Empty(), events, ip))
  {
    RunKeeps(kinds, Empty(), events, ip);
    RefcountPositive(d, ip);
  }

  /** With no lock refused it holds at every boundary. */
  lemma EndpointIffReferenced(kinds: string -> Kind, events: seq<Event>, d: Dir, ip: string)
    requires ValidEvents(kinds, events) && d == RunOn(kinds, Empty(), events)
    requires forall n :: 0 <= n < |events| ==> !events[n].faults.lock
    ensures Boundary(d, ip)
  {
    BoundaryUnlessAbandoned(kinds, events, d, ip);
  }

  /** c's link is still there, and the endpoint behind it has kept its owner. */
  predicate LinkKept(d: Dir, d': Dir, c: string)
    requires c in d.links
  {
    && c in d'.links && d'.links[c] == d.links[c]
    && d.links[c] in d.owner && d.links[c] in d'.owner && d'.owner[d.links[c]] == d.owner[d.links[c]]
  }

  lemma DeleteKeepsLink(kind: Kind, d: Dir, id: string, f: Faults, c: string)
    requires Sound(d) && c in d.links
    ensures LinkKept(d, HandleDelete(kind, d, id, f).0, c)
  {
    if kind.Specific? && kind.ip in d.netns && !f.lock && !f.unlink {
      var d' := Freed(d, id, kind.ip);
      FreeEffect(d, id, kind.ip, d.links[c]);
      assert c in d'.links && d'.links[c] == d.links[c];
      assert Referenced(d', d.links[c]);
      DeleteDanglingEffect(d', kind.ip, f, "");
    }
  }

  lemma RemoveKeepsLink(d: Dir, id: string, f: Faults, c: string)
    requires Sound(d) && c in d.links && id != c
    ensures LinkKept(d, RemoveNetwork(d, id, f).0, c)
  {
    if id in d.links && !f.lock && !f.unlink {
      var d' := Disconnected(d, id);
      DisconnectEffect(d, id, d.links[c]);
      assert c in d'.links && d'.links[c] == d.links[c];
      assert Referenced(d', d.links[c]);
      DeleteDanglingEffect(d', d.links[id], f, "");
    }
  }

  /** A step that is not c's own removal keeps c's link. */
  lemma HandleKeepsLink(kinds: string -> Kind, d: Dir, e: Event, c: string)
    requires Sound(d) && LinksOwn(kinds, d) && ValidEvent(kinds, e)
    requires c in d.links && !(e.Remove? && e.id == c)
    ensures LinkKept(d, Handle(kinds(e.id), d, e).0, c)
  {
    hide HandleCreate, HandleStart, HandleDelete, RemoveNetwork;
    match e {
      case Create(id, f) => CreateHandled(kinds(id), d, id, f);
      case Start(id, f) => StartHandled(kinds, d, id, f);
      case Delete(id, f) => DeleteKeepsLink(kinds(id), d, id, f, c);
      case Remove(id, f) => RemoveKeepsLink(d, id, f, c);
    }
  }

  lemma {:induction false} LinkStays(kinds: string -> Kind, d: Dir, events: seq<Event>, c: string)
    requires Sound(d) && LinksOwn(kinds, d) && ValidEvents(kinds, events)
    requires c in d.links
    requires forall i :: 0 <= i < |events| ==> !(events[i].Remove? && events[i].id == c)
    ensures LinkKept(d, RunOn(kinds, d, events), c)
    decreases |events|
  {
    hide Handle;
    if events != [] {
      var front := events[..|events| - 1];
      LinkStays(kinds, d, front, c);
      RunKeeps(kinds, d, front, "");
      HandleKeepsLink(kinds, RunOn(kinds, d, front), events[|events| - 1], c);
    }
  }

  lemma StartLinks(kinds: string -> Kind, d: Dir, c: string, f: Faults)
    requires Sound(d) && LinksOwn(kinds, d) && ValidEvent(kinds, Start(c, f))
    requires kinds(c).Fixed? || kinds(c).FixedSpecific?
    requires HandleStart(kinds(c), d, c, f).1 == Done
    ensures c in HandleStart(kinds(c), d, c, f).0.links
  {
  }

  /**
   From a successful start until its own removal a fixed-IP container finds the same endpoint by its id,
   whatever the handlers of all containers do in between, and whether or not they get their locks. So
   a delete of it in that time does not crash.
   */
  lemma FoundFromStartToRemove(kinds: string -> Kind, d: Dir, c: string, f: Faults, after: seq<Event>, later: Dir,
                               g: Faults)
    requires Reachable(kinds, d) && ValidEvent(kinds, Start(c, f)) && ValidEvents(kinds, after)
    requires kinds(c).Fixed? || kinds(c).FixedSpecific?
    requires HandleStart(kinds(c), d, c, f).1 == Done
    requires forall i :: 0 <= i < |after| ==> !(after[i].Remove? && after[i].id == c)
    requires later == RunOn(kinds, HandleStart(kinds(c), d, c, f).0, after)
    ensures ByID(HandleStart(kinds(c), d, c, f).0, c).Found?
    ensures ByID(later, c) == ByID(HandleStart(kinds(c), d, c, f).0, c)
    ensures HandleDelete(kinds(c), later, c, g).1 != Crashed
  {
    ReachableKept(kinds, d);
    HandleKeeps(kinds, d, Start(c, f), "");
    StartLinks(kinds, d, c, f);
    var started := Handle(kinds(c), d, Start(c, f)).0;
    LinkStays(kinds, started, after, c);
    RunKeeps(kinds, started, after, "");
  }

  /** In every reachable directory exactly a fixed-IP container without a link crashes the delete handler. */
  lemma CrashesIffUnlinked(kinds: string -> Kind, d: Dir, c: string, f: Faults)
    requires Reachable(kinds, d)
    ensures HandleDelete(kinds(c), d, c, f).1 == Crashed <==>
        (kinds(c).Fixed? || kinds(c).FixedSpecific?) && c !in d.links
  {
    ReachableKept(kinds, d);
  }

  // ----- failures

  /**
   CreateNetEndpoint is all or nothing. A failed create restores the directory exactly if it failed before
   creating anything, or found no leftovers: no netns, tenant or lock file at the address and, once it had
   connected, no earlier link of the container. The rollback removes the lock file whoever made it.
   */
  lemma CreateAllOrNothing(d: Dir, id: string, f: Faults)
    ensures var (d', o) := CreateEndpoint(d, id, f);
      && (o == Done ==>
          && f.probe.Some?
          && var ip := f.probe.value;
          && ip in d'.owner && d'.owner[ip] == id && ip in d'.netns
          && ip in d'.tenant && d'.tenant[ip] == id
          && id in d'.links && (d'.links[id] == ip <==> id !in d.links || d.links[id] == ip))
      && (o != Done ==>
          (d' == d <==>
            || f.probe.None? || f.create || f.probe.value in d.owner
            || (&& f.probe.value !in d.netns && f.probe.value !in d.tenant && f.probe.value !in d.flocks
                && (f.connect || id !in d.links))))
  {
    var (d', o) := CreateEndpoint(d, id, f);
    if o != Done && f.probe.Some? && !f.create && f.probe.value !in d.owner {
      var ip := f.probe.value;
      assert Without(d.owner[ip := id], ip) == d.owner;
      assert ip !in d'.netns && ip !in d'.tenant && ip !in d'.flocks;
      assert ip !in d.tenant ==> Without(d.tenant, ip) == d.tenant;
      assert !f.connect ==> id !in d'.links;
      assert id !in d.links ==> Without(d.links[id := ip], id) == d.links;
    }
  }

  /**
   If the lock cannot be taken once the link is to go, the boundary invariant survives exactly if the link stays
   or another reference is left.
   */
  lemma RemoveWithoutLock(d: Dir, id: string, f: Faults)
    requires Consistent(d) && id in d.links && f.lock
    ensures Consistent(RemoveNetwork(d, id, f).0) <==> f.unlink || Referenced(Disconnected(d, id), d.links[id])
  {
    forall j | j in d.netns && j != d.links[id] ensures Referenced(Disconnected(d, id), j) {
      DisconnectEffect(d, id, j);
    }
    assert d.links[id] in Disconnected(d, id).netns;
  }

  /**
   The same for freeing a specific address: without the lock the endpoint stays, which is right exactly if it is
   still linked.
   */
  lemma DeleteWithoutLock(d: Dir, id: string, ip: string, f: Faults)
    requires Consistent(d) && f.lock
    ensures Consistent(HandleDelete(Specific(ip), d, id, f).0) <==>
      (CanFree(d, id, ip) && !f.unlink ==> LinksTo(d, ip) != {})
  {
    forall j ensures Referenced(Freed(d, id, ip), j) <==>
        if CanFree(d, id, ip) && j == ip then LinksTo(d, j) != {} else Referenced(d, j)
    {
      FreeEffect(d, id, ip, j);
    }
  }

  // ----- two failing runs

  function NoFaults(probe: Option<string>): Faults {
    Faults(false, false, false, false, false, false, false, false, false, probe)
  }

  function AllFixed(id: string): Kind {
    if id == "c" then FixedSpecific("10.0.0.1") else Fixed
  }

  lemma RunOnNext(kinds: string -> Kind, d: Dir, events: seq<Event>, e: Event)
    ensures RunOn(kinds, d, events + [e]) == Handle(kinds(e.id), RunOn(kinds, d, events), e).0
  {
    assert (events + [e])[..|events|] == events;
  }

  /** The create leaves the lock file of its address, and a start that then fails to connect removes it. */
  lemma StartUndoesTooMuch()
    ensures var d := Empty().(flocks := {"10.0.0.1"});
      var f := NoFaults(Some("10.0.0.1")).(connect := true);
      && Reachable(AllFixed, d) && ValidEvent(AllFixed, Start("c", f))
      && HandleStart(AllFixed("c"), d, "c", f) == (Empty(), Failed)
  {
    var create := Event.Create("c", NoFaults(None));
    RunOnNext(AllFixed, Empty(), [], create);
    assert [] + [create] == [create];
    assert ValidEvents(AllFixed, [create]);
    var none: map<string, string> := map[];
    assert Without(none["10.0.0.1" := "c"], "10.0.0.1") == none == Without(none, "10.0.0.1");
    var d := Empty().(flocks := {"10.0.0.1"});
    assert RunOn(AllFixed, Empty(), [create]) == d;
    assert Deleted(Created(d, "10.0.0.1", "c"), "10.0.0.1") == Empty();
  }

  /**
   A container starts, is deleted, and is removed by a handler that cannot take the lock: nobody refers to its
   endpoint.
   */
  lemma RemoveLeavesDangling()
    ensures var start, delete := Start("x", NoFaults(Some("10.0.0.2"))), Event.Delete("x", NoFaults(None));
      var d := RunOn(AllFixed, Empty(), [start, delete]);
      var f := NoFaults(None).(lock := true);
      && Reachable(AllFixed, d) && Boundary(d, "10.0.0.2") && Abandons(Fixed, d, Remove("x", f), "10.0.0.2")
      && Dangling(RemoveNetwork(d, "x", f).0, "10.0.0.2")
  {
    var start, delete := Start("x", NoFaults(Some("10.0.0.2"))), Event.Delete("x", NoFaults(None));
    RunOnNext(AllFixed, Empty(), [], start);
    RunOnNext(AllFixed, Empty(), [start], delete);
    assert [] + [start] == [start] && [start] + [delete] == [start, delete];
    assert ValidEvents(AllFixed, [start, delete]);
    var d := RunOn(AllFixed, Empty(), [start, delete]);
    EndpointIffReferenced(AllFixed, [start, delete], d, "10.0.0.2");
    assert Without(map["10.0.0.2" := "x"], "10.0.0.2") == map[];
    assert d == Dir(map["10.0.0.2" := "x"], map[], {"10.0.0.2"}, map["x" := "10.0.0.2"], {});
    assert LinksTo(d, "10.0.0.2") == {"x"};
    var f := NoFaults(None).(lock := true);
    HandleKeeps(AllFixed, d, Remove("x", f), "10.0.0.2");
    RefcountPositive(d, "10.0.0.2");
  }
}
