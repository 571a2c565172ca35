/** The create, start, delete and remove handlers over the endpoint store, with their rollbacks. */
module EndpointHandlers {
  import opened Types
  import opened Endpoints

  /** How a container asks for its address; `ip` is the specific one. */
  datatype Kind = Plain | Fixed | FixedSpecific(ip: string) | Specific(ip: string)

  /**
   Which of the calls that can fail do so, and the address the container's namespace is found to have. `unwritten`
   is a tenant file that was created and could not be written, `unlink` a link or tenant file that cannot be removed.
   */
  datatype Faults = Faults(
    hook: bool, save: bool, create: bool, connect: bool, occupy: bool, unwritten: bool, lock: bool, unlink: bool,
    exec: bool, probe: Option<string>)

  /** `Crashed` is the nil dereference of deleting a fixed-IP container that has no endpoint. */
  datatype Outcome = Done | Failed | Crashed

  datatype Event =
    | Create(id: string, faults: Faults)
    | Start(id: string, faults: Faults)
    | Delete(id: string, faults: Faults)
    | Remove(id: string, faults: Faults)

  function Borrow(d: Dir, id: string, ip: string, f: Faults): (Dir, Outcome) {
    if f.occupy || ip in d.tenant then (d, Failed)
    else if f.unwritten then (Occupied(d, "", ip), Failed)
    else if f.save then (Freed(Occupied(d, id, ip), id, ip), Failed)
    else (Occupied(d, id, ip), Done)
  }

  function CreateEndpoint(d: Dir, id: string, f: Faults): (Dir, Outcome) {
    if f.probe.None? then (d, Failed)
    else
      var ip := f.probe.value;
      if f.create || ip in d.owner then (d, Failed)
      else
        var d1 := Created(d, ip, id);
        if f.connect then (Deleted(d1, ip), Failed)
        else
          var d2 := Connected(d1, id, ip);
          if f.occupy || f.unwritten || ip in d2.tenant then (Deleted(Disconnected(d2, id), ip), Failed)
          else (Occupied(d2, id, ip), Done)
  }

  function Locked(d: Dir, ip: string): Dir {
    d.(flocks := d.flocks + {ip})
  }

  function DeleteDangling(d: Dir, ip: string, f: Faults): (Dir, Outcome) {
    if f.lock then (d, Failed)
    else if Refcount(Locked(d, ip), ip) > 0 then (Locked(d, ip), Done)
    else (Deleted(Locked(d, ip), ip), if f.exec then Failed else Done)
  }

  /** Creating a container that has no endpoint yet only hooks its start. */
  function HookStart(f: Faults): Outcome {
    if f.hook || f.save then Failed else Done
  }

  function HandleCreate(kind: Kind, d: Dir, id: string, f: Faults): (Dir, Outcome) {
    match kind
    case Plain => (d, HookStart(f))
    case Fixed =>
      (match ByID(d, id)
       case Found(nep) => Borrow(d, id, nep.ipv4, f)
       case Missing => (d, HookStart(f))
       case Broken => (d, Failed))
    case _ =>
      if f.lock then (d, Failed)
      else
        (match ByIP(d, kind.ip)
         case Found(nep) => Borrow(Locked(d, kind.ip), id, kind.ip, f)
         case Missing => (Locked(d, kind.ip), HookStart(f))
         case Broken => (Locked(d, kind.ip), Failed))
  }

  function HandleStart(kind: Kind, d: Dir, id: string, f: Faults): (Dir, Outcome) {
    match kind
    case Fixed =>
      (match ByID(d, id)
       case Found(_) => (d, Done)
       case Missing => CreateEndpoint(d, id, f)
       case Broken => (d, Failed))
    case FixedSpecific(ip) =>
      (match ByIP(d, ip)
       case Found(nep) => if f.connect then (d, Failed) else (Connected(d, id, ip), Done)
       case Missing => CreateEndpoint(d, id, f)
       case Broken => (d, Failed))
    case Plain => (d, if f.hook then Failed else Done)
    case Specific(_) => (d, Done)
  }

  function Free(d: Dir, id: string, ip: string, f: Faults): (Dir, Outcome) {
    if CanFree(d, id, ip) && !f.unlink then (Freed(d, id, ip), Done) else (d, Failed)
  }

  function HandleDelete(kind: Kind, d: Dir, id: string, f: Faults): (Dir, Outcome) {
    match kind
    case Plain => (d, if f.hook then Failed else Done)
    case Specific(ip) =>
      (match ByIP(d, ip)
       case Found(_) =>
         var (d', o) := Free(d, id, ip, f);
         if o == Done then DeleteDangling(d', ip, f) else (d, Failed)
       case Missing => (d, Done)
       case Broken => (d, Failed))
    case _ =>
      (match ByID(d, id)
       case Found(nep) => Free(d, id, nep.ipv4, f)
       case Missing => (d, Crashed)
       case Broken => (d, Failed))
  }

  function RemoveNetwork(d: Dir, id: string, f: Faults): (Dir, Outcome) {
    match ByID(d, id)
    case Found(nep) => if f.unlink then (d, Failed) else DeleteDangling(Disconnected(d, id), nep.ipv4, f)
    case Missing => (d, Done)
    case Broken => (d, Failed)
  }

  function Handle(kind: Kind, d: Dir, e: Event): (Dir, Outcome) {
    match e
    case Create(id, f) => HandleCreate(kind, d, id, f)
    case Start(id, f) => HandleStart(kind, d, id, f)
    case Delete(id, f) => HandleDelete(kind, d, id, f)
    case Remove(id, f) => RemoveNetwork(d, id, f)
  }

  /** `netns` is the endpoint whose namespace the container joins; `saved` is what its bundle on disk says. */
  class ContainerMeta {
    const id: string
    var netns: Option<string>
    var saved: Option<string>

    constructor (id: string)
      ensures this.id == id
    {
      this.id := id;
      netns, saved := None, None;
    }

    method SetNetns(ip: string)
      modifies this`netns
      ensures netns == Some(ip)
    {
      netns := Some(ip);
    }

    method Save(fails: bool) returns (ok: bool)
      modifies this`saved
      ensures ok == !fails && saved == if fails then old(saved) else netns
    {
      if !fails {
        saved := netns;
      }
      return !fails;
    }
  }

  class Handlers {
    const store: FSStore

    constructor (store: FSStore)
      ensures this.store == store
    {
      this.store := store;
    }

    method BorrowNetEndpoint(meta: ContainerMeta, nep: NetEndpoint, f: Faults) returns (o: Outcome)
      modifies store, meta
      ensures (store.Now(), o) == Borrow(old(store.Now()), meta.id, nep.ipv4, f)
      ensures meta.saved == if o == Done then Some(nep.ipv4) else old(meta.saved)
    {
      var occupied := store.OccupyNetEndpoint(meta.id, nep, f.occupy, f.unwritten);
      if !occupied {
        return Failed;
      }
      meta.SetNetns(nep.ipv4);
      var saved := meta.Save(f.save);
      if !saved {
        var _ := store.FreeNetEndpoint(meta.id, nep, false);
        return Failed;
      }
      return Done;
    }

    /** Creates, connects and occupies; the undo steps run in reverse order when a later one fails. */
    method CreateNetEndpoint(meta: ContainerMeta, f: Faults) returns (o: Outcome)
      modifies store
      ensures (store.Now(), o) == CreateEndpoint(old(store.Now()), meta.id, f)
    {
      if f.probe.None? {
        return Failed;
      }
      var nep := store.CreateNetEndpoint(meta.id, f.probe.value, f.create);
      if nep.None? {
        return Failed;
      }
      var connected := store.ConnectNetEndpoint(meta.id, nep.value, f.connect);
      if !connected {
        store.DeleteNetEndpoint(nep.value);
        return Failed;
      }
      var occupied := store.OccupyNetEndpoint(meta.id, nep.value, f.occupy, f.unwritten);
      if !occupied {
        var _ := store.DisconnectNetEndpoint(meta.id, false);
        ghost var ip := f.probe.value;
        assert forall m: map<string, string> :: Without(m[ip := ""], ip) == Without(m, ip);
        store.DeleteNetEndpoint(nep.value);
        return Failed;
      }
      return Done;
    }

    method DeleteDanglingNetwork(nep: NetEndpoint, f: Faults) returns (o: Outcome)
      modifies store
      ensures (store.Now(), o) == DeleteDangling(old(store.Now()), nep.ipv4, f)
    {
      if f.lock {
        return Failed;
      }
      store.GetFlock(nep.ipv4);
      var count := store.GetNetEndpointRefcount(nep);
      if count > 0 {
        return Done;
      }
      store.DeleteNetEndpoint(nep);
      return if f.exec then Failed else Done;
    }

    method RemoveContainerNetwork(id: string, f: Faults) returns (o: Outcome)
      modifies store
      ensures (store.Now(), o) == RemoveNetwork(old(store.Now()), id, f)
    {
      var found := store.GetNetEndpointByID(id);
      match found {
        case Missing => return Done;
        case Broken => return Failed;
        case Found(nep) =>
          var gone := store.DisconnectNetEndpoint(id, f.unlink);
          if !gone {
            return Failed;
          }
          o := DeleteDanglingNetwork(nep, f);
      }
    }

    method AddCNIStartHook(meta: ContainerMeta, f: Faults) returns (o: Outcome)
      modifies meta
      ensures o == HookStart(f) && meta.netns == old(meta.netns)
      ensures meta.saved == if o == Done then meta.netns else old(meta.saved)
    {
      if f.hook {
        return Failed;
      }
      var saved := meta.Save(f.save);
      return if saved then Done else Failed;
    }

    method CreateFixed(meta: ContainerMeta, f: Faults) returns (o: Outcome)
      modifies store, meta
      ensures (store.Now(), o) == HandleCreate(Fixed, old(store.Now()), meta.id, f)
      ensures var found := ByID(old(store.Now()), meta.id);
        o == Done && found.Found? ==> meta.saved == Some(found.nep.ipv4)
    {
      var found := store.GetNetEndpointByID(meta.id);
      match found {
        case Broken => return Failed;
        case Missing => o := AddCNIStartHook(meta, f);
        case Found(nep) => o := BorrowNetEndpoint(meta, nep, f);
      }
    }

    method StartFixed(meta: ContainerMeta, f: Faults) returns (o: Outcome)
      modifies store
      ensures (store.Now(), o) == HandleStart(Fixed, old(store.Now()), meta.id, f)
    {
      var found := store.GetNetEndpointByID(meta.id);
      match found {
        case Broken => return Failed;
        case Missing => o := CreateNetEndpoint(meta, f);
        case Found(_) => return Done;
      }
    }

    method DeleteFixed(meta: ContainerMeta, f: Faults) returns (o: Outcome)
      modifies store
      ensures (store.Now(), o) == HandleDelete(Fixed, old(store.Now()), meta.id, f)
    {
      var found := store.GetNetEndpointByID(meta.id);
      match found {
        case Broken => return Failed;
        case Missing => return Crashed;
        case Found(nep) =>
          var freed := store.FreeNetEndpoint(meta.id, nep, f.unlink);
          return if freed then Done else Failed;
      }
    }

    /** Shared by the two kinds with a specific address. */
    method CreateSpecific(kind: Kind, meta: ContainerMeta, f: Faults) returns (o: Outcome)
      requires kind.FixedSpecific? || kind.Specific?
      modifies store, meta
      ensures (store.Now(), o) == HandleCreate(kind, old(store.Now()), meta.id, f)
      ensures o == Done && ByIP(old(store.Now()), kind.ip).Found? ==> meta.saved == Some(kind.ip)
    {
      if f.lock {
        return Failed;
      }
      store.GetFlock(kind.ip);
      var found := store.GetNetEndpointByIP(kind.ip);
      match found {
        case Broken => return Failed;
        case Missing => o := AddCNIStartHook(meta, f);
        case Found(nep) => o := BorrowNetEndpoint(meta, nep, f);
      }
    }

    method StartFixedSpecific(ip: string, meta: ContainerMeta, f: Faults) returns (o: Outcome)
      modifies store
      ensures (store.Now(), o) == HandleStart(FixedSpecific(ip), old(store.Now()), meta.id, f)
    {
      var found := store.GetNetEndpointByIP(ip);
      match found {
        case Broken => return Failed;
        case Missing => o := CreateNetEndpoint(meta, f);
        case Found(nep) =>
          var ok := store.ConnectNetEndpoint(meta.id, nep, f.connect);
          return if ok then Done else Failed;
      }
    }

    method DeleteSpecific(ip: string, meta: ContainerMeta, f: Faults) returns (o: Outcome)
      modifies store
      ensures (store.Now(), o) == HandleDelete(Specific(ip), old(store.Now()), meta.id, f)
    {
      var found := store.GetNetEndpointByIP(ip);
      match found {
        case Broken => return Failed;
        case Missing => return Done;
        case Found(nep) =>
          var freed := store.FreeNetEndpoint(meta.id, nep, f.unlink);
          if !freed {
            return Failed;
          }
          o := DeleteDanglingNetwork(nep, f);
      }
    }
  }
}
