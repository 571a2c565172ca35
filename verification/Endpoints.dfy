/** The directory behind the CNI endpoint store, and what each store call does to it. */
module Endpoints {
  import opened Types

  /**
   Files by kind: owner and tenant files per IP, bind-mounted netns files per IP, symlinks per container
   (each to the netns file of an IP), and flock files per IP. Container ids and IPs never clash.
   */
  datatype Dir = Dir(
    owner: map<string, string>,
    tenant: map<string, string>,
    netns: set<string>,
    links: map<string, string>,
    flocks: set<string>)

  datatype NetEndpoint = NetEndpoint(ipv4: string, owner: string)

  /** A lookup finds an endpoint, finds none, or fails. */
  datatype Lookup = Found(nep: NetEndpoint) | Missing | Broken

  function Without<T>(m: map<string, T>, k: string): map<string, T> {
    map j | j in m && j != k :: m[j]
  }

  function ByIP(d: Dir, ip: string): Lookup {
    if ip !in d.netns then Missing
    else if ip !in d.owner then Broken
    else Found(NetEndpoint(ip, d.owner[ip]))
  }

  /** A link is followed: one whose target is gone counts as missing. */
  function ByID(d: Dir, id: string): Lookup {
    if id !in d.links then Missing else ByIP(d, d.links[id])
  }

  function Connected(d: Dir, id: string, ip: string): Dir {
    if id in d.links then d else d.(links := d.links[id := ip])
  }

  function Disconnected(d: Dir, id: string): Dir {
    d.(links := Without(d.links, id))
  }

  function Created(d: Dir, ip: string, id: string): Dir {
    d.(owner := d.owner[ip := id], netns := d.netns + {ip})
  }

  function Deleted(d: Dir, ip: string): Dir {
    Dir(Without(d.owner, ip), Without(d.tenant, ip), d.netns - {ip}, d.links, d.flocks - {ip})
  }

  function Occupied(d: Dir, id: string, ip: string): Dir {
    d.(tenant := d.tenant[ip := id])
  }

  predicate CanFree(d: Dir, id: string, ip: string) {
    ip in d.tenant && d.tenant[ip] == id
  }

  function Freed(d: Dir, id: string, ip: string): Dir {
    if CanFree(d, id, ip) then d.(tenant := Without(d.tenant, ip)) else d
  }

  function LinksTo(d: Dir, ip: string): set<string> {
    set id | id in d.links && d.links[id] == ip
  }

  /** Links to the endpoint, plus one for a tenant. */
  function Refcount(d: Dir, ip: string): nat {
    |LinksTo(d, ip)| + if ip in d.tenant then 1 else 0
  }

  datatype Entry = Link(name: string) | File(name: string)

  /** What a directory listing shows. */
  function Listing(d: Dir): set<Entry> {
    (set id | id in d.links :: Link(id))
    + (set ip | ip in d.netns :: File(ip))
    + (set ip | ip in d.owner :: File(ip + "-owner"))
    + (set ip | ip in d.tenant :: File(ip + "-tenant"))
    + (set ip | ip in d.flocks :: File(ip + "-flock"))
  }

  /** The store. `faults` names the calls that are made to fail, without effect. */
  class FSStore {
    var owner: map<string, string>
    var tenant: map<string, string>
    var netns: set<string>
    var links: map<string, string>
    var flocks: set<string>

    function Now(): Dir
      reads this
    {
      Dir(owner, tenant, netns, links, flocks)
    }

    method GetNetEndpointByIP(ip: string) returns (r: Lookup)
      ensures r == ByIP(Now(), ip)
    {
      if ip !in netns {
        return Missing;
      }
      if ip !in owner {
        return Broken;
      }
      return Found(NetEndpoint(ip, owner[ip]));
    }

    method GetNetEndpointByID(id: string) returns (r: Lookup)
      ensures r == ByID(Now(), id)
    {
      if id !in links || links[id] !in netns {
        return Missing;
      }
      if links[id] !in owner {
        return Broken;
      }
      return Found(NetEndpoint(links[id], owner[links[id]]));
    }

    method ConnectNetEndpoint(id: string, nep: NetEndpoint, fails: bool) returns (ok: bool)
      modifies this
      ensures ok == !fails
      ensures Now() == if fails then old(Now()) else Connected(old(Now()), id, nep.ipv4)
    {
      if fails {
        return false;
      }
      if id !in links {
        links := links[id := nep.ipv4];
      }
      return true;
    }

    /** Succeeds if the link is gone afterwards, whether or not it could be removed. */
    method DisconnectNetEndpoint(id: string, fails: bool) returns (ok: bool)
      modifies this
      ensures Now() == if fails then old(Now()) else Disconnected(old(Now()), id)
      ensures ok <==> id !in links
    {
      if !fails {
        links := Without(links, id);
      }
      return id !in links;
    }

    /** The owner file is created exclusively: an existing one fails the call. */
    method CreateNetEndpoint(id: string, ip: string, fails: bool) returns (nep: Option<NetEndpoint>)
      modifies this
      ensures nep == if fails || ip in old(owner) then None else Some(NetEndpoint(ip, id))
      ensures Now() == if nep.None? then old(Now()) else Created(old(Now()), ip, id)
    {
      if fails || ip in owner {
        return None;
      }
      owner := owner[ip := id];
      netns := netns + {ip};
      return Some(NetEndpoint(ip, id));
    }

    method DeleteNetEndpoint(nep: NetEndpoint)
      modifies this
      ensures Now() == Deleted(old(Now()), nep.ipv4)
    {
      tenant := Without(tenant, nep.ipv4);
      owner := Without(owner, nep.ipv4);
      flocks := flocks - {nep.ipv4};
      netns := netns - {nep.ipv4};
    }

    /** The tenant file is created exclusively too; if it cannot be written it stays behind, empty. */
    method OccupyNetEndpoint(id: string, nep: NetEndpoint, fails: bool, unwritten: bool) returns (ok: bool)
      modifies this
      ensures ok == (!fails && nep.ipv4 !in old(tenant) && !unwritten)
      ensures Now() ==
        if fails || nep.ipv4 in old(tenant) then old(Now())
        else Occupied(old(Now()), if unwritten then "" else id, nep.ipv4)
    {
      if fails || nep.ipv4 in tenant {
        return false;
      }
      if unwritten {
        tenant := tenant[nep.ipv4 := ""];
        return false;
      }
      tenant := tenant[nep.ipv4 := id];
      return true;
    }

    /** Only the tenant frees the endpoint, and only if the tenant file can be removed. */
    method FreeNetEndpoint(id: string, nep: NetEndpoint, fails: bool) returns (ok: bool)
      modifies this
      ensures ok == (CanFree(old(Now()), id, nep.ipv4) && !fails)
      ensures Now() == if fails then old(Now()) else Freed(old(Now()), id, nep.ipv4)
    {
      if nep.ipv4 !in tenant || tenant[nep.ipv4] != id {
        return false;
      }
      if fails {
        return false;
      }
      tenant := Without(tenant, nep.ipv4);
      return true;
    }

    /** Scans the directory in any order, counting the links to the endpoint, and looks for a tenant file. */
    method GetNetEndpointRefcount(nep: NetEndpoint) returns (rc: nat)
      ensures rc == Refcount(Now(), nep.ipv4)
    {
      rc := 0;
      var files := Listing(Now());
      ghost var counted: set<string> := {};
      while files != {}
        invariant files <= Listing(Now())
        invariant forall id :: id in counted <==> id in links && links[id] == nep.ipv4 && Link(id) !in files
        invariant rc == |counted|
        decreases files
      {
        var file :| file in files;
        files := files - {file};
        if file.Link? && links[file.name] == nep.ipv4 {
          counted := counted + {file.name};
          rc := rc + 1;
        }
      }
      assert counted == LinksTo(Now(), nep.ipv4);
      if nep.ipv4 in tenant {
        rc := rc + 1;
      }
    }

    /** Opening a lock creates its file, which outlives the lock. */
    method GetFlock(ip: string)
      modifies this
      ensures Now() == old(Now()).(flocks := old(flocks) + {ip})
    {
      flocks := flocks + {ip};
    }
  }

  // ----- tenancy, over every sequence of store calls

  datatype Call =
    | Connect(id: string, ip: string)
    | Disconnect(id: string)
    | Create(id: string, ip: string)
    | Delete(ip: string)
    | Occupy(id: string, ip: string)
    | Free(id: string, ip: string)
    | Flock(ip: string)

  function Step(d: Dir, call: Call): Dir {
    match call
    case Connect(id, ip) => Connected(d, id, ip)
    case Disconnect(id) => Disconnected(d, id)
    case Create(id, ip) => if ip in d.owner then d else Created(d, ip, id)
    case Delete(ip) => Deleted(d, ip)
    case Occupy(id, ip) => if ip in d.tenant then d else Occupied(d, id, ip)
    case Free(id, ip) => Freed(d, id, ip)
    case Flock(ip) => d.(flocks := d.flocks + {ip})
  }

  function Steps(d: Dir, calls: seq<Call>): Dir
    decreases |calls|
  {
    if calls == [] then d else Steps(Step(d, calls[0]), calls[1..])
  }

  /** A tenant c stays tenant until c frees the endpoint or the endpoint is deleted, whatever else is called. */
  lemma {:induction false} TenantStays(d: Dir, calls: seq<Call>, ip: string, c: string)
    requires ip in d.tenant && d.tenant[ip] == c
    requires Free(c, ip) !in calls && Delete(ip) !in calls
    ensures var d' := Steps(d, calls);
      ip in d'.tenant && d'.tenant[ip] == c
    decreases |calls|
  {
    if calls != [] {
      assert forall x :: x in calls[1..] ==> x in calls;
      assert calls[0] in calls;
      TenantStays(Step(d, calls[0]), calls[1..], ip, c);
    }
  }
}
