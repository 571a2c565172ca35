/** The entities shared by the allocator, the store and the helper. */
module Types {

  datatype Option<+T> = None | Some(value: T)

  /** Everything the modelled operations can return as an error. */
  datatype Error =
    | ErrKVNotExists
    | ErrKeyIsBlank
    | ErrEmptyKey        // etcd's own refusal of a blank key
    | ErrUnavailable     // a call that failed and had no effect
    | ErrNoOps
    | ErrAlreadyAssigned // Calico refuses an address that is already assigned
    | ErrNoAddress       // Calico has no address to offer
    | ErrFixedIPNotAllocated
    | ErrIPInUse
    | ErrFixedIPHasBorrower
    | ErrMaxRetryCountExceeded

  datatype IP = IP(poolID: string, address: string)

  datatype Container = Container(id: string, hostName: string)

  /** The bits of a BitStatus word that the program ever sets. */
  datatype Flag = InUse | Retired

  /** `attrs` is None for a nil pointer; a nil and an empty borrower list are one value. */
  datatype IPInfo = IPInfo(poolID: string, address: string, status: set<Flag>, attrs: Option<seq<Container>>)
  {
    function Borrowers(): seq<Container> {
      if attrs.None? then [] else attrs.value
    }
  }

  datatype ContainerInfo = ContainerInfo(container: Container, addresses: seq<IP>)

  /** The record written when a fixed IP is created. */
  function FreshInfo(ip: IP): IPInfo {
    IPInfo(ip.poolID, ip.address, {}, None)
  }
}
