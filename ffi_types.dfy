/** Values that cross the C boundary of the port manager, the foreign
    behaviour the boundary relies on, and the errors it reports. */
module FfiTypes {

  datatype Option<+T> = None | Some(value: T)

  /** The `anyhow::Result` of a boundary operation, with the error kinds the
      facade raises. */
  datatype Result<+T> = Ok(value: T) | Err(error: Error)

  newtype byte = x: int | 0 <= x < 0x100
  newtype u16 = x: int | 0 <= x < 0x1_0000

  /** The bytes a `*const c_char` points at, up to (not including) the
      terminating NUL. A null pointer is `None` of `Option<CStr>`. */
  type CStr = s: seq<byte> | 0 !in s

  /** The address of a heap-allocated `Box<dyn Manager>`; a null
      `*mut c_void` is `None` of `Option<Handle>`. */
  type Handle = nat

  /** `std::net::SocketAddr` and `ipnetwork::IpNetwork`: only produced by
      their parsers, never inspected by the boundary. */
  type SocketAddr
  type IpNetwork

  /** The `#[repr(C)]` record `PortMapping` as a caller passes it. */
  datatype PortMapping = PortMapping(
    hostIp: Option<CStr>,
    hostPort: u16,
    containerPort: u16,
    protocol: Option<CStr>)

  /** The `#[repr(C)]` descriptor `PortMappings`: the `(array, length)` pair
      read as the records it covers. */
  datatype PortMappings = PortMappings(records: seq<PortMapping>)

  /** The native port mapping that `PortMappingBuilder` assembles from a
      parsed host address, the container port and the protocol text. */
  datatype NativeMapping = NativeMapping(host: SocketAddr, containerPort: u16, protocol: string)

  /** Foreign behaviour the boundary calls but does not define. Each is a
      pure function of its input:
      - `toStr`: `CStr::to_str`, `None` when the bytes are not UTF-8;
      - `parseSocketAddr`: `str::parse::<SocketAddr>`;
      - `parseNetwork`: `str::parse::<IpNetwork>` (CIDR notation);
      - `builds`: whether `PortMappingBuilder::build` accepts the fields. */
  datatype Env = Env(
    toStr: CStr -> Option<string>,
    parseSocketAddr: string -> Option<SocketAddr>,
    parseNetwork: string -> Option<IpNetwork>,
    builds: (SocketAddr, u16, string) -> bool)

  /** Outcome of `tokio::runtime::Runtime::new()` for one call. */
  datatype RuntimeStatus = Started | Unavailable(reason: string)

  /** The text arguments that go through `CStr::to_str`. */
  datatype TextField = StoragePath | HostIp | Protocol | ContainerNetwork | Id

  datatype Error =
    | NullStoragePath
    | NullPortManager
    | NullId
    | NullContainerNetwork
    | NullPortMappings
    | NullHostIp
    | NullProtocol
    | NotText(field: TextField)
    | BadSocketAddress(text: string)
    | BadContainerNetwork(text: string)
    | MappingRejected
    | RuntimeFailed(reason: string)
    | StorageFailed
    | AddFailed
    | RemoveFailed

  function FieldName(f: TextField): string
  {
    match f
    case StoragePath => "storage path"
    case HostIp => "host IP"
    case Protocol => "protocol"
    case ContainerNetwork => "container network"
    case Id => "ID"
  }

  /** The message the last-error slot receives for `e`: the text of the
      `bail!` that raised it or the outermost `context` wrapped around it. */
  function Message(e: Error): (m: string)
    ensures e.BadSocketAddress? ==> m == "parse socket address " + e.text
    ensures e.BadContainerNetwork? ==> m == "parse container network " + e.text
  {
    match e
    case NullStoragePath => "provided storage path is NULL"
    case NullPortManager => "provided port manager is NULL"
    case NullId => "provided ID is NULL"
    case NullContainerNetwork => "provided container network is NULL"
    case NullPortMappings => "provided port mappings are NULL"
    case NullHostIp => "port mapping host IP is NULL"
    case NullProtocol => "port mapping protocol is NULL"
    case NotText(f) => "convert " + FieldName(f) + " string"
    case BadSocketAddress(t) => "parse socket address " + t
    case BadContainerNetwork(t) => "parse container network " + t
    case MappingRejected => "build port mapping"
    case RuntimeFailed(reason) => reason
    case StorageFailed => "create port manager"
    case AddFailed => "add port mappings"
    case RemoveFailed => "remove port mappings"
  }

  /** An error whose message is a fixed text. */
  predicate FixedText(e: Error)
  {
    !(e.NotText? || e.BadSocketAddress? || e.BadContainerNetwork? || e.RuntimeFailed?)
  }

  /** No fixed message starts like a conversion ("co") or a parse ("pa")
      message. */
  lemma FixedMessageStart(e: Error)
    requires FixedText(e)
    ensures |Message(e)| >= 2
    ensures Message(e)[1] != 'a'
    ensures Message(e)[0] != 'c' || Message(e)[1] != 'o'
  {
    match e
    case NullStoragePath =>
    case NullPortManager =>
    case NullId =>
    case NullContainerNetwork =>
    case NullPortMappings =>
    case NullHostIp =>
    case NullProtocol =>
    case MappingRejected =>
    case StorageFailed =>
    case AddFailed =>
    case RemoveFailed =>
  }

  /** The message names the stage that failed: apart from a runtime
      failure, whose text comes from the operating system, no two errors
      leave the same message in the slot. */
  lemma MessageIdentifiesError(e1: Error, e2: Error)
    requires !e1.RuntimeFailed? && !e2.RuntimeFailed?
    requires Message(e1) == Message(e2)
    ensures e1 == e2
  {
    var m := Message(e1);
    if FixedText(e1) {
      FixedMessageStart(e1);
    }
    if FixedText(e2) {
      FixedMessageStart(e2);
    }
    if e1.NotText? || e2.NotText? {
      assert m[0] == 'c' && m[1] == 'o';
    }
    if e1.BadSocketAddress? || e2.BadSocketAddress? || e1.BadContainerNetwork? || e2.BadContainerNetwork? {
      assert m[1] == 'a';
      if e1.BadSocketAddress? || e2.BadSocketAddress? {
        assert m[6] == 's' && m[..21] == "parse socket address ";
      } else {
        assert m[..24] == "parse container network ";
      }
    }
  }
}
