/** Addresses, sockets, flows and clocks shared by every component. */
module Net {
  type U16 = x: int | 0 <= x < 0x1_0000
  type U32 = x: int | 0 <= x < 0x1_0000_0000
  type U128 = x: int | 0 <= x < 0x1_0000_0000_0000_0000_0000_0000_0000_0000

  const TWO_TO_64: nat := 0x1_0000_0000_0000_0000

  datatype Option<+T> = None | Some(value: T)

  datatype Result<+T, +E> = Success(value: T) | Failure(error: E)

  datatype IpAddr = V4(bits: U32) | V6(wide: U128)

  datatype TransportProtocol = Tcp | Udp

  datatype LocalSocket = LocalSocket(ip: IpAddr, port: U16, protocol: TransportProtocol)

  datatype Direction = Inbound | Outbound

  datatype Flow = Flow(
    direction: Direction,
    peer: IpAddr,
    peerPort: Option<U16>,
    bytes: nat,
    localSocket: Option<LocalSocket>,
    peerLocalSocket: Option<LocalSocket>,
    domain: Option<string>)

  datatype ObservedProcess = ObservedProcess(pid: U32, name: Option<string>, path: Option<string>)

  /** Nanoseconds on the monotonic clock. */
  type Instant = nat

  /** A wall-clock time; nothing is assumed about its order. */
  type Time = int

  function Min(a: nat, b: nat): nat {
    if a <= b then a else b
  }

  function SaturatingSince(now: Instant, earlier: Instant): nat {
    if now <= earlier then 0 else now - earlier
  }
}
