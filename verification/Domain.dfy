/** Tunnels, operations and the texts they hold, as values. */
module Domain {
  datatype Option<+T> = None | Some(value: T)

  type Name = string
  type TunnelId = string

  /** An IP address once parsed; a 4-in-6 address counts as IPv4, as `net.IP.Equal` has it. */
  datatype IP = IPv4(bits: nat) | IPv6(bits: nat) {
    predicate IsUnspecified() { bits == 0 }

    /** The text `net.IP.String` prints. */
    function Text(): IPText {
      match this
      case IPv4(b) => Dotted(b)
      case IPv6(b) => Colons(b)
    }
  }

  /** The text of an endpoint, told apart as far as the two Go parsers tell texts apart. */
  datatype IPText =
    | Dotted(bits: nat)
    | Mapped(bits: nat)
    | Colons(bits: nat)
    | Zoned(bits: nat, zone: string)
    | Garbage(text: string)
  {
    /** `net.ParseIP`: no zones. */
    function Parse(): Option<IP> {
      match this
      case Dotted(b) => Some(IPv4(b))
      case Mapped(b) => Some(IPv4(b))
      case Colons(b) => Some(IPv6(b))
      case Zoned(_, _) => None
      case Garbage(_) => None
    }
  }

  const BLANK: IPText := Garbage("")

  /** The text of an interface address in CIDR form. */
  datatype CidrText = Cidr4(ip: nat, prefix: nat) | Cidr6(ip: nat, prefix: nat) | BadCidr(text: string)

  datatype TunnelType = Gre | OtherType(text: string)
  datatype Desired = Enabled | Disabled | Deleted
  datatype Actual = Unknown | Pending | Up | Down | Missing | Error

  datatype Tunnel = Tunnel(
    id: TunnelId, name: Name, typ: TunnelType, local: IPText, remote: IPText,
    address: CidrText, peerAddress: IPText, mtu: int, ttl: int, description: string,
    masquerade: bool, desired: Desired, actual: Actual, lastError: string,
    failureCount: int, retryAt: Option<nat>, createdAt: nat, updatedAt: nat)
  {
    /** What the operator asked for: every field the controller must leave alone. */
    function Intent(): Tunnel {
      this.(actual := Unknown, lastError := "", failureCount := 0, retryAt := None, updatedAt := 0)
    }
  }

  datatype TunnelInput = TunnelInput(
    name: Name, typ: TunnelType, local: IPText, remote: IPText, address: CidrText,
    peerAddress: IPText, mtu: int, ttl: int, description: string, masquerade: bool)

  datatype Status = Queued | Running | Success | Failed

  datatype Message = Text(text: string) | Retry(error: string, delay: nat)

  datatype Operation = Operation(
    action: string, resource: TunnelId, status: Status, message: Message,
    createdAt: nat, finishedAt: Option<nat>)
  {
    predicate Open() { status.Queued? || status.Running? }
  }

  const PREFIX: string := "mikrotunnel:"

  /** The alias and rule comment that claim a link or a rule for one tunnel. */
  function Marker(id: TunnelId): string { PREFIX + id }

  lemma MarkerInjective(a: TunnelId, b: TunnelId)
    requires Marker(a) == Marker(b)
    ensures a == b
  {
    assert a == Marker(a)[|PREFIX|..] && b == Marker(b)[|PREFIX|..];
  }

  type Byte = x: int | 0 <= x < 256

  /** Go's `uint8(x)`. */
  function Uint8(x: int): (b: Byte)
    ensures 0 <= x < 256 <==> b == x
  {
    x % 256
  }
}
