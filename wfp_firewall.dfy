/**
 * Construction of Windows Filtering Platform (WFP) filter definitions.
 *
 * The C++ filters are FWPM_FILTER structures built by a hierarchy of
 * template structs: BasicFirewallFilter picks the layer, action and weight,
 * ConditionalFirewallFilter adds a condition buffer that the subclasses fill
 * slot by slot, and the concrete filters (subnet, address, localhost, DHCP,
 * DNS, interface, application, split tunnel, callout) each add a fixed set of
 * conditions or overwrite the callout settings.
 *
 * Here the FWPM_FILTER fields and the condition buffer are the fields of one
 * class, FirewallFilter.  Its constructors are the three base constructors;
 * each concrete filter is a method that runs the base constructor and then
 * the subclass's constructor body on the new object.  GUIDs keep their 128
 * bits; the well-known layer and condition-field GUIDs are named
 * constructors.  IPv4 addresses and masks are bv32, IPv6 addresses 16 bytes.
 */
module WfpFirewall {
  import opened Wrappers

  // ---------------------------------------------------------------------
  // Identifiers and enumerations
  // ---------------------------------------------------------------------

  /** A GUID as its 128 bits. */
  datatype Guid = Guid(bits: bv128)

  /** zeroGuid, the all-zero GUID that stands for "no key". */
  const ZeroGuid: Guid := Guid(0)

  /** FWP_DIRECTION. */
  datatype Direction = Inbound | Outbound

  /** FWP_IP_VERSION. */
  datatype IpVersion = V4 | V6

  /** The FWPM_LAYER_* keys these filters name; any other layer GUID is OtherLayer. */
  datatype LayerKey =
    | AleAuthRecvAcceptV4
    | AleAuthRecvAcceptV6
    | AleAuthConnectV4
    | AleAuthConnectV6
    | InboundIpPacketV4
    | OutboundIpPacketV4
    | OtherLayer(key: Guid)

  /** FWP_ACTION_TYPE. */
  datatype ActionType = Block | Permit | CalloutTerminating | CalloutInspection | CalloutUnknown

  /** The FWPM_CONDITION_* field keys these filters use; any other GUID is OtherField. */
  datatype FieldKey =
    | IpRemoteAddress
    | IpLocalPort
    | IpRemotePort
    | IpLocalInterface
    | AleAppId
    | OtherField(key: Guid)

  /** FWP_MATCH_TYPE; MatchEqual is the zero value. */
  datatype MatchType =
    | MatchEqual | MatchGreater | MatchLess | MatchGreaterOrEqual | MatchLessOrEqual
    | MatchRange | MatchFlagsAllSet | MatchFlagsAnySet | MatchFlagsNoneSet
    | MatchEqualCaseInsensitive | MatchNotEqual | MatchPrefix | MatchNotPrefix

  /** FWPM_FILTER_FLAG_NONE and FWPM_FILTER_FLAG_HAS_PROVIDER_CONTEXT. */
  const FilterFlagNone: bv32 := 0
  const FilterFlagHasProviderContext: bv32 := 0x0000_0004

  /** The length of an IPv6 address in bytes. */
  const Ipv6AddressBytes: nat := 16

  type Bytes16 = s: seq<bv8> | |s| == Ipv6AddressBytes witness seq(16, _ => 0)

  /** The values of a UINT8 field that holds a number. */
  type UInt8 = x: int | 0 <= x < 0x100

  /** FWP_V4_ADDR_AND_MASK. */
  datatype V4AddrAndMask = V4AddrAndMask(addr: bv32, mask: bv32)

  /** FWP_V6_ADDR_AND_MASK. */
  datatype V6AddrAndMask = V6AddrAndMask(addr: Bytes16, prefixLength: UInt8)

  /**
   * FWP_CONDITION_VALUE: the constructor is the data-type tag, its argument
   * the union member that tag selects.  Empty is FWP_EMPTY, the tag of a
   * zeroed condition.
   */
  datatype ConditionValue =
    | Empty
    | Uint8(u8: bv8)
    | Uint16(u16: bv16)
    | Uint32(u32: bv32)
    | Uint64(u64: bv64)
    | ByteArray16(bytes: Bytes16)
    | ByteBlob(blob: seq<bv8>)
    | V4AddrMask(v4: V4AddrAndMask)
    | V6AddrMask(v6: V6AddrAndMask)

  /**
   * FWPM_FILTER_CONDITION, and also the inline Condition<dataType> struct
   * that callers pass to the variadic constructors (same three parts).
   */
  datatype FilterCondition = FilterCondition(fieldKey: FieldKey, matchType: MatchType, conditionValue: ConditionValue)

  /** A value-initialised FWPM_FILTER_CONDITION: zero GUID, FWP_MATCH_EQUAL, FWP_EMPTY. */
  const EmptyCondition: FilterCondition := FilterCondition(OtherField(ZeroGuid), MatchEqual, Empty)

  /** A parsed core::Ipv4Subnet (address in host order, prefix length). */
  datatype Ipv4Subnet = Ipv4Subnet(address: bv32, prefix: int)

  /** A parsed core::Ipv6Subnet (address bytes in network order, prefix length). */
  datatype Ipv6Subnet = Ipv6Subnet(address: Bytes16, prefix: int)

  /** An AppIdKey's byte blob, the value of an FWPM_CONDITION_ALE_APP_ID condition. */
  type AppId = seq<bv8>

  // ---------------------------------------------------------------------
  // Pure rules
  // ---------------------------------------------------------------------

  /** The traffic direction a layer filters, if it is one of the named layers. */
  function LayerDirection(layer: LayerKey): Option<Direction> {
    match layer
    case AleAuthRecvAcceptV4 | AleAuthRecvAcceptV6 | InboundIpPacketV4 => Some(Inbound)
    case AleAuthConnectV4 | AleAuthConnectV6 | OutboundIpPacketV4 => Some(Outbound)
    case OtherLayer(_) => None
  }

  /** The IP version a layer filters, if it is one of the named layers. */
  function LayerIpVersion(layer: LayerKey): Option<IpVersion> {
    match layer
    case AleAuthRecvAcceptV4 | AleAuthConnectV4 | InboundIpPacketV4 | OutboundIpPacketV4 => Some(V4)
    case AleAuthRecvAcceptV6 | AleAuthConnectV6 => Some(V6)
    case OtherLayer(_) => None
  }

  /** The ALE authorisation layers (connect and receive/accept). */
  predicate IsAleAuthLayer(layer: LayerKey) {
    layer.AleAuthRecvAcceptV4? || layer.AleAuthRecvAcceptV6? || layer.AleAuthConnectV4? || layer.AleAuthConnectV6?
  }

  /**
   * The layer of a BasicFirewallFilter: the ALE authorisation layer that
   * filters exactly the given direction and IP version.
   */
  function AuthLayer(direction: Direction, ipVersion: IpVersion): (layer: LayerKey)
    ensures IsAleAuthLayer(layer)
    ensures LayerDirection(layer) == Some(direction)
    ensures LayerIpVersion(layer) == Some(ipVersion)
  {
    match direction
    case Inbound => if ipVersion.V6? then AleAuthRecvAcceptV6 else AleAuthRecvAcceptV4
    case Outbound => if ipVersion.V6? then AleAuthConnectV6 else AleAuthConnectV4
  }

  /** No other ALE authorisation layer has the same direction and IP version. */
  lemma AuthLayerUnique(layer: LayerKey, direction: Direction, ipVersion: IpVersion)
    requires IsAleAuthLayer(layer)
    requires LayerDirection(layer) == Some(direction) && LayerIpVersion(layer) == Some(ipVersion)
    ensures layer == AuthLayer(direction, ipVersion)
  {
  }

  /** Bit i (0 = least significant) of a 32-bit word. */
  predicate MaskBit(m: bv32, i: bv6)
    requires i < 32
  {
    (m >> i) & 1 == 1
  }

  /**
   * The mask an IPv4 subnet filter stores, ~0UL << (32 - prefix) on a 32-bit
   * unsigned long: the top `prefix` bits set and the others clear.  A prefix
   * of 0 would shift by the full width, which C++ leaves undefined.
   */
  function Ipv4Mask(prefix: int): (mask: bv32)
    requires 1 <= prefix <= 32
    ensures forall i: bv6 :: i < 32 ==> (MaskBit(mask, i) <==> i >= 32 - prefix as bv6)
  {
    0xFFFF_FFFF << (32 - prefix as bv6)
  }

  /** The number of leading one bits among the top n bits of m. */
  function LeadingOnes(m: bv32, n: nat): (k: nat)
    requires n <= 32
    ensures k <= n
    decreases n
  {
    if n == 0 || m & 0x8000_0000 == 0 then 0 else 1 + LeadingOnes(m << 1, n - 1)
  }

  /** The prefix length a netmask denotes: its count of leading one bits. */
  function MaskPrefixLength(mask: bv32): nat {
    LeadingOnes(mask, 32)
  }

  /** The top k bits of a 32-bit word, for 0 <= k <= 32. */
  ghost function TopOnes(k: bv6): bv32
    requires k <= 32
  {
    0xFFFF_FFFF << (32 - k)
  }

  lemma TopOnesStep(k: bv6)
    requires 1 <= k <= 32
    ensures TopOnes(k) & 0x8000_0000 != 0
    ensures TopOnes(k) << 1 == TopOnes(k - 1)
  {
  }

  lemma PrefixCastStep(p: nat)
    requires 1 <= p <= 32
    ensures (p as bv6) - 1 == (p - 1) as bv6
  {
  }

  lemma {:induction false} LeadingOnesOfTopOnes(p: nat, n: nat)
    requires p <= n <= 32
    ensures LeadingOnes(TopOnes(p as bv6), n) == p
  {
    if p > 0 {
      TopOnesStep(p as bv6);
      PrefixCastStep(p);
      LeadingOnesOfTopOnes(p - 1, n - 1);
    } else {
      assert TopOnes(0) == 0;
    }
  }

  /**
   * The mask of an IPv4 subnet filter round-trips to its prefix length, and
   * the host bits below the prefix are clear.
   */
  lemma Ipv4MaskRoundTrip(prefix: int)
    requires 1 <= prefix <= 32
    ensures MaskPrefixLength(Ipv4Mask(prefix)) == prefix
    ensures Ipv4Mask(prefix) << (prefix as bv6) == 0
  {
    assert Ipv4Mask(prefix) == TopOnes(prefix as bv6);
    LeadingOnesOfTopOnes(prefix, 32);
  }

  /**
   * The prefix of an IPAddressFilter: 128 for IPv6 and 32 otherwise, so the
   * filter matches every bit of the address.
   */
  function FullPrefixLength(ipVersion: IpVersion): (prefix: nat)
    ensures ipVersion == V4 ==> 1 <= prefix <= 32 && Ipv4Mask(prefix) == 0xFFFF_FFFF
    ensures ipVersion == V6 ==> prefix == 8 * Ipv6AddressBytes
  {
    if ipVersion == V6 then 128 else 32
  }

  /** The conversion of an int prefix to the UINT8 prefixLength field (modulo 256). */
  function PrefixLengthByte(prefix: int): (b: UInt8)
    ensures 0 <= prefix < 0x100 ==> b == prefix
  {
    prefix % 0x100
  }

  /** A parsed IPv4 subnet, or 0.0.0.0/32 when the string did not parse. */
  function Ipv4SubnetOrDefault(parsed: Option<Ipv4Subnet>): (subnet: Ipv4Subnet)
    ensures parsed.Some? ==> subnet == parsed.value
    ensures parsed.None? ==> subnet.address == 0 && subnet.prefix == FullPrefixLength(V4)
  {
    parsed.GetOr(Ipv4Subnet(0, 32))
  }

  /** A parsed IPv6 subnet, or ::/128 when the string did not parse. */
  function Ipv6SubnetOrDefault(parsed: Option<Ipv6Subnet>): (subnet: Ipv6Subnet)
    ensures parsed.Some? ==> subnet == parsed.value
    ensures parsed.None? ==> (forall i :: 0 <= i < 16 ==> subnet.address[i] == 0) && subnet.prefix == FullPrefixLength(V6)
  {
    parsed.GetOr(Ipv6Subnet(seq(16, _ => 0), 128))
  }

  /** 127.0.0.1 in host order. */
  const LoopbackV4: bv32 := 0x7F00_0001

  /** ::1 in network order. */
  const LoopbackV6: Bytes16 := seq(16, i => if i == 15 then 1 else 0)

  /** ff00::/8, the IPv6 multicast range DHCPv6 servers listen on. */
  const MulticastV6: Bytes16 := seq(16, i => if i == 0 then 0xFF else 0)

  // ---------------------------------------------------------------------
  // The filter object and its condition buffer
  // ---------------------------------------------------------------------

  /**
   * An FWPM_FILTER under construction.  `conditions` is the condition buffer
   * (ConditionalFirewallFilter::conditions), `conditionIndex` the next slot
   * to write, and `filterCondition` the pointer FWPM_FILTER keeps to the
   * buffer (null when it is empty).  Filters without conditions have an
   * empty buffer.
   */
  class FirewallFilter {
    var layerKey: LayerKey
    var actionType: ActionType
    var calloutKey: Guid
    var subLayerKey: Guid
    var weight: bv8
    var flags: bv32
    var providerContextKey: Guid
    var numFilterConditions: nat
    var filterCondition: array?<FilterCondition>
    const conditions: array<FilterCondition>
    var conditionIndex: nat

    ghost predicate Valid()
      reads this
    {
      && conditionIndex <= conditions.Length
      && numFilterConditions == conditions.Length
      && filterCondition == (if conditions.Length == 0 then null else conditions)
    }

    /** Every slot of the condition buffer has been written exactly once. */
    ghost predicate Filled()
      reads this
    {
      conditionIndex == conditions.Length
    }

    ghost predicate HasProviderContext()
      reads this
    {
      flags & FilterFlagHasProviderContext != 0
    }

    /** The settings BasicFirewallFilter gives, with every other field at its zero value. */
    ghost predicate HasBasicSettings(action: ActionType, direction: Direction, ipVersion: IpVersion, w: bv8)
      reads this
    {
      && layerKey == AuthLayer(direction, ipVersion)
      && actionType == action
      && weight == w
      && calloutKey == ZeroGuid
      && subLayerKey == ZeroGuid
      && flags == FilterFlagNone
      && providerContextKey == ZeroGuid
    }

    /** The settings CalloutFilter and CalloutDNSFilter give. */
    ghost predicate HasCalloutSettings(callout: Guid, layer: LayerKey, sublayer: Guid, w: bv8)
      reads this
    {
      && layerKey == layer
      && actionType == CalloutTerminating
      && calloutKey == callout
      && subLayerKey == sublayer
      && weight == w
    }

    /** BasicFirewallFilter (also EverythingFilter): layer, action and weight, no conditions. */
    constructor Basic(action: ActionType, direction: Direction, ipVersion: IpVersion, weight: bv8)
      ensures Valid() && Filled() && conditions.Length == 0
      ensures HasBasicSettings(action, direction, ipVersion, weight)
    {
      layerKey := AuthLayer(direction, ipVersion);
      actionType := action;
      this.weight := weight;
      calloutKey, subLayerKey, providerContextKey := ZeroGuid, ZeroGuid, ZeroGuid;
      flags := FilterFlagNone;
      conditions := new FilterCondition[0](_ => EmptyCondition);
      numFilterConditions := 0;
      filterCondition := null;
      conditionIndex := 0;
    }

    /**
     * ConditionalFirewallFilter: a basic filter whose buffer has room for
     * conditionCount conditions of the subclass after the inline conditions,
     * which are written first, in argument order.
     */
    constructor Conditional(conditionCount: nat, action: ActionType, direction: Direction, ipVersion: IpVersion,
                            weight: bv8, inlineConditions: seq<FilterCondition>)
      ensures Valid() && fresh(conditions)
      ensures HasBasicSettings(action, direction, ipVersion, weight)
      ensures numFilterConditions == conditionCount + |inlineConditions|
      ensures (filterCondition == null) <==> numFilterConditions == 0
      ensures conditionIndex == |inlineConditions|
      ensures conditions[..] == inlineConditions + seq(conditionCount, _ => EmptyCondition)
    {
      var total := conditionCount + |inlineConditions|;
      var buffer := new FilterCondition[total](_ => EmptyCondition);
      layerKey := AuthLayer(direction, ipVersion);
      actionType := action;
      this.weight := weight;
      calloutKey, subLayerKey, providerContextKey := ZeroGuid, ZeroGuid, ZeroGuid;
      flags := FilterFlagNone;
      conditions := buffer;
      numFilterConditions := total;
      filterCondition := if total == 0 then null else buffer;
      conditionIndex := 0;
      new;
      ProcessInlineConditions(inlineConditions);
      assert conditions[..] == inlineConditions + seq(conditionCount, _ => EmptyCondition);
    }

    /** CalloutFilter: hands matching traffic to a callout in the product's sublayer. */
    constructor Callout(calloutKey: Guid, layerKey: LayerKey, sublayerKey: Guid, weight: bv8)
      ensures Valid() && Filled() && conditions.Length == 0
      ensures HasCalloutSettings(calloutKey, layerKey, sublayerKey, weight)
      ensures flags == FilterFlagNone && providerContextKey == ZeroGuid
    {
      this.layerKey := layerKey;
      actionType := CalloutTerminating;
      this.calloutKey := calloutKey;
      subLayerKey := sublayerKey;
      this.weight := weight;
      flags := FilterFlagNone;
      providerContextKey := ZeroGuid;
      conditions := new FilterCondition[0](_ => EmptyCondition);
      numFilterConditions := 0;
      filterCondition := null;
      conditionIndex := 0;
    }

    /**
     * setCondition: writes the slot at conditionIndex and moves to the next
     * one; every other slot is unchanged.  The caller must leave room.
     */
    method SetCondition(fieldKey: FieldKey, matchType: MatchType, value: ConditionValue)
      requires Valid() && conditionIndex < conditions.Length
      modifies this`conditionIndex, conditions
      ensures Valid()
      ensures conditionIndex == old(conditionIndex) + 1
      ensures conditions[..] == old(conditions[..])[old(conditionIndex) := FilterCondition(fieldKey, matchType, value)]
    {
      conditions[conditionIndex] := FilterCondition(fieldKey, matchType, value);
      conditionIndex := conditionIndex + 1;
    }

    /** processInlineConditions: writes the given conditions in order from conditionIndex on. */
    method ProcessInlineConditions(inlineConditions: seq<FilterCondition>)
      requires Valid() && conditionIndex + |inlineConditions| <= conditions.Length
      modifies this`conditionIndex, conditions
      ensures Valid()
      ensures conditionIndex == old(conditionIndex) + |inlineConditions|
      ensures conditions[..] == old(conditions[..])[..old(conditionIndex)] + inlineConditions
                                + old(conditions[..])[old(conditionIndex) + |inlineConditions|..]
      decreases |inlineConditions|
    {
      if inlineConditions != [] {
        var first := inlineConditions[0];
        SetCondition(first.fieldKey, first.matchType, first.conditionValue);
        ProcessInlineConditions(inlineConditions[1..]);
      }
    }
  }

  // ---------------------------------------------------------------------
  // The concrete filters: base constructor, then the subclass's body
  // ---------------------------------------------------------------------

  /** IpInboundFilter / IpOutboundFilter: a callout at the inbound or outbound IPv4 packet layer. */
  method NewIpPacketFilter(direction: Direction, calloutKey: Guid, provCtxt: Guid, sublayerKey: Guid, weight: bv8)
    returns (f: FirewallFilter)
    ensures fresh(f) && f.Valid() && f.Filled() && f.conditions.Length == 0
    ensures f.HasCalloutSettings(calloutKey, if direction == Inbound then InboundIpPacketV4 else OutboundIpPacketV4,
                                 sublayerKey, weight)
    ensures f.HasProviderContext() <==> provCtxt != ZeroGuid
    ensures f.flags == if provCtxt != ZeroGuid then FilterFlagHasProviderContext else FilterFlagNone
    ensures f.providerContextKey == provCtxt
  {
    var layer := if direction == Inbound then InboundIpPacketV4 else OutboundIpPacketV4;
    f := new FirewallFilter.Callout(calloutKey, layer, sublayerKey, weight);
    if provCtxt != ZeroGuid {
      f.flags := f.flags | FilterFlagHasProviderContext;
      f.providerContextKey := provCtxt;
    }
  }

  /** IPSubnetFilter<V4>(address, prefix): matches remote addresses in addr/prefix. */
  method NewIpSubnetFilterV4(action: ActionType, direction: Direction, addr: bv32, prefix: int, weight: bv8)
    returns (f: FirewallFilter)
    requires 1 <= prefix <= 32
    ensures fresh(f) && f.Valid() && f.Filled()
    ensures f.HasBasicSettings(action, direction, V4, weight)
    ensures f.conditions[..] == [FilterCondition(IpRemoteAddress, MatchEqual, V4AddrMask(V4AddrAndMask(addr, Ipv4Mask(prefix))))]
  {
    f := new FirewallFilter.Conditional(1, action, direction, V4, weight, []);
    var address := V4AddrAndMask(addr, Ipv4Mask(prefix));
    f.SetCondition(IpRemoteAddress, MatchEqual, V4AddrMask(address));
  }

  /**
   * IPSubnetFilter<V4>(string): the subnet the parser produced, or 0.0.0.0/32
   * when it threw (parsed == None).
   */
  method NewIpSubnetFilterV4FromString(action: ActionType, direction: Direction, parsed: Option<Ipv4Subnet>, weight: bv8)
    returns (f: FirewallFilter)
    requires parsed.Some? ==> 1 <= parsed.value.prefix <= 32
    ensures fresh(f) && f.Valid() && f.Filled()
    ensures f.HasBasicSettings(action, direction, V4, weight)
    ensures parsed.None? ==> f.conditions[..] == [FilterCondition(IpRemoteAddress, MatchEqual, V4AddrMask(V4AddrAndMask(0, 0xFFFF_FFFF)))]
    ensures parsed.Some? ==> f.conditions[..] == [FilterCondition(IpRemoteAddress, MatchEqual,
                                                    V4AddrMask(V4AddrAndMask(parsed.value.address, Ipv4Mask(parsed.value.prefix))))]
  {
    f := new FirewallFilter.Conditional(1, action, direction, V4, weight, []);
    var subnet := Ipv4SubnetOrDefault(parsed);
    var address := V4AddrAndMask(subnet.address, Ipv4Mask(subnet.prefix));
    f.SetCondition(IpRemoteAddress, MatchEqual, V4AddrMask(address));
  }

  /** IPSubnetFilter<V6>(address, prefix): matches remote addresses in addr/prefix. */
  method NewIpSubnetFilterV6(action: ActionType, direction: Direction, addr: Bytes16, prefix: int, weight: bv8)
    returns (f: FirewallFilter)
    ensures fresh(f) && f.Valid() && f.Filled()
    ensures f.HasBasicSettings(action, direction, V6, weight)
    ensures f.conditions[..] == [FilterCondition(IpRemoteAddress, MatchEqual, V6AddrMask(V6AddrAndMask(addr, PrefixLengthByte(prefix))))]
  {
    f := new FirewallFilter.Conditional(1, action, direction, V6, weight, []);
    var address := V6AddrAndMask(addr, PrefixLengthByte(prefix));
    f.SetCondition(IpRemoteAddress, MatchEqual, V6AddrMask(address));
  }

  /** IPSubnetFilter<V6>(string): the parsed subnet, or ::/128 when parsing threw. */
  method NewIpSubnetFilterV6FromString(action: ActionType, direction: Direction, parsed: Option<Ipv6Subnet>, weight: bv8)
    returns (f: FirewallFilter)
    ensures fresh(f) && f.Valid() && f.Filled()
    ensures f.HasBasicSettings(action, direction, V6, weight)
    ensures parsed.None? ==> f.conditions[..] == [FilterCondition(IpRemoteAddress, MatchEqual, V6AddrMask(V6AddrAndMask(seq(16, _ => 0), 128)))]
    ensures parsed.Some? ==> f.conditions[..] == [FilterCondition(IpRemoteAddress, MatchEqual,
                                                    V6AddrMask(V6AddrAndMask(parsed.value.address, PrefixLengthByte(parsed.value.prefix))))]
  {
    f := new FirewallFilter.Conditional(1, action, direction, V6, weight, []);
    var subnet := Ipv6SubnetOrDefault(parsed);
    var address := V6AddrAndMask(subnet.address, PrefixLengthByte(subnet.prefix));
    f.SetCondition(IpRemoteAddress, MatchEqual, V6AddrMask(address));
  }

  /** IPAddressFilter<V4>: a subnet filter with the full 32-bit prefix. */
  method NewIpAddressFilterV4(action: ActionType, direction: Direction, addr: bv32, weight: bv8)
    returns (f: FirewallFilter)
    ensures fresh(f) && f.Valid() && f.Filled()
    ensures f.HasBasicSettings(action, direction, V4, weight)
    ensures f.conditions[..] == [FilterCondition(IpRemoteAddress, MatchEqual, V4AddrMask(V4AddrAndMask(addr, 0xFFFF_FFFF)))]
  {
    f := NewIpSubnetFilterV4(action, direction, addr, FullPrefixLength(V4), weight);
  }

  /** IPAddressFilter<V6>: a subnet filter with the full 128-bit prefix. */
  method NewIpAddressFilterV6(action: ActionType, direction: Direction, addr: Bytes16, weight: bv8)
    returns (f: FirewallFilter)
    ensures fresh(f) && f.Valid() && f.Filled()
    ensures f.HasBasicSettings(action, direction, V6, weight)
    ensures f.conditions[..] == [FilterCondition(IpRemoteAddress, MatchEqual, V6AddrMask(V6AddrAndMask(addr, 128)))]
  {
    f := NewIpSubnetFilterV6(action, direction, addr, FullPrefixLength(V6), weight);
  }

  /** LocalhostFilter<V4>: the address filter for 127.0.0.1. */
  method NewLocalhostFilterV4(action: ActionType, direction: Direction, weight: bv8)
    returns (f: FirewallFilter)
    ensures fresh(f) && f.Valid() && f.Filled()
    ensures f.HasBasicSettings(action, direction, V4, weight)
    ensures f.conditions[..] == [FilterCondition(IpRemoteAddress, MatchEqual, V4AddrMask(V4AddrAndMask(0x7F00_0001, 0xFFFF_FFFF)))]
  {
    f := NewIpAddressFilterV4(action, direction, LoopbackV4, weight);
  }

  /** LocalhostFilter<V6>: the address filter for ::1. */
  method NewLocalhostFilterV6(action: ActionType, direction: Direction, weight: bv8)
    returns (f: FirewallFilter)
    ensures fresh(f) && f.Valid() && f.Filled()
    ensures f.HasBasicSettings(action, direction, V6, weight)
    ensures f.conditions[..] == [FilterCondition(IpRemoteAddress, MatchEqual, V6AddrMask(V6AddrAndMask(LoopbackV6, 128)))]
  {
    f := NewIpAddressFilterV6(action, direction, LoopbackV6, weight);
  }

  /** DHCPFilter<V4>: outbound from client port 68 to server port 67 at 255.255.255.255/32. */
  method NewDhcpFilterV4(action: ActionType, weight: bv8) returns (f: FirewallFilter)
    ensures fresh(f) && f.Valid() && f.Filled()
    ensures f.HasBasicSettings(action, Outbound, V4, weight)
    ensures f.conditions[..] == [
              FilterCondition(IpLocalPort, MatchEqual, Uint16(68)),
              FilterCondition(IpRemotePort, MatchEqual, Uint16(67)),
              FilterCondition(IpRemoteAddress, MatchEqual, V4AddrMask(V4AddrAndMask(0xFFFF_FFFF, 0xFFFF_FFFF)))]
  {
    f := new FirewallFilter.Conditional(3, action, Outbound, V4, weight, []);
    f.SetCondition(IpLocalPort, MatchEqual, Uint16(68));
    f.SetCondition(IpRemotePort, MatchEqual, Uint16(67));
    var address := V4AddrAndMask(0xFFFF_FFFF, 0xFFFF_FFFF);
    f.SetCondition(IpRemoteAddress, MatchEqual, V4AddrMask(address));
  }

  /** DHCPFilter<V6>: outbound from client port 546 to server port 547 at ff00::/8. */
  method NewDhcpFilterV6(action: ActionType, weight: bv8) returns (f: FirewallFilter)
    ensures fresh(f) && f.Valid() && f.Filled()
    ensures f.HasBasicSettings(action, Outbound, V6, weight)
    ensures f.conditions[..] == [
              FilterCondition(IpLocalPort, MatchEqual, Uint16(546)),
              FilterCondition(IpRemotePort, MatchEqual, Uint16(547)),
              FilterCondition(IpRemoteAddress, MatchEqual, V6AddrMask(V6AddrAndMask(MulticastV6, 8)))]
  {
    f := new FirewallFilter.Conditional(3, action, Outbound, V6, weight, []);
    f.SetCondition(IpLocalPort, MatchEqual, Uint16(546));
    f.SetCondition(IpRemotePort, MatchEqual, Uint16(547));
    var address := V6AddrAndMask(MulticastV6, 8);
    f.SetCondition(IpRemoteAddress, MatchEqual, V6AddrMask(address));
  }

  /** DNSFilter: outbound to remote port 53. */
  method NewDnsFilter(action: ActionType, ipVersion: IpVersion, weight: bv8) returns (f: FirewallFilter)
    ensures fresh(f) && f.Valid() && f.Filled()
    ensures f.HasBasicSettings(action, Outbound, ipVersion, weight)
    ensures f.conditions[..] == [FilterCondition(IpRemotePort, MatchEqual, Uint16(53))]
  {
    f := new FirewallFilter.Conditional(1, action, Outbound, ipVersion, weight, []);
    f.SetCondition(IpRemotePort, MatchEqual, Uint16(53));
  }

  /** CalloutDNSFilter: the DNS filter handed to a callout at the given layer. */
  method NewCalloutDnsFilter(ipVersion: IpVersion, calloutKey: Guid, layerKey: LayerKey, sublayerKey: Guid, weight: bv8)
    returns (f: FirewallFilter)
    ensures fresh(f) && f.Valid() && f.Filled()
    ensures f.HasCalloutSettings(calloutKey, layerKey, sublayerKey, weight)
    ensures f.flags == FilterFlagNone && f.providerContextKey == ZeroGuid
    ensures f.conditions[..] == [FilterCondition(IpRemotePort, MatchEqual, Uint16(53))]
  {
    f := NewDnsFilter(CalloutTerminating, ipVersion, weight);
    f.layerKey := layerKey;
    f.actionType := CalloutTerminating;
    f.calloutKey := calloutKey;
    f.subLayerKey := sublayerKey;
    f.weight := weight;
  }

  /** InterfaceFilter: matches the local interface with the given LUID. */
  method NewInterfaceFilter(action: ActionType, direction: Direction, ipVersion: IpVersion, interfaceLuid: bv64, weight: bv8)
    returns (f: FirewallFilter)
    ensures fresh(f) && f.Valid() && f.Filled()
    ensures f.HasBasicSettings(action, direction, ipVersion, weight)
    ensures f.conditions[..] == [FilterCondition(IpLocalInterface, MatchEqual, Uint64(interfaceLuid))]
  {
    f := new FirewallFilter.Conditional(1, action, direction, ipVersion, weight, []);
    f.SetCondition(IpLocalInterface, MatchEqual, Uint64(interfaceLuid));
  }

  /**
   * ApplicationFilter: the inline conditions, then the application's ID.
   * appId is the AppIdKey built from the application path.
   */
  method NewApplicationFilter(action: ActionType, direction: Direction, ipVersion: IpVersion, appId: AppId, weight: bv8,
                              inlineConditions: seq<FilterCondition>)
    returns (f: FirewallFilter)
    ensures fresh(f) && f.Valid() && f.Filled()
    ensures f.HasBasicSettings(action, direction, ipVersion, weight)
    ensures f.numFilterConditions == |inlineConditions| + 1
    ensures f.conditions[..] == inlineConditions + [FilterCondition(AleAppId, MatchEqual, ByteBlob(appId))]
  {
    f := new FirewallFilter.Conditional(1, action, direction, ipVersion, weight, inlineConditions);
    f.SetCondition(AleAppId, MatchEqual, ByteBlob(appId));
  }

  /** AppDNSFilter: the inline conditions, then remote port 53, then the application's ID. */
  method NewAppDnsFilter(action: ActionType, direction: Direction, ipVersion: IpVersion, appId: AppId, weight: bv8,
                         inlineConditions: seq<FilterCondition>)
    returns (f: FirewallFilter)
    requires appId != []
    ensures fresh(f) && f.Valid() && f.Filled()
    ensures f.HasBasicSettings(action, direction, ipVersion, weight)
    ensures f.numFilterConditions == |inlineConditions| + 2
    ensures f.conditions[..] == inlineConditions + [FilterCondition(IpRemotePort, MatchEqual, Uint16(53)),
                                                    FilterCondition(AleAppId, MatchEqual, ByteBlob(appId))]
  {
    f := new FirewallFilter.Conditional(2, action, direction, ipVersion, weight, inlineConditions);
    f.SetCondition(IpRemotePort, MatchEqual, Uint16(53));
    f.SetCondition(AleAppId, MatchEqual, ByteBlob(appId));
  }

  /** AppIdFilter: outbound traffic of one application. */
  method NewAppIdFilter(ipVersion: IpVersion, action: ActionType, appId: AppId, weight: bv8) returns (f: FirewallFilter)
    requires appId != []
    ensures fresh(f) && f.Valid() && f.Filled()
    ensures f.HasBasicSettings(action, Outbound, ipVersion, weight)
    ensures f.conditions[..] == [FilterCondition(AleAppId, MatchEqual, ByteBlob(appId))]
  {
    f := new FirewallFilter.Conditional(1, action, Outbound, ipVersion, weight, []);
    f.SetCondition(AleAppId, MatchEqual, ByteBlob(appId));
  }

  /**
   * SplitFilter: the permit AppIdFilter re-pointed at a callout, always with
   * the provider context.
   */
  method NewSplitFilter(ipVersion: IpVersion, appId: AppId, calloutKey: Guid, layerKey: LayerKey, provCtxt: Guid,
                        action: ActionType, sublayerKey: Guid, weight: bv8)
    returns (f: FirewallFilter)
    requires appId != []
    ensures fresh(f) && f.Valid() && f.Filled()
    ensures f.layerKey == layerKey && f.actionType == action && f.calloutKey == calloutKey
    ensures f.subLayerKey == sublayerKey && f.weight == weight
    ensures f.HasProviderContext() && f.flags == FilterFlagHasProviderContext
    ensures f.providerContextKey == provCtxt
    ensures f.conditions[..] == [FilterCondition(AleAppId, MatchEqual, ByteBlob(appId))]
  {
    f := NewAppIdFilter(ipVersion, Permit, appId, weight);
    f.layerKey := layerKey;
    f.actionType := action;
    f.calloutKey := calloutKey;
    f.subLayerKey := sublayerKey;
    f.flags := f.flags | FilterFlagHasProviderContext;
    f.providerContextKey := provCtxt;
  }
}
