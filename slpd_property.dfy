/** The daemon's configuration snapshot `G_SlpdProperty` and the derivation that
    fills it from the property store at start-up (openslp/slpd/slpd_property.c; the
    line numbers in the comments below refer to that file). */
module Slpd {

  import opened Wrappers
  import opened Properties

  /** `SLPD_CONFIG_DA_FIND`: the shortest active DA discovery interval, in seconds. */
  const DA_FIND: int := 900

  /** The advertisement URL schemes of a Directory Agent and a Service Agent
      (RFC 2608, sections 8.5 and 8.6). */
  const DA_SERVICE_TYPE: string := "service:directory-agent"
  const SA_SERVICE_TYPE: string := "service:service-agent"

  const TWO_32: int := 0x1_0000_0000

  /** The names of the properties the daemon reads. */
  const IS_DA: string := "net.slp.isDA"
  const ACTIVE_DA_DETECTION: string := "net.slp.activeDADetection"
  const DA_ACTIVE_DISCOVERY_INTERVAL: string := "net.slp.DAActiveDiscoveryInterval"
  const DA_ADDRESSES: string := "net.slp.DAAddresses"
  const USE_SCOPES: string := "net.slp.useScopes"
  const LOCALE: string := "net.slp.locale"
  const INTERFACES: string := "net.slp.interfaces"
  const PASSIVE_DA_DETECTION: string := "net.slp.passiveDADetection"
  const IS_BROADCAST_ONLY: string := "net.slp.isBroadcastOnly"
  const MULTICAST_TTL: string := "net.slp.multicastTTL"
  const MULTICAST_MAXIMUM_WAIT: string := "net.slp.multicastMaximumWait"
  const UNICAST_MAXIMUM_WAIT: string := "net.slp.unicastMaximumWait"
  const RANDOM_WAIT_BOUND: string := "net.slp.randomWaitBound"
  const MAX_RESULTS: string := "net.slp.maxResults"
  const TRACE_MSG: string := "net.slp.traceMsg"
  const TRACE_REG: string := "net.slp.traceReg"
  const TRACE_DROP: string := "net.slp.traceDrop"
  const TRACE_DA_TRAFFIC: string := "net.slp.traceDATraffic"
  const SECURITY_ENABLED: string := "net.slp.securityEnabled"
  const CHECK_SOURCE_ADDR: string := "net.slp.checkSourceAddr"
  const DA_HEART_BEAT: string := "net.slp.DAHeartBeat"

  /** The address family handed to the interface resolver
      (`AF_UNSPEC`, `AF_INET`, `AF_INET6`). */
  datatype Family = Unspec | Inet | Inet6

  /** One bound interface address, as the resolver reports it. */
  datatype SockAddr = SockAddr(family: Family, address: seq<int>)

  /** `SLPIfaceInfo`: the interface addresses the daemon binds to. */
  datatype IfaceInfo = IfaceInfo(addrs: seq<SockAddr>)

  /** What `SLPIfaceGetInfo` returns: its status (0 on success) and the list it filled. */
  datatype IfaceResult = IfaceResult(status: int, info: IfaceInfo)

  /** `SLPIfaceGetInfo(requested, &info, family)`. */
  type Resolver = (Option<string>, Family) -> IfaceResult

  /** `SLPIfaceSockaddrsToString`: the canonical text of an interface list, or `None`
      when rendering fails. */
  type Renderer = IfaceInfo -> Option<string>

  /** The record type `SLPDProperty`: the fields of `G_SlpdProperty` that the
      daemon's start-up writes. A C struct is a value, so it is a datatype here. */
  datatype SlpdProperty = SlpdProperty(
    isDA: bool,
    activeDADetection: bool,
    DAActiveDiscoveryInterval: int,
    passiveDADetection: bool,
    isBroadcastOnly: bool,
    multicastTTL: int,
    multicastMaximumWait: int,
    unicastMaximumWait: int,
    randomWaitBound: int,
    maxResults: int,
    traceMsg: bool,
    traceReg: bool,
    traceDrop: bool,
    traceDATraffic: bool,
    DAAddresses: Option<string>,
    DAAddressesLen: nat,
    useScopes: Option<string>,
    useScopesLen: nat,
    locale: Option<string>,
    localeLen: nat,
    securityEnabled: bool,
    checkSourceAddr: bool,
    DAHeartBeat: int,
    ifaceInfo: IfaceInfo,
    interfaces: Option<string>,
    interfacesLen: nat,
    urlPrefix: string,
    urlPrefixLen: nat,
    DATimestamp: nat,
    activeDiscoveryXmits: int,
    nextActiveDiscovery: int,
    nextPassiveDAAdvert: int)

  /** The snapshot after `memset(&G_SlpdProperty, 0, ...)`: every flag false, every
      number 0, every string pointer null and the URL prefix buffer empty. */
  function Zero(): (z: SlpdProperty)
    ensures Prepared(z) && z.interfaces.None?
    ensures z.DAAddresses.None? && z.useScopes.None? && z.locale.None?
    ensures !Consistent(z)
  {
    SlpdProperty(false, false, 0, false, false, 0, 0, 0, 0, 0, false, false, false, false,
           None, 0, None, 0, None, 0, false, false, 0, IfaceInfo([]), None, 0, "", 0, 0, 0, 0, 0)
  }

  /** An active discovery interval the daemon can be left with: at most 1, or at least
      the DA-find minimum. */
  predicate Admissible(interval: int)
  {
    interval <= 1 || DA_FIND <= interval
  }

  /** The clamp applied to a configured active discovery interval: values strictly
      between 1 and `DA_FIND` are raised to `DA_FIND`, all others are kept. */
  function ClampInterval(v: int): (r: int)
    ensures Admissible(r) && v <= r
    ensures forall w :: v <= w && Admissible(w) ==> r <= w
    ensures Admissible(v) ==> r == v
  {
    if v > 1 && v < DA_FIND then DA_FIND else v
  }

  /** Idempotence of the clamp. */
  lemma ClampIdempotent(v: int)
    ensures ClampInterval(ClampInterval(v)) == ClampInterval(v)
  {
  }

  /** The discovery interval stored in the snapshot: the clamped configured value when
      active discovery is on, and 0 whatever the store holds when it is off. */
  function DiscoveryInterval(active: bool, configured: int): (r: int)
    ensures !active ==> r == 0
    ensures active ==> Admissible(r) && configured <= r
    ensures active && Admissible(configured) ==> r == configured
    ensures active && !Admissible(configured) ==> r == DA_FIND
  {
    if active then ClampInterval(configured) else 0
  }

  /** The family preference built from the two capability probes. The local `family`
      starts as `AF_UNSPEC` (line 64) and keeps it when neither probe succeeds. */
  function ChooseFamily(ipv4: bool, ipv6: bool): (f: Family)
    ensures f == Unspec <==> ipv4 == ipv6
    ensures f == Inet <==> ipv4 && !ipv6
    ensures f == Inet6 <==> !ipv4 && ipv6
  {
    if ipv4 && ipv6 then Unspec
    else if ipv4 then Inet
    else if ipv6 then Inet6
    else Unspec
  }

  /** The scheme of the agent's own URLs. */
  function ServiceType(isDA: bool): string
  {
    if isDA then DA_SERVICE_TYPE else SA_SERVICE_TYPE
  }

  /** The URL prefix built by `strcpy` of the scheme followed by `strcat` of "://". */
  function UrlPrefix(isDA: bool): (p: string)
    ensures |p| == |ServiceType(isDA)| + 3
    ensures p[..|p| - 3] == ServiceType(isDA) && p[|p| - 3..] == "://"
    ensures p[..8] == "service:"
  {
    ServiceType(isDA) + "://"
  }

  /** A Directory Agent and a Service Agent never share a URL prefix. */
  lemma UrlPrefixDeterminesRole(a: bool, b: bool)
    requires UrlPrefix(a) == UrlPrefix(b)
    ensures a == b
  {
  }

  /** A string field and its cached length: the pair is (null, 0) or (s, |s|). */
  predicate Cached(s: Option<string>, len: nat)
  {
    if s.Some? then len == |s.value| else len == 0
  }

  /** The discovery and string parts of the invariant: an admissible interval that is
      0 when active discovery is off, and every owned string with its cached length. */
  predicate Prepared(c: SlpdProperty)
  {
    && Admissible(c.DAActiveDiscoveryInterval)
    && (!c.activeDADetection ==> c.DAActiveDiscoveryInterval == 0)
    && Cached(c.DAAddresses, c.DAAddressesLen)
    && Cached(c.useScopes, c.useScopesLen)
    && Cached(c.locale, c.localeLen)
    && Cached(c.interfaces, c.interfacesLen)
  }

  /** The invariant every consumer of the snapshot relies on. */
  predicate Consistent(c: SlpdProperty)
  {
    && Prepared(c)
    && c.urlPrefix == UrlPrefix(c.isDA)
    && c.urlPrefixLen == |c.urlPrefix|
  }

  /** The values the discovery schedule starts from: three forced transmissions, both
      deadlines already due, and the boot time folded to 32 bits. */
  predicate Seeded(c: SlpdProperty, now: int)
  {
    && c.DATimestamp == now % TWO_32
    && c.activeDiscoveryXmits == 3
    && c.nextActiveDiscovery == 0
    && c.nextPassiveDAAdvert == 0
  }

  /** Lines 73-84 as read back from a snapshot: the role flags and the discovery
      interval under its rule. */
  predicate ReadsDiscovery(c: SlpdProperty, props: Store)
  {
    && c.isDA == AsBoolean(props, IS_DA)
    && c.activeDADetection == AsBoolean(props, ACTIVE_DA_DETECTION)
    && c.DAActiveDiscoveryInterval
       == DiscoveryInterval(AsBoolean(props, ACTIVE_DA_DETECTION), AsInteger(props, DA_ACTIVE_DISCOVERY_INTERVAL))
  }

  /** Lines 86-96 as read back from a snapshot. */
  predicate ReadsSettings(c: SlpdProperty, props: Store)
  {
    && c.passiveDADetection == AsBoolean(props, PASSIVE_DA_DETECTION)
    && c.isBroadcastOnly == AsBoolean(props, IS_BROADCAST_ONLY)
    && c.multicastTTL == AsInteger(props, MULTICAST_TTL)
    && c.multicastMaximumWait == AsInteger(props, MULTICAST_MAXIMUM_WAIT)
    && c.unicastMaximumWait == AsInteger(props, UNICAST_MAXIMUM_WAIT)
    && c.randomWaitBound == AsInteger(props, RANDOM_WAIT_BOUND)
    && c.maxResults == AsInteger(props, MAX_RESULTS)
    && c.traceMsg == AsBoolean(props, TRACE_MSG)
    && c.traceReg == AsBoolean(props, TRACE_REG)
    && c.traceDrop == AsBoolean(props, TRACE_DROP)
    && c.traceDATraffic == AsBoolean(props, TRACE_DA_TRAFFIC)
  }

  /** Lines 98-111 as read back from a snapshot: the owned strings and the security
      fields. */
  predicate ReadsStringsAndSecurity(c: SlpdProperty, props: Store)
  {
    && c.DAAddresses == XDup(props, DA_ADDRESSES)
    && c.useScopes == XDup(props, USE_SCOPES)
    && c.locale == XDup(props, LOCALE)
    && c.securityEnabled == AsBoolean(props, SECURITY_ENABLED)
    && c.checkSourceAddr == AsBoolean(props, CHECK_SOURCE_ADDR)
    && c.DAHeartBeat == AsInteger(props, DA_HEART_BEAT)
  }

  /** Every field the start-up reads from the store holds that property's reading. */
  predicate FromStore(c: SlpdProperty, props: Store)
  {
    ReadsDiscovery(c, props) && ReadsSettings(c, props) && ReadsStringsAndSecurity(c, props)
  }

  /** The result of a successful start-up: the snapshot and the property store
      after the interface write-back. */
  datatype Outcome = Outcome(property: SlpdProperty, store: Store)

  /** The resolver's answer for the configured interface list and the probed family. */
  function Resolution(props: Store, ipv4: bool, ipv6: bool, resolve: Resolver): (r: IfaceResult)
    ensures INTERFACES !in props ==> r == resolve(None, ChooseFamily(ipv4, ipv6))
    ensures INTERFACES in props ==> r == resolve(Some(props[INTERFACES]), ChooseFamily(ipv4, ipv6))
  {
    resolve(XDup(props, INTERFACES), ChooseFamily(ipv4, ipv6))
  }

  /** The interface list cached in the snapshot: the rendered list when both the
      resolution and the rendering succeed, null otherwise. */
  function BoundInterfaces(res: IfaceResult, render: Renderer): (r: Option<string>)
    ensures r.Some? <==> res.status == 0 && render(res.info).Some?
    ensures r.Some? ==> r == render(res.info)
  {
    if res.status == 0 then render(res.info) else None
  }

  /** Lines 73-74: the role flags. */
  function WithRoles(p: SlpdProperty, props: Store): SlpdProperty
  {
    p.(isDA := AsBoolean(props, IS_DA), activeDADetection := AsBoolean(props, ACTIVE_DA_DETECTION))
  }

  /** Lines 76-84: the active discovery interval, read only when active discovery is on. */
  function WithInterval(p: SlpdProperty, props: Store): SlpdProperty
  {
    p.(DAActiveDiscoveryInterval := DiscoveryInterval(p.activeDADetection, AsInteger(props, DA_ACTIVE_DISCOVERY_INTERVAL)))
  }

  /** Lines 73-84: the role flags and the active discovery interval. */
  function WithDiscovery(p: SlpdProperty, props: Store): (q: SlpdProperty)
    ensures q.isDA == AsBoolean(props, IS_DA)
    ensures q.activeDADetection == AsBoolean(props, ACTIVE_DA_DETECTION)
    ensures Admissible(q.DAActiveDiscoveryInterval)
    ensures !q.activeDADetection ==> q.DAActiveDiscoveryInterval == 0
    ensures q.activeDADetection ==>
      q.DAActiveDiscoveryInterval == ClampInterval(AsInteger(props, DA_ACTIVE_DISCOVERY_INTERVAL))
  {
    WithInterval(WithRoles(p, props), props)
  }

  /** Lines 86-96: settings copied from the store without further rules. */
  function WithSettings(p: SlpdProperty, props: Store): SlpdProperty
  {
    p.(passiveDADetection := AsBoolean(props, PASSIVE_DA_DETECTION),
       isBroadcastOnly := AsBoolean(props, IS_BROADCAST_ONLY),
       multicastTTL := AsInteger(props, MULTICAST_TTL),
       multicastMaximumWait := AsInteger(props, MULTICAST_MAXIMUM_WAIT),
       unicastMaximumWait := AsInteger(props, UNICAST_MAXIMUM_WAIT),
       randomWaitBound := AsInteger(props, RANDOM_WAIT_BOUND),
       maxResults := AsInteger(props, MAX_RESULTS),
       traceMsg := AsBoolean(props, TRACE_MSG),
       traceReg := AsBoolean(props, TRACE_REG),
       traceDrop := AsBoolean(props, TRACE_DROP),
       traceDATraffic := AsBoolean(props, TRACE_DA_TRAFFIC))
  }

  /** Lines 98-99, 103-104 and 106-107 each fetch one owned string and, only when it
      is present, cache its length; an absent string leaves the length as it was,
      which after the reset is 0. */
  function WithDAAddresses(p: SlpdProperty, props: Store): SlpdProperty
  {
    var s := XDup(props, DA_ADDRESSES);
    p.(DAAddresses := s, DAAddressesLen := if s.Some? then |s.value| else p.DAAddressesLen)
  }

  function WithUseScopes(p: SlpdProperty, props: Store): SlpdProperty
  {
    var s := XDup(props, USE_SCOPES);
    p.(useScopes := s, useScopesLen := if s.Some? then |s.value| else p.useScopesLen)
  }

  function WithLocale(p: SlpdProperty, props: Store): SlpdProperty
  {
    var s := XDup(props, LOCALE);
    p.(locale := s, localeLen := if s.Some? then |s.value| else p.localeLen)
  }

  /** Lines 98-107: the three owned strings and their cached lengths. */
  function WithStrings(p: SlpdProperty, props: Store): (q: SlpdProperty)
    ensures q.DAAddresses == XDup(props, DA_ADDRESSES)
    ensures q.useScopes == XDup(props, USE_SCOPES)
    ensures q.locale == XDup(props, LOCALE)
    ensures q.DAAddresses.Some? ==> q.DAAddressesLen == |q.DAAddresses.value|
    ensures q.useScopes.Some? ==> q.useScopesLen == |q.useScopes.value|
    ensures q.locale.Some? ==> q.localeLen == |q.locale.value|
    ensures q.DAAddresses.None? ==> q.DAAddressesLen == p.DAAddressesLen
    ensures q.useScopes.None? ==> q.useScopesLen == p.useScopesLen
    ensures q.locale.None? ==> q.localeLen == p.localeLen
  {
    WithLocale(WithUseScopes(WithDAAddresses(p, props), props), props)
  }

  /** Lines 109-111: the security flags and the DA heartbeat. */
  function WithSecurity(p: SlpdProperty, props: Store): SlpdProperty
  {
    p.(securityEnabled := AsBoolean(props, SECURITY_ENABLED),
       checkSourceAddr := AsBoolean(props, CHECK_SOURCE_ADDR),
       DAHeartBeat := AsInteger(props, DA_HEART_BEAT))
  }

  /** Lines 113-135: resolve the interfaces, and on success write the rendered list
      back into the store and cache it in the record. */
  function WithInterfaces(p: SlpdProperty, props: Store, ipv4: bool, ipv6: bool,
                          resolve: Resolver, render: Renderer): (r: Outcome)
    ensures r.property.ifaceInfo == Resolution(props, ipv4, ipv6, resolve).info
    ensures var bound := BoundInterfaces(Resolution(props, ipv4, ipv6, resolve), render);
      && (bound.Some? ==> r.property.interfaces == bound && r.property.interfacesLen == |bound.value|)
      && (bound.Some? ==> r.store == props[INTERFACES := bound.value])
      && (bound.None? ==> r.property.interfaces == p.interfaces && r.property.interfacesLen == p.interfacesLen)
      && (bound.None? ==> r.store == props)
    ensures r.property.(ifaceInfo := p.ifaceInfo, interfaces := p.interfaces, interfacesLen := p.interfacesLen) == p
  {
    var res := Resolution(props, ipv4, ipv6, resolve);
    var bound := BoundInterfaces(res, render);
    Outcome(p.(ifaceInfo := res.info,
               interfaces := if bound.Some? then bound else p.interfaces,
               interfacesLen := if bound.Some? then |bound.value| else p.interfacesLen),
            if bound.Some? then props[INTERFACES := bound.value] else props)
  }

  /** Lines 138-140: the URL prefix of the agent's own role. */
  function WithUrlPrefix(p: SlpdProperty): SlpdProperty
  {
    var prefix := UrlPrefix(p.isDA);
    p.(urlPrefix := prefix, urlPrefixLen := |prefix|)
  }

  /** Lines 147-150: the boot time and the discovery schedule's starting values. */
  function WithSchedule(p: SlpdProperty, now: int): SlpdProperty
  {
    p.(DATimestamp := now % TWO_32, activeDiscoveryXmits := 3, nextActiveDiscovery := 0, nextPassiveDAAdvert := 0)
  }

  /** What a successful `SLPDPropertyInit` computes from the loaded property store
      `props`, the two capability probes, the interface resolver and renderer, and
      the wall-clock time `now`. */
  function Derive(props: Store, ipv4: bool, ipv6: bool, resolve: Resolver, render: Renderer, now: int): (r: Outcome)
    ensures Consistent(r.property) && Seeded(r.property, now)
    ensures FromStore(r.property, props)
    ensures r.property.ifaceInfo == Resolution(props, ipv4, ipv6, resolve).info
    ensures r.property.interfaces == BoundInterfaces(Resolution(props, ipv4, ipv6, resolve), render)
    ensures r.property.interfaces.Some? ==> r.store == props[INTERFACES := r.property.interfaces.value]
    ensures r.property.interfaces.None? ==> r.store == props
  {
    var p := WithSecurity(WithStrings(WithSettings(WithDiscovery(Zero(), props), props), props), props);
    EarlyStagesPrepare(props);
    LaterStagesFinish(p, props, ipv4, ipv6, resolve, render, now);
    var bound := WithInterfaces(p, props, ipv4, ipv6, resolve, render);
    Outcome(WithSchedule(WithUrlPrefix(bound.property), now), bound.store)
  }

  /** Lines 70-111 start from the zeroed record, leave the interval and the owned
      strings consistent with no interface list cached yet, and fill every field read
      from the store with its reading. */
  lemma EarlyStagesPrepare(props: Store)
    ensures var p := WithSecurity(WithStrings(WithSettings(WithDiscovery(Zero(), props), props), props), props);
      Prepared(p) && p.interfaces.None? && FromStore(p, props)
  {
  }

  /** Lines 113-150 keep a prepared record prepared and every reading in place, bind
      the interface list, write it back into the store, and set the URL prefix and
      the schedule. */
  lemma LaterStagesFinish(p: SlpdProperty, props: Store, ipv4: bool, ipv6: bool,
                          resolve: Resolver, render: Renderer, now: int)
    requires Prepared(p) && p.interfaces.None? && FromStore(p, props)
    ensures var bound := WithInterfaces(p, props, ipv4, ipv6, resolve, render);
      var q := WithSchedule(WithUrlPrefix(bound.property), now);
      && Consistent(q) && Seeded(q, now) && FromStore(q, props)
      && q.ifaceInfo == Resolution(props, ipv4, ipv6, resolve).info
      && q.interfaces == BoundInterfaces(Resolution(props, ipv4, ipv6, resolve), render)
      && (q.interfaces.Some? ==> bound.store == props[INTERFACES := q.interfaces.value])
      && (q.interfaces.None? ==> bound.store == props)
  {
  }

  /** A configuration file that switches active discovery on and gives the interval
      as decimal text `v` yields the clamped `v` in the snapshot. */
  lemma {:induction false} IntervalFromDecimalText(props: Store, v: int, ipv4: bool, ipv6: bool,
                                                   resolve: Resolver, render: Renderer, now: int)
    requires AsBoolean(props, ACTIVE_DA_DETECTION)
    ensures var c := Derive(props[DA_ACTIVE_DISCOVERY_INTERVAL := DecimalString(v)], ipv4, ipv6, resolve, render, now).property;
      c.DAActiveDiscoveryInterval == ClampInterval(v)
  {
    var p := props[DA_ACTIVE_DISCOVERY_INTERVAL := DecimalString(v)];
    assert AsBoolean(p, ACTIVE_DA_DETECTION) == AsBoolean(props, ACTIVE_DA_DETECTION) by {
      assert ACTIVE_DA_DETECTION != DA_ACTIVE_DISCOVERY_INTERVAL by {
        assert ACTIVE_DA_DETECTION[8] != DA_ACTIVE_DISCOVERY_INTERVAL[8];
      }
    }
    AsIntegerOfSetDecimal(props, DA_ACTIVE_DISCOVERY_INTERVAL, v, ACTIVE_DA_DETECTION);
  }

  /** The daemon-wide global `G_SlpdProperty`. Each field assignment of the C code,
      `G_SlpdProperty.f = v`, is the record update `property := property.(f := v)`. */
  class Globals {
    var property: SlpdProperty

    /** A global C record starts out zero-filled. */
    constructor ()
      ensures property == Zero()
    {
      property := Zero();
    }

    /** `SLPDPropertyInit`. `parsed` is what the property subsystem makes of the
        configuration file (`None` when it fails), `ipv4` and `ipv6` are the results of
        `SLPNetIsIPV4` and `SLPNetIsIPV6`, and `now` is `time(0)`. Returns 0 on success
        and -1 when the property subsystem fails, in which case the record is untouched. */
    method Init(store: PropertyStore, parsed: Option<Store>, ipv4: bool, ipv6: bool,
                resolve: Resolver, render: Renderer, now: int) returns (status: int)
      modifies this, store
      ensures parsed.None? ==> status == -1 && property == old(property) && store.props == old(store.props)
      ensures parsed.Some? ==>
                && status == 0
                && property == Derive(parsed.value, ipv4, ipv6, resolve, render, now).property
                && store.props == Derive(parsed.value, ipv4, ipv6, resolve, render, now).store
    {
      var loaded := store.Load(parsed);
      if loaded != 0 {
        return -1;
      }
      var props := store.props;

      property := Zero();
      ReadDiscovery(props);
      ReadSettings(props);
      ReadStrings(props);
      ReadSecurity(props);
      BindInterfaces(store, ipv4, ipv6, resolve, render);
      SetUrlPrefix();
      SeedSchedule(now);

      return 0;
    }

    /** Lines 73-84. */
    method ReadDiscovery(props: Store)
      modifies this
      ensures property == WithDiscovery(old(property), props)
    {
      ReadRoles(props);
      ReadInterval(props);
    }

    method ReadRoles(props: Store)
      modifies this
      ensures property == WithRoles(old(property), props)
    {
      property := property.(isDA := AsBoolean(props, IS_DA));
      property := property.(activeDADetection := AsBoolean(props, ACTIVE_DA_DETECTION));
    }

    method ReadInterval(props: Store)
      modifies this
      ensures property == WithInterval(old(property), props)
    {
      if property.activeDADetection {
        property := property.(DAActiveDiscoveryInterval := AsInteger(props, DA_ACTIVE_DISCOVERY_INTERVAL));
        if property.DAActiveDiscoveryInterval > 1 && property.DAActiveDiscoveryInterval < DA_FIND {
          property := property.(DAActiveDiscoveryInterval := DA_FIND);
        }
      } else {
        property := property.(DAActiveDiscoveryInterval := 0);
      }
    }

    /** Lines 86-96. */
    method ReadSettings(props: Store)
      modifies this
      ensures property == WithSettings(old(property), props)
    {
      property := property.(passiveDADetection := AsBoolean(props, PASSIVE_DA_DETECTION));
      property := property.(isBroadcastOnly := AsBoolean(props, IS_BROADCAST_ONLY));
      property := property.(multicastTTL := AsInteger(props, MULTICAST_TTL));
      property := property.(multicastMaximumWait := AsInteger(props, MULTICAST_MAXIMUM_WAIT));
      property := property.(unicastMaximumWait := AsInteger(props, UNICAST_MAXIMUM_WAIT));
      property := property.(randomWaitBound := AsInteger(props, RANDOM_WAIT_BOUND));
      property := property.(maxResults := AsInteger(props, MAX_RESULTS));
      property := property.(traceMsg := AsBoolean(props, TRACE_MSG));
      property := property.(traceReg := AsBoolean(props, TRACE_REG));
      property := property.(traceDrop := AsBoolean(props, TRACE_DROP));
      property := property.(traceDATraffic := AsBoolean(props, TRACE_DA_TRAFFIC));
    }

    /** Lines 98-107. */
    method ReadStrings(props: Store)
      modifies this
      ensures property == WithStrings(old(property), props)
    {
      ReadDAAddresses(props);
      ReadUseScopes(props);
      ReadLocale(props);
    }

    method ReadDAAddresses(props: Store)
      modifies this
      ensures property == WithDAAddresses(old(property), props)
    {
      property := property.(DAAddresses := XDup(props, DA_ADDRESSES));
      if property.DAAddresses.Some? {
        property := property.(DAAddressesLen := |property.DAAddresses.value|);
      }
    }

    method ReadUseScopes(props: Store)
      modifies this
      ensures property == WithUseScopes(old(property), props)
    {
      property := property.(useScopes := XDup(props, USE_SCOPES));
      if property.useScopes.Some? {
        property := property.(useScopesLen := |property.useScopes.value|);
      }
    }

    method ReadLocale(props: Store)
      modifies this
      ensures property == WithLocale(old(property), props)
    {
      property := property.(locale := XDup(props, LOCALE));
      if property.locale.Some? {
        property := property.(localeLen := |property.locale.value|);
      }
    }

    /** Lines 109-111. */
    method ReadSecurity(props: Store)
      modifies this
      ensures property == WithSecurity(old(property), props)
    {
      property := property.(securityEnabled := AsBoolean(props, SECURITY_ENABLED));
      property := property.(checkSourceAddr := AsBoolean(props, CHECK_SOURCE_ADDR));
      property := property.(DAHeartBeat := AsInteger(props, DA_HEART_BEAT));
    }

    /** Lines 113-135: the family choice, the resolution of the configured interface
        list and, when both resolution and rendering succeed, the write-back. */
    method BindInterfaces(store: PropertyStore, ipv4: bool, ipv6: bool, resolve: Resolver, render: Renderer)
      modifies this, store
      ensures var r := WithInterfaces(old(property), old(store.props), ipv4, ipv6, resolve, render);
        property == r.property && store.props == r.store
    {
      var family := ChooseFamily(ipv4, ipv6);

      var myinterfaces := XDup(store.props, INTERFACES);
      var resolved := resolve(myinterfaces, family);
      var sts := resolved.status;
      property := property.(ifaceInfo := resolved.info);

      if sts == 0 {
        var rendered := render(property.ifaceInfo);
        if rendered.Some? {
          store.Set(INTERFACES, rendered.value);
          property := property.(interfaces := rendered);
          property := property.(interfacesLen := |property.interfaces.value|);
        }
      }
    }

    /** Lines 138-140. */
    method SetUrlPrefix()
      modifies this
      ensures property == WithUrlPrefix(old(property))
    {
      property := property.(urlPrefix := ServiceType(property.isDA) + "://");
      property := property.(urlPrefixLen := |property.urlPrefix|);
    }

    /** Lines 147-150. */
    method SeedSchedule(now: int)
      modifies this
      ensures property == WithSchedule(old(property), now)
    {
      property := property.(DATimestamp := now % TWO_32);
      property := property.(activeDiscoveryXmits := 3);
      property := property.(nextActiveDiscovery := 0);
      property := property.(nextPassiveDAAdvert := 0);
    }

    /** `SLPDPropertyDeinit`: release the four owned strings, then the property store.
        The cached lengths are left as they were. */
    method Deinit(store: PropertyStore)
      modifies this, store
      ensures property == old(property).(useScopes := None, DAAddresses := None, interfaces := None, locale := None)
      ensures store.props == map[]
    {
      property := property.(useScopes := None);
      property := property.(DAAddresses := None);
      property := property.(interfaces := None);
      property := property.(locale := None);
      store.Cleanup();
    }
  }
}
