/** Capability negotiation on both ends: `hello` of the backend session and `isNegotiatedHello`
    of the client, over the loose records that cross the wire. */
module Negotiation {
  import opened Common
  import opened Text
  import T = TransportState

  const VERSION := "chatgpt.browser_control.backend_request.v1"
  const MAX_IDENTITY_FIELD_LENGTH := 512
  const STDIO := "stdio"
  const HTTP := "http"
  const NDJSON := "ndjson"
  const SSE := "sse"
  const CONNECTION := "connection"
  const PROCESS := "process"
  const PROVIDER := "provider"
  const NONE := "none"
  const NODE := "node"

  const REQUIRED_COMMANDS := ["backend.hello", "backend.version", "backend.capabilities", "backend.health", "runner.run", "runner.stream"]

  // ---------- loose records ----------

  datatype Field =
    | Accepted | CapabilitiesField | ProtocolVersion
    | BackendSessionId | PackageName | PackageVersion | RuntimeName | RuntimeVersion | BuildDigest
    | Commands | Transports | SupportedProtocolVersions
    | Streaming | Modes | TokenDeltas
    | RequestIds | Required | Scope
    | Multiplexing | UnaryField | Streams
    | Cancellation | Supported | Requests
    | Tabs | StableProviderIdentity | StableBrowserIdentity | StableTabIdentity | CoordinationScope
    | AuthoritativeClaim | FencingField | ConcurrentTabs | StableIdentity | Coordination | Concurrent
    | OtherField(name: string)

  datatype Value = Str(s: string) | Flag(b: bool) | List(items: seq<Value>) | Object(fields: map<Field, Value>) | OtherValue

  type Fields = map<Field, Value>

  function Sub(r: Fields, f: Field): Option<Fields> {
    if f in r && r[f].Object? then Some(r[f].fields) else None
  }

  /** `r?.f === true` and `r?.f !== false` */
  predicate IsTrue(r: Option<Fields>, f: Field) {
    r.Some? && f in r.value && r.value[f] == Flag(true)
  }

  predicate NotFalse(r: Option<Fields>, f: Field) {
    r.Some? && f in r.value ==> r.value[f] != Flag(false)
  }

  predicate IsStrings(v: Value) {
    v.List? && forall i | 0 <= i < |v.items| :: v.items[i].Str?
  }

  predicate OptionalStrings(r: Fields, f: Field) {
    f in r ==> IsStrings(r[f])
  }

  predicate OptionalFlag(r: Fields, f: Field) {
    f in r ==> r[f].Flag?
  }

  predicate OptionalOneOf(r: Fields, f: Field, allowed: set<string>) {
    f in r ==> r[f].Str? && r[f].s in allowed
  }

  predicate IsIdentityText(v: Value) {
    v.Str? && IsBoundedText(v.s, MAX_IDENTITY_FIELD_LENGTH)
  }

  // ---------- capabilities ----------

  datatype Identity = Identity(backendSessionId: string, packageName: string, packageVersion: string, runtimeVersion: string, buildDigest: string)

  datatype TabSupport = TabSupport(
    stableProviderIdentity: bool, stableBrowserIdentity: bool, stableTabIdentity: bool, coordinationScope: string,
    authoritativeClaim: bool, fencing: bool, concurrentTabs: bool, stableIdentity: bool, coordination: bool, concurrent: bool)

  datatype Capabilities = Capabilities(
    identity: Identity, commands: seq<string>, transports: seq<string>, modes: seq<string>, tokenDeltas: bool,
    supportedProtocolVersions: seq<string>, idsRequired: bool, idScope: string, unary: bool, streams: bool,
    cancelSupported: bool, cancelRequests: bool, cancelStreams: bool, tabs: TabSupport)

  /** What `backendRuntimeIdentity` lets through. */
  predicate ValidIdentity(i: Identity) {
    && IsBoundedText(i.backendSessionId, MAX_IDENTITY_FIELD_LENGTH)
    && IsBoundedText(i.packageName, MAX_IDENTITY_FIELD_LENGTH)
    && IsBoundedText(i.packageVersion, MAX_IDENTITY_FIELD_LENGTH)
    && IsBoundedText(i.runtimeVersion, MAX_IDENTITY_FIELD_LENGTH)
    && IsBoundedText(i.buildDigest, MAX_IDENTITY_FIELD_LENGTH)
  }

  /** `backendCapabilities`; the command table is a parameter. */
  function BaseCapabilities(i: Identity, commands: seq<string>): Capabilities {
    Capabilities(i, commands, [STDIO], [NDJSON], false, [VERSION], true, CONNECTION, true, true, false, false, false,
                 TabSupport(false, false, false, NONE, false, false, false, false, false, false))
  }

  predicate AliasesConsistent(t: TabSupport) {
    && t.stableIdentity == (t.stableProviderIdentity && t.stableBrowserIdentity && t.stableTabIdentity)
    && t.coordination == (t.coordinationScope != NONE)
    && t.concurrent == t.concurrentTabs
  }

  // ---------- intersectCapabilities ----------

  function Filter(base: seq<string>, items: seq<Value>): seq<string> {
    if base == [] then []
    else (if Str(base[0]) in items then [base[0]] else []) + Filter(base[1..], items)
  }

  /** The requested part of a list, or the whole list if nothing valid was requested of it. */
  function Narrowed(base: seq<string>, r: Option<Fields>, f: Field): seq<string> {
    if r.Some? && f in r.value && r.value[f].List? then
      var kept := Filter(base, r.value[f].items);
      if kept != [] then kept else base
    else base
  }

  function NarrowedScope(base: string, r: Option<Fields>, f: Field): string {
    if r.None? || f !in r.value || r.value[f] == Str(base) then base else NONE
  }

  function NarrowedTabs(base: TabSupport, r: Option<Fields>): TabSupport {
    var provider := base.stableProviderIdentity && NotFalse(r, StableProviderIdentity);
    var browser := base.stableBrowserIdentity && NotFalse(r, StableBrowserIdentity);
    var tab := base.stableTabIdentity && NotFalse(r, StableTabIdentity);
    var scope := NarrowedScope(base.coordinationScope, r, CoordinationScope);
    var concurrent := base.concurrentTabs && NotFalse(r, ConcurrentTabs);
    TabSupport(provider, browser, tab, scope, base.authoritativeClaim && NotFalse(r, AuthoritativeClaim),
               base.fencing && NotFalse(r, FencingField), concurrent, provider && browser && tab, scope != NONE, concurrent)
  }

  function Intersect(base: Capabilities, requested: Option<Fields>): Capabilities {
    match requested
    case None => base
    case Some(r) =>
      var streaming, ids, multiplexing := Sub(r, Streaming), Sub(r, RequestIds), Sub(r, Multiplexing);
      var cancellation, tabs := Sub(r, Cancellation), Sub(r, Tabs);
      Capabilities(
        base.identity, Narrowed(base.commands, requested, Commands), Narrowed(base.transports, requested, Transports),
        Narrowed(base.modes, streaming, Modes), base.tokenDeltas && NotFalse(streaming, TokenDeltas),
        Narrowed(base.supportedProtocolVersions, requested, SupportedProtocolVersions),
        base.idsRequired && NotFalse(ids, Required), NarrowedScope(base.idScope, ids, Scope),
        base.unary && NotFalse(multiplexing, UnaryField), base.streams && NotFalse(multiplexing, Streams),
        base.cancelSupported && IsTrue(cancellation, Supported), base.cancelRequests && IsTrue(cancellation, Requests),
        base.cancelStreams && IsTrue(cancellation, Streams), NarrowedTabs(base.tabs, tabs))
  }

  // ---------- requestedCapabilitiesSatisfied ----------

  const TAB_FLAGS := {
    StableProviderIdentity, StableBrowserIdentity, StableTabIdentity, AuthoritativeClaim, FencingField, ConcurrentTabs,
    StableIdentity, Coordination, Concurrent
  }

  const IDENTITY_FIELDS := {BackendSessionId, PackageName, PackageVersion, RuntimeVersion, BuildDigest}

  predicate StreamingShape(v: Value) {
    v.Object? && OptionalStrings(v.fields, Modes) && OptionalFlag(v.fields, TokenDeltas)
  }

  predicate RequestIdsShape(v: Value) {
    v.Object? && OptionalFlag(v.fields, Required) && OptionalOneOf(v.fields, Scope, {CONNECTION, PROCESS, NONE})
  }

  predicate MultiplexingShape(v: Value) {
    v.Object? && OptionalFlag(v.fields, UnaryField) && OptionalFlag(v.fields, Streams)
  }

  predicate CancellationShape(v: Value) {
    v.Object? && OptionalFlag(v.fields, Supported) && OptionalFlag(v.fields, Requests) && OptionalFlag(v.fields, Streams)
  }

  predicate TabsShape(v: Value) {
    && v.Object?
    && OptionalOneOf(v.fields, CoordinationScope, {NONE, PROCESS, PROVIDER})
    && forall f | f in TAB_FLAGS :: OptionalFlag(v.fields, f)
  }

  /** `requestedCapabilitiesShapeValid` */
  predicate ShapeValid(r: Fields) {
    && OptionalStrings(r, Commands) && OptionalStrings(r, Transports) && OptionalStrings(r, SupportedProtocolVersions)
    && (forall f | f in IDENTITY_FIELDS && f in r :: IsIdentityText(r[f]))
    && OptionalOneOf(r, RuntimeName, {NODE})
    && OptionalOneOf(r, ProtocolVersion, {VERSION})
    && (Streaming in r ==> StreamingShape(r[Streaming]))
    && (RequestIds in r ==> RequestIdsShape(r[RequestIds]))
    && (Multiplexing in r ==> MultiplexingShape(r[Multiplexing]))
    && (Cancellation in r ==> CancellationShape(r[Cancellation]))
    && (Tabs in r ==> TabsShape(r[Tabs]))
  }

  /** A requested list is not empty and asks only for what the base has. */
  predicate Covered(base: seq<string>, r: Option<Fields>, f: Field) {
    r.Some? && f in r.value && r.value[f].List? ==>
      |r.value[f].items| > 0 && forall i | 0 <= i < |r.value[f].items| :: r.value[f].items[i].Str? && r.value[f].items[i].s in base
  }

  /** `requestedDeprecatedTabAliasesConsistent` */
  predicate RequestedAliasesConsistent(t: Fields) {
    var hasStable := StableProviderIdentity in t && StableBrowserIdentity in t && StableTabIdentity in t;
    var stable := hasStable && t[StableProviderIdentity] == t[StableBrowserIdentity] == t[StableTabIdentity] == Flag(true);
    var coordination := CoordinationScope in t && t[CoordinationScope] != Str(NONE);
    && (StableIdentity in t && hasStable ==> t[StableIdentity] == Flag(stable))
    && (Coordination in t ==> t[Coordination] == Flag(coordination))
    && (Concurrent in t ==> t[Concurrent] == Flag(ConcurrentTabs in t && t[ConcurrentTabs] == Flag(true)))
  }

  predicate ScopeGranted(granted: string, r: Option<Fields>, f: Field) {
    r.Some? && f in r.value ==> r.value[f] == Str(granted)
  }

  predicate TabsSatisfied(granted: TabSupport, t: Option<Fields>) {
    && (IsTrue(t, StableProviderIdentity) ==> granted.stableProviderIdentity)
    && (IsTrue(t, StableBrowserIdentity) ==> granted.stableBrowserIdentity)
    && (IsTrue(t, StableTabIdentity) ==> granted.stableTabIdentity)
    && (IsTrue(t, AuthoritativeClaim) ==> granted.authoritativeClaim)
    && (IsTrue(t, FencingField) ==> granted.fencing)
    && (IsTrue(t, ConcurrentTabs) ==> granted.concurrentTabs)
    && (IsTrue(t, StableIdentity) ==> granted.stableIdentity)
    && (IsTrue(t, Coordination) ==> granted.coordination)
    && (IsTrue(t, Concurrent) ==> granted.concurrent)
    && ScopeGranted(granted.coordinationScope, t, CoordinationScope)
    && (t.Some? ==> RequestedAliasesConsistent(t.value))
  }

  predicate Satisfied(base: Capabilities, granted: Capabilities, r: Fields) {
    var streaming, ids, multiplexing := Sub(r, Streaming), Sub(r, RequestIds), Sub(r, Multiplexing);
    var cancellation, tabs := Sub(r, Cancellation), Sub(r, Tabs);
    && ShapeValid(r)
    && Covered(base.commands, Some(r), Commands)
    && Covered(base.transports, Some(r), Transports)
    && Covered(base.modes, streaming, Modes)
    && (IsTrue(streaming, TokenDeltas) ==> granted.tokenDeltas)
    && Covered(base.supportedProtocolVersions, Some(r), SupportedProtocolVersions)
    && (IsTrue(ids, Required) ==> granted.idsRequired)
    && ScopeGranted(granted.idScope, ids, Scope)
    && (IsTrue(multiplexing, UnaryField) ==> granted.unary)
    && (IsTrue(multiplexing, Streams) ==> granted.streams)
    && (IsTrue(cancellation, Supported) ==> granted.cancelSupported)
    && (IsTrue(cancellation, Requests) ==> granted.cancelRequests)
    && (IsTrue(cancellation, Streams) ==> granted.cancelStreams)
    && TabsSatisfied(granted.tabs, tabs)
  }

  // ---------- hello ----------

  datatype Greeting = Greeting(identity: Identity, accepted: bool, capabilities: Capabilities)

  function SayHello(i: Identity, commands: seq<string>, payload: Fields): Greeting {
    var base := BaseCapabilities(i, commands);
    var requested := Sub(payload, CapabilitiesField);
    var granted := Intersect(base, requested);
    Greeting(i,
             (ProtocolVersion in payload ==> payload[ProtocolVersion] == Str(VERSION))
             && (CapabilitiesField in payload ==> requested.Some? && Satisfied(base, granted, requested.value)),
             granted)
  }

  function Strs(s: seq<string>): Value {
    List(seq(|s|, i requires 0 <= i < |s| => Str(s[i])))
  }

  function IdentityFields(i: Identity): Fields {
    map[BackendSessionId := Str(i.backendSessionId), PackageName := Str(i.packageName), PackageVersion := Str(i.packageVersion),
        RuntimeName := Str(NODE), RuntimeVersion := Str(i.runtimeVersion), BuildDigest := Str(i.buildDigest), ProtocolVersion := Str(VERSION)]
  }

  function TabFields(t: TabSupport): Fields {
    map[StableProviderIdentity := Flag(t.stableProviderIdentity), StableBrowserIdentity := Flag(t.stableBrowserIdentity),
        StableTabIdentity := Flag(t.stableTabIdentity), CoordinationScope := Str(t.coordinationScope),
        AuthoritativeClaim := Flag(t.authoritativeClaim), FencingField := Flag(t.fencing), ConcurrentTabs := Flag(t.concurrentTabs),
        StableIdentity := Flag(t.stableIdentity), Coordination := Flag(t.coordination), Concurrent := Flag(t.concurrent)]
  }

  /** The lists and records of the capabilities as they cross the wire. */
  function OfferFields(c: Capabilities): Fields {
    map[Commands := Strs(c.commands), Transports := Strs(c.transports), SupportedProtocolVersions := Strs(c.supportedProtocolVersions),
        Streaming := Object(map[Modes := Strs(c.modes), TokenDeltas := Flag(c.tokenDeltas)]),
        RequestIds := Object(map[Required := Flag(c.idsRequired), Scope := Str(c.idScope)]),
        Multiplexing := Object(map[UnaryField := Flag(c.unary), Streams := Flag(c.streams)]),
        Cancellation := Object(map[Supported := Flag(c.cancelSupported), Requests := Flag(c.cancelRequests), Streams := Flag(c.cancelStreams)]),
        Tabs := Object(TabFields(c.tabs))]
  }

  function Wire(g: Greeting): Value {
    Object(IdentityFields(g.identity)[Accepted := Flag(g.accepted)]
      [CapabilitiesField := Object(IdentityFields(g.capabilities.identity) + OfferFields(g.capabilities))])
  }

  // ---------- isNegotiatedHello ----------

  const GREETING_IDENTITY := {BackendSessionId, PackageName, PackageVersion, RuntimeName, RuntimeVersion, BuildDigest, ProtocolVersion}

  predicate IdentityAgrees(v: Fields, c: Fields) {
    forall f | f in GREETING_IDENTITY :: f in v && f in c && IsIdentityText(v[f]) && v[f] == c[f]
  }

  predicate HasFlags(r: Option<Fields>, fs: set<Field>) {
    r.Some? && forall f | f in fs :: f in r.value && r.value[f].Flag?
  }

  predicate ListOf(r: Option<Fields>, f: Field, allowed: set<string>, needed: string) {
    && r.Some? && f in r.value && r.value[f].List?
    && (forall i | 0 <= i < |r.value[f].items| :: r.value[f].items[i].Str? && r.value[f].items[i].s in allowed)
    && Str(needed) in r.value[f].items
  }

  predicate CommandsAgree(c: Fields, asked: Fields) {
    && Commands in c && IsStrings(c[Commands]) && c[Commands].items != []
    && Commands in asked && IsStrings(asked[Commands])
    && forall i | 0 <= i < |asked[Commands].items| :: asked[Commands].items[i] in c[Commands].items
  }

  predicate ScopeIn(r: Option<Fields>, f: Field, allowed: set<string>) {
    r.Some? && f in r.value && r.value[f].Str? && r.value[f].s in allowed
  }

  /** `consistentDeprecatedTabAliases` */
  predicate WireAliasesConsistent(t: Fields) {
    var stable := IsTrue(Some(t), StableProviderIdentity) && IsTrue(Some(t), StableBrowserIdentity) && IsTrue(Some(t), StableTabIdentity);
    && (StableIdentity in t ==> t[StableIdentity] == Flag(stable))
    && (Coordination in t ==> t[Coordination] == Flag(!(CoordinationScope in t && t[CoordinationScope] == Str(NONE))))
    && (Concurrent in t ==> t[Concurrent] == Flag(IsTrue(Some(t), ConcurrentTabs)))
  }

  predicate IdsUsable(c: Fields) {
    IsTrue(Sub(c, RequestIds), Required) && ScopeIn(Sub(c, RequestIds), Scope, {CONNECTION, PROCESS})
  }

  predicate StreamingUsable(c: Fields) {
    && ListOf(Sub(c, Streaming), Modes, {NDJSON, SSE}, NDJSON)
    && TokenDeltas in Sub(c, Streaming).value && Sub(c, Streaming).value[TokenDeltas] == Flag(false)
  }

  predicate TabsUsable(c: Fields) {
    && HasFlags(Sub(c, Tabs), {StableProviderIdentity, StableBrowserIdentity, StableTabIdentity, AuthoritativeClaim, FencingField, ConcurrentTabs})
    && ScopeIn(Sub(c, Tabs), CoordinationScope, {NONE, PROCESS, PROVIDER})
    && WireAliasesConsistent(Sub(c, Tabs).value)
  }

  predicate VersionUsable(c: Fields) {
    && ProtocolVersion in c && c[ProtocolVersion] == Str(VERSION)
    && SupportedProtocolVersions in c && c[SupportedProtocolVersions].List? && Str(VERSION) in c[SupportedProtocolVersions].items
  }

  predicate IsNegotiated(v: Value, payload: Fields) {
    && v.Object? && Accepted in v.fields && v.fields[Accepted] == Flag(true)
    && Sub(v.fields, CapabilitiesField).Some?
    && var c := Sub(v.fields, CapabilitiesField).value;
    && IdentityAgrees(v.fields, c)
    && VersionUsable(c)
    && Sub(payload, CapabilitiesField).Some?
    && CommandsAgree(c, Sub(payload, CapabilitiesField).value)
    && ListOf(Some(c), Transports, {STDIO, HTTP}, STDIO)
    && StreamingUsable(c)
    && IdsUsable(c)
    && HasFlags(Sub(c, Multiplexing), {UnaryField, Streams})
    && HasFlags(Sub(c, Cancellation), {Supported, Requests, Streams})
    && TabsUsable(c)
  }

  /** What the transport makes of a successful hello response. */
  function Verdict(v: Value, payload: Fields): T.HelloVerdict {
    if !IsNegotiated(v, payload) then T.NotNegotiated
    else
      var multiplexing := Sub(Sub(v.fields, CapabilitiesField).value, Multiplexing);
      if IsTrue(multiplexing, UnaryField) && IsTrue(multiplexing, Streams) then T.Multiplexed else T.SingleFlightOnly
  }

  const NO_TABS := TabSupport(false, false, false, NONE, false, false, false, false, false, false)

  /** The capabilities and the payload of the client's hello. */
  function ClientCapabilities(): Fields {
    map[Commands := Strs(REQUIRED_COMMANDS), Transports := Strs([STDIO]),
        Streaming := Object(map[Modes := Strs([NDJSON]), TokenDeltas := Flag(false)]),
        SupportedProtocolVersions := Strs([VERSION]),
        RequestIds := Object(map[Required := Flag(true), Scope := Str(CONNECTION)]),
        Multiplexing := Object(map[UnaryField := Flag(true), Streams := Flag(true)]),
        Cancellation := Object(map[Supported := Flag(false), Requests := Flag(false), Streams := Flag(false)]),
        Tabs := Object(TabFields(NO_TABS))]
  }

  function ClientPayload(): Fields {
    map[ProtocolVersion := Str(VERSION), CapabilitiesField := Object(ClientCapabilities())]
  }

  // ---------- intersections ----------

  lemma {:induction false} FilterIs(base: seq<string>, items: seq<Value>, x: string)
    ensures x in Filter(base, items) <==> x in base && Str(x) in items
  {
    if base != [] {
      FilterIs(base[1..], items, x);
    }
  }

  lemma {:induction false} FilterTwice(base: seq<string>, items: seq<Value>)
    ensures Filter(Filter(base, items), items) == Filter(base, items)
  {
    if base != [] {
      FilterTwice(base[1..], items);
      var rest := Filter(base[1..], items);
      if Str(base[0]) in items {
        assert Filter(base, items) == [base[0]] + rest;
        assert ([base[0]] + rest)[1..] == rest;
      } else {
        assert [] + rest == rest;
      }
    }
  }

  lemma NarrowedTwice(base: seq<string>, r: Option<Fields>, f: Field)
    ensures Narrowed(Narrowed(base, r, f), r, f) == Narrowed(base, r, f)
  {
    if r.Some? && f in r.value && r.value[f].List? {
      FilterTwice(base, r.value[f].items);
    }
  }

  /** Intersecting again with the same request changes nothing. */
  lemma IntersectIsIdempotent(base: Capabilities, requested: Option<Fields>)
    ensures Intersect(Intersect(base, requested), requested) == Intersect(base, requested)
  {
    hide Narrowed;
    if requested.Some? {
      NarrowedTwice(base.commands, requested, Commands);
      NarrowedTwice(base.transports, requested, Transports);
      NarrowedTwice(base.modes, Sub(requested.value, Streaming), Modes);
      NarrowedTwice(base.supportedProtocolVersions, requested, SupportedProtocolVersions);
    }
  }

  /** A list that was requested and covered is a true intersection, never the fallback: it holds
      exactly the requested entries, all of them from the base. */
  lemma CoveredIsExact(base: seq<string>, r: Option<Fields>, f: Field, x: string)
    requires Covered(base, r, f) && r.Some? && f in r.value && r.value[f].List?
    ensures Narrowed(base, r, f) == Filter(base, r.value[f].items)
    ensures x in Narrowed(base, r, f) <==> Str(x) in r.value[f].items
    ensures x in Narrowed(base, r, f) ==> x in base
  {
    var items := r.value[f].items;
    var first := items[0].s;
    FilterIs(base, items, first);
    FilterIs(base, items, x);
    assert items[0] == Str(first) && items[0] in items;
    if Str(x) in items {
      var i :| 0 <= i < |items| && items[i] == Str(x);
      assert items[i].s in base;
    }
  }

  /** What an accepted hello returns: for each list that was requested, exactly the requested
      entries, inside the base, and deprecated tab aliases that agree with what they abbreviate. */
  lemma AcceptedIsIntersection(i: Identity, commands: seq<string>, payload: Fields, x: string)
    requires SayHello(i, commands, payload).accepted && CapabilitiesField in payload
    ensures var base := BaseCapabilities(i, commands); var c := SayHello(i, commands, payload).capabilities;
      var r := payload[CapabilitiesField].fields;
      && (Commands in r ==> (x in c.commands <==> Str(x) in r[Commands].items) && (x in c.commands ==> x in base.commands))
      && (Transports in r ==> (x in c.transports <==> Str(x) in r[Transports].items) && (x in c.transports ==> x in base.transports))
      && (SupportedProtocolVersions in r ==>
            (x in c.supportedProtocolVersions <==> Str(x) in r[SupportedProtocolVersions].items)
            && (x in c.supportedProtocolVersions ==> x in base.supportedProtocolVersions))
      && (Streaming in r && Modes in r[Streaming].fields ==>
            (x in c.modes <==> Str(x) in r[Streaming].fields[Modes].items) && (x in c.modes ==> x in base.modes))
    ensures AliasesConsistent(SayHello(i, commands, payload).capabilities.tabs)
  {
    hide Narrowed, Filter, TabsSatisfied, TabsShape;
    var base := BaseCapabilities(i, commands);
    var r := payload[CapabilitiesField].fields;
    if Commands in r {
      CoveredIsExact(base.commands, Some(r), Commands, x);
    }
    if Transports in r {
      CoveredIsExact(base.transports, Some(r), Transports, x);
    }
    if SupportedProtocolVersions in r {
      CoveredIsExact(base.supportedProtocolVersions, Some(r), SupportedProtocolVersions, x);
    }
    if Streaming in r && Modes in r[Streaming].fields {
      CoveredIsExact(base.modes, Some(r[Streaming].fields), Modes, x);
    }
  }

  /** The request sets the flag of that section to true. */
  predicate Asks(r: Fields, section: Field, f: Field) {
    section in r && r[section].Object? && f in r[section].fields && r[section].fields[f] == Flag(true)
  }

  /** An accepted hello grants every flag that was asked for as true, under that name and no other; it
      never grants cancellation that was not asked for, nor any of these that the base does not have. */
  lemma AcceptedGrantsFlags(i: Identity, commands: seq<string>, payload: Fields)
    requires SayHello(i, commands, payload).accepted && CapabilitiesField in payload
    ensures var c := SayHello(i, commands, payload).capabilities; var r := payload[CapabilitiesField].fields;
      && (Asks(r, Cancellation, Supported) <==> c.cancelSupported)
      && (Asks(r, Cancellation, Requests) <==> c.cancelRequests)
      && (Asks(r, Cancellation, Streams) <==> c.cancelStreams)
      && (Asks(r, Streaming, TokenDeltas) ==> c.tokenDeltas)
      && (Asks(r, RequestIds, Required) ==> c.idsRequired)
      && (Asks(r, Multiplexing, UnaryField) ==> c.unary)
      && (Asks(r, Multiplexing, Streams) ==> c.streams)
    ensures var c := SayHello(i, commands, payload).capabilities.tabs; var r := payload[CapabilitiesField].fields;
      && (Asks(r, Tabs, StableProviderIdentity) ==> c.stableProviderIdentity)
      && (Asks(r, Tabs, StableBrowserIdentity) ==> c.stableBrowserIdentity)
      && (Asks(r, Tabs, StableTabIdentity) ==> c.stableTabIdentity)
      && (Asks(r, Tabs, AuthoritativeClaim) ==> c.authoritativeClaim)
      && (Asks(r, Tabs, FencingField) ==> c.fencing)
      && (Asks(r, Tabs, ConcurrentTabs) ==> c.concurrentTabs)
      && (Asks(r, Tabs, StableIdentity) ==> c.stableIdentity)
      && (Asks(r, Tabs, Coordination) ==> c.coordination)
      && (Asks(r, Tabs, Concurrent) ==> c.concurrent)
  {
    hide Narrowed, Filter, ShapeValid, Covered, RequestedAliasesConsistent;
    var r := payload[CapabilitiesField].fields;
    assert Satisfied(BaseCapabilities(i, commands), SayHello(i, commands, payload).capabilities, r);
  }

  // ---------- both ends together ----------

  /** What a request must not give up for the client to go on: a list of commands, required ids
      and their scope. */
  predicate KeepsEssentials(payload: Fields) {
    && Sub(payload, CapabilitiesField).Some?
    && var r := Sub(payload, CapabilitiesField).value;
    && Commands in r
    && NotFalse(Sub(r, RequestIds), Required)
    && (Sub(r, RequestIds).Some? && Scope in Sub(r, RequestIds).value ==> Sub(r, RequestIds).value[Scope] != Str(NONE))
  }

  lemma StrsHold(s: seq<string>, x: string)
    ensures Str(x) in Strs(s).items <==> x in s
  {
    assert forall i | 0 <= i < |s| :: Strs(s).items[i] == Str(s[i]);
    if x in s {
      var i :| 0 <= i < |s| && s[i] == x;
      assert Strs(s).items[i] == Str(x);
    }
  }

  lemma SingleStr(s: seq<string>, only: string)
    requires s == [only]
    ensures Strs(s) == List([Str(only)])
  {
  }

  lemma NarrowedSingle(r: Option<Fields>, f: Field, only: string)
    requires Covered([only], r, f)
    ensures Narrowed([only], r, f) == [only]
  {
    if r.Some? && f in r.value && r.value[f].List? {
      var items := r.value[f].items;
      assert items[0].Str? && items[0].s in [only] && items[0] in items;
      assert Filter([only][1..], items) == [];
    }
  }

  /** The fields a client finds in what `hello` sent. */
  lemma WireFields(g: Greeting)
    ensures var c := Sub(Wire(g).fields, CapabilitiesField);
      && c.Some?
      && c.value == IdentityFields(g.capabilities.identity) + OfferFields(g.capabilities)
      && Accepted in Wire(g).fields && Wire(g).fields[Accepted] == Flag(g.accepted)
  {
  }

  /** The two texts that every greeting carries are bounded themselves. */
  lemma ConstantsAreBounded()
    ensures IsBoundedText(NODE, MAX_IDENTITY_FIELD_LENGTH) && IsBoundedText(VERSION, MAX_IDENTITY_FIELD_LENGTH)
  {
  }

  lemma OfferKeys(c: Capabilities)
    ensures OfferFields(c).Keys !! GREETING_IDENTITY
  {
    hide Strs, TabFields;
  }

  lemma IdentityCrosses(g: Greeting)
    requires g.identity == g.capabilities.identity && ValidIdentity(g.identity)
    ensures IdentityAgrees(Wire(g).fields, IdentityFields(g.capabilities.identity) + OfferFields(g.capabilities))
  {
    hide IsIdentityText, IdentityFields, OfferFields;
    OfferKeys(g.capabilities);
    IdentityTexts(g.identity);
    forall f | f in GREETING_IDENTITY
      ensures f in Wire(g).fields && Wire(g).fields[f] == IdentityFields(g.identity)[f] && f !in OfferFields(g.capabilities)
    {
    }
  }

  lemma IdentityTexts(i: Identity)
    requires ValidIdentity(i)
    ensures forall f | f in GREETING_IDENTITY :: f in IdentityFields(i) && IsIdentityText(IdentityFields(i)[f])
  {
    hide IsBoundedText;
    ConstantsAreBounded();
  }

  /** What the client checks of the offer, apart from the commands. */
  lemma OfferPasses(c: Capabilities)
    requires c.transports == [STDIO] && c.modes == [NDJSON] && c.supportedProtocolVersions == [VERSION] && !c.tokenDeltas
    requires c.tabs.coordinationScope in {NONE, PROCESS, PROVIDER} && AliasesConsistent(c.tabs)
    ensures var f := IdentityFields(c.identity) + OfferFields(c);
      && VersionUsable(f) && ListOf(Some(f), Transports, {STDIO, HTTP}, STDIO) && StreamingUsable(f)
      && HasFlags(Sub(f, Multiplexing), {UnaryField, Streams})
      && HasFlags(Sub(f, Cancellation), {Supported, Requests, Streams})
      && (IdsUsable(f) <==> c.idsRequired && c.idScope in {CONNECTION, PROCESS})
  {
    hide TabFields, Strs;
    SingleStr(c.transports, STDIO);
    SingleStr(c.modes, NDJSON);
    SingleStr(c.supportedProtocolVersions, VERSION);
  }

  lemma TabsPass(c: Capabilities)
    requires c.tabs.coordinationScope in {NONE, PROCESS, PROVIDER} && AliasesConsistent(c.tabs)
    ensures TabsUsable(IdentityFields(c.identity) + OfferFields(c))
  {
    hide TabFields, Strs, IdentityFields;
    var f := IdentityFields(c.identity) + OfferFields(c);
    assert Sub(f, Tabs) == Some(TabFields(c.tabs));
    StableLookups(c.tabs);
    OtherLookups(c.tabs);
  }

  lemma StableLookups(t: TabSupport)
    ensures var f := TabFields(t);
      && {StableProviderIdentity, StableBrowserIdentity, StableTabIdentity, StableIdentity} <= f.Keys
      && f[StableProviderIdentity] == Flag(t.stableProviderIdentity) && f[StableBrowserIdentity] == Flag(t.stableBrowserIdentity)
      && f[StableTabIdentity] == Flag(t.stableTabIdentity) && f[StableIdentity] == Flag(t.stableIdentity)
  {
  }

  lemma OtherLookups(t: TabSupport)
    ensures var f := TabFields(t);
      && {CoordinationScope, Coordination, ConcurrentTabs, Concurrent, AuthoritativeClaim, FencingField} <= f.Keys
      && f[CoordinationScope] == Str(t.coordinationScope) && f[Coordination] == Flag(t.coordination)
      && f[ConcurrentTabs] == Flag(t.concurrentTabs) && f[Concurrent] == Flag(t.concurrent)
      && f[AuthoritativeClaim] == Flag(t.authoritativeClaim) && f[FencingField] == Flag(t.fencing)
  {
  }

  lemma CommandsPass(i: Identity, commands: seq<string>, payload: Fields)
    requires SayHello(i, commands, payload).accepted && commands != [] && Sub(payload, CapabilitiesField).Some?
    ensures var c := SayHello(i, commands, payload).capabilities; var asked := Sub(payload, CapabilitiesField).value;
      CommandsAgree(IdentityFields(c.identity) + OfferFields(c), asked) <==> Commands in asked
  {
    hide Filter, TabFields, TabsSatisfied, TabsShape;
    var c := SayHello(i, commands, payload).capabilities;
    var r := Sub(payload, CapabilitiesField).value;
    var f := IdentityFields(c.identity) + OfferFields(c);
    assert f[Commands] == Strs(c.commands);
    if Commands in r {
      var items := r[Commands].items;
      forall k | 0 <= k < |items| ensures items[k] in Strs(c.commands).items {
        CoveredIsExact(commands, Some(r), Commands, items[k].s);
        StrsHold(c.commands, items[k].s);
      }
      assert items[0] in Strs(c.commands).items;
    }
  }

  /** What an accepted hello grants of everything but the commands. */
  lemma AcceptedGrants(i: Identity, commands: seq<string>, payload: Fields)
    requires SayHello(i, commands, payload).accepted
    ensures var c := SayHello(i, commands, payload).capabilities;
      && c.transports == [STDIO] && c.modes == [NDJSON] && c.supportedProtocolVersions == [VERSION] && !c.tokenDeltas
      && c.tabs == BaseCapabilities(i, commands).tabs && c.identity == i
      && c.idScope in {CONNECTION, NONE}
      && (KeepsEssentials(payload) ==> c.idsRequired && c.idScope == CONNECTION)
  {
    hide Narrowed, Filter, ShapeValid;
    var requested := Sub(payload, CapabilitiesField);
    if requested.Some? {
      NarrowedSingle(requested, Transports, STDIO);
      NarrowedSingle(requested, SupportedProtocolVersions, VERSION);
      NarrowedSingle(Sub(requested.value, Streaming), Modes, NDJSON);
    }
  }

  /** The client goes on with an accepted hello if and only if its own payload kept the essentials. */
  lemma AcceptedIsNegotiatedIff(i: Identity, commands: seq<string>, payload: Fields)
    requires ValidIdentity(i) && commands != [] && SayHello(i, commands, payload).accepted
    ensures IsNegotiated(Wire(SayHello(i, commands, payload)), payload) <==> KeepsEssentials(payload)
  {
    hide SayHello, CommandsAgree, IdentityAgrees, VersionUsable, ListOf, StreamingUsable, IdsUsable, HasFlags, TabsUsable, OfferFields,
      IdentityFields, Wire;
    var g := SayHello(i, commands, payload);
    AcceptedGrants(i, commands, payload);
    GreetingIdentity(i, commands, payload);
    WireFields(g);
    IdentityCrosses(g);
    OfferPasses(g.capabilities);
    TabsPass(g.capabilities);
    if Sub(payload, CapabilitiesField).Some? {
      CommandsPass(i, commands, payload);
      EssentialsNeeded(i, commands, payload);
    }
    WireIsObject(g);
  }

  lemma WireIsObject(g: Greeting)
    ensures Wire(g).Object?
  {
  }

  lemma GreetingIdentity(i: Identity, commands: seq<string>, payload: Fields)
    ensures SayHello(i, commands, payload).identity == i
  {
  }

  /** Giving up the ids or their scope shows in the grant. */
  lemma EssentialsNeeded(i: Identity, commands: seq<string>, payload: Fields)
    requires SayHello(i, commands, payload).accepted && Sub(payload, CapabilitiesField).Some?
    ensures var c := SayHello(i, commands, payload).capabilities; var r := Sub(payload, CapabilitiesField).value;
      c.idsRequired && c.idScope == CONNECTION
      <==> NotFalse(Sub(r, RequestIds), Required)
           && (Sub(r, RequestIds).Some? && Scope in Sub(r, RequestIds).value ==> Sub(r, RequestIds).value[Scope] != Str(NONE))
  {
    hide Narrowed, ShapeValid, TabsSatisfied;
  }

  /** The client's own hello is accepted, negotiated and multiplexed by every backend that has the
      required commands. */
  lemma OwnHelloIsMultiplexed(i: Identity, commands: seq<string>)
    requires ValidIdentity(i) && forall k | 0 <= k < |REQUIRED_COMMANDS| :: REQUIRED_COMMANDS[k] in commands
    ensures var g := SayHello(i, commands, ClientPayload());
      g.accepted && IsNegotiated(Wire(g), ClientPayload()) && Verdict(Wire(g), ClientPayload()) == T.Multiplexed
  {
    hide IsNegotiated, SayHello, ClientPayload, KeepsEssentials, IdentityFields, Wire;
    var p := ClientPayload();
    var g := SayHello(i, commands, p);
    OwnHelloIsAccepted(i, commands);
    OwnEssentials();
    OwnGrants(i, commands);
    assert REQUIRED_COMMANDS[0] in commands;
    AcceptedIsNegotiatedIff(i, commands, p);
    WireFields(g);
    OfferedMultiplexing(g.capabilities);
  }

  lemma OfferedMultiplexing(c: Capabilities)
    ensures Sub(IdentityFields(c.identity) + OfferFields(c), Multiplexing) == Some(map[UnaryField := Flag(c.unary), Streams := Flag(c.streams)])
  {
    hide Strs, TabFields;
  }

  lemma OwnEssentials()
    ensures KeepsEssentials(ClientPayload())
  {
    hide Strs, TabFields;
  }

  lemma OwnTabs()
    ensures TabsShape(Object(TabFields(NO_TABS))) && RequestedAliasesConsistent(TabFields(NO_TABS))
    ensures forall f | f in TAB_FLAGS :: !IsTrue(Some(TabFields(NO_TABS)), f)
    ensures ScopeGranted(NONE, Some(TabFields(NO_TABS)), CoordinationScope)
  {
    hide TabFields;
    StableLookups(NO_TABS);
    OtherLookups(NO_TABS);
  }

  lemma StrsAreStrings(s: seq<string>)
    ensures IsStrings(Strs(s))
  {
  }

  lemma OwnFields()
    ensures var r := ClientCapabilities();
      && r.Keys == {Commands, Transports, Streaming, SupportedProtocolVersions, RequestIds, Multiplexing, Cancellation, Tabs}
      && r[Commands] == Strs(REQUIRED_COMMANDS) && r[Transports] == Strs([STDIO]) && r[SupportedProtocolVersions] == Strs([VERSION])
      && StreamingShape(r[Streaming]) && RequestIdsShape(r[RequestIds]) && MultiplexingShape(r[Multiplexing])
      && CancellationShape(r[Cancellation]) && r[Tabs] == Object(TabFields(NO_TABS))
  {
    hide TabFields, Strs;
    StrsAreStrings([NDJSON]);
  }

  lemma OwnShape()
    ensures ShapeValid(ClientCapabilities())
    ensures Sub(ClientCapabilities(), Tabs) == Some(TabFields(NO_TABS))
  {
    hide TabFields, TabsShape, IsIdentityText, Strs, ClientCapabilities, StreamingShape, RequestIdsShape, MultiplexingShape,
      CancellationShape;
    OwnTabs();
    OwnFields();
    StrsAreStrings(REQUIRED_COMMANDS);
    StrsAreStrings([STDIO]);
    StrsAreStrings([VERSION]);
  }

  lemma OwnLists(commands: seq<string>)
    requires forall k | 0 <= k < |REQUIRED_COMMANDS| :: REQUIRED_COMMANDS[k] in commands
    ensures var r := Some(ClientCapabilities());
      && Covered(commands, r, Commands) && Covered([STDIO], r, Transports) && Covered([VERSION], r, SupportedProtocolVersions)
      && Covered([NDJSON], Sub(ClientCapabilities(), Streaming), Modes)
  {
    hide TabFields;
  }

  lemma OwnGrants(i: Identity, commands: seq<string>)
    ensures var c := SayHello(i, commands, ClientPayload()).capabilities; var r := ClientCapabilities();
      && c == Intersect(BaseCapabilities(i, commands), Some(r))
      && c.unary && c.streams && c.idsRequired && c.idScope == CONNECTION && c.tabs.coordinationScope == NONE
      && ScopeGranted(CONNECTION, Sub(r, RequestIds), Scope)
      && !IsTrue(Sub(r, Streaming), TokenDeltas) && !IsTrue(Sub(r, Cancellation), Supported)
      && !IsTrue(Sub(r, Cancellation), Requests) && !IsTrue(Sub(r, Cancellation), Streams)
  {
    hide TabFields, Narrowed, Satisfied;
    OwnTabs();
  }

  lemma OwnHelloIsAccepted(i: Identity, commands: seq<string>)
    requires forall k | 0 <= k < |REQUIRED_COMMANDS| :: REQUIRED_COMMANDS[k] in commands
    ensures SayHello(i, commands, ClientPayload()).accepted
  {
    hide ClientCapabilities, TabFields, Intersect, ShapeValid, Covered, RequestedAliasesConsistent;
    OwnTabs();
    OwnShape();
    OwnLists(commands);
    OwnGrants(i, commands);
  }
}
