/** The Cisco MSO "mso_schema_template_bd" module: how it normalises its
    parameters, finds the template and the bridge domain (BD) in the schema,
    resolves multicast route-map filters by name, and builds the JSON-patch
    operations it sends to the controller. The controller's answers and the
    helpers of the shared MSO module utilities are inputs. */
module MsoSchemaTemplateBd {
  import opened Common
  import opened JsonValues

  // ------------------------------------------------------------ parameters

  datatype State = Present | Absent | Query

  /** The module parameters main reads, after Ansible has applied their
      defaults (layer2_stretch defaults to true, state to present). The
      schema name only selects the schema the controller answers with;
      subnets and the DHCP policies only reach helpers, so both are absent. */
  datatype Params = Params(
    template: string,
    bd: Option<string>,
    displayName: Option<string>,
    description: Option<string>,
    intersiteBumTraffic: Option<bool>,
    optimizeWanBandwidth: Option<bool>,
    layer2Stretch: Option<bool>,
    layer2UnknownUnicast: Option<string>,
    layer3Multicast: Option<bool>,
    vrf: Option<seq<Member>>,
    unknownMulticastFlooding: Option<string>,
    multiDestinationFlooding: Option<string>,
    ipv6UnknownMulticastFlooding: Option<string>,
    arpFlooding: Option<bool>,
    virtualMacAddress: Option<string>,
    unicastRouting: Option<bool>,
    sourceFilter: Option<string>,
    destinationFilter: Option<string>,
    state: State)

  function StateName(s: State): string {
    match s
    case Present => "present"
    case Absent => "absent"
    case Query => "query"
  }

  /** The module's required_if table: absent needs bd, present needs bd and
      vrf. Returns the required parameters that are unset. */
  function MissingRequired(p: Params): (missing: seq<string>)
    ensures missing == [] <==>
      (p.state == Absent ==> p.bd.Some?) && (p.state == Present ==> p.bd.Some? && p.vrf.Some?)
  {
    match p.state
    case Absent => if p.bd.None? then ["bd"] else []
    case Present => (if p.bd.None? then ["bd"] else []) + (if p.vrf.None? then ["vrf"] else [])
    case Query => []
  }

  // ------------------------------------------------------ choice mapping

  const MulticastChoices: seq<Option<string>> := [None, Some("optimized_flooding"), Some("flood")]
  const DestinationChoices: seq<Option<string>> := [None, Some("flood_in_bd"), Some("drop"), Some("encap-flood")]

  /** unknown_multicast_flooding and ipv6_unknown_multicast_flooding: the
      choice "optimized_flooding" is sent as "opt-flood", anything else as
      given. */
  function MulticastAction(v: Option<string>): (r: Option<string>)
    ensures r != v <==> v == Some("optimized_flooding")
    ensures v == Some("optimized_flooding") ==> r == Some("opt-flood")
  {
    if v == Some("optimized_flooding") then Some("opt-flood") else v
  }

  /** multi_destination_flooding: "flood_in_bd" is sent as "bd-flood",
      anything else as given. */
  function DestinationAction(v: Option<string>): (r: Option<string>)
    ensures r != v <==> v == Some("flood_in_bd")
    ensures v == Some("flood_in_bd") ==> r == Some("bd-flood")
  {
    if v == Some("flood_in_bd") then Some("bd-flood") else v
  }

  /** The mappings send distinct choices to distinct API values, and a value
      already in API form is left alone. */
  lemma ChoicesStayDistinct(v: Option<string>, w: Option<string>)
    ensures v in MulticastChoices && w in MulticastChoices && MulticastAction(v) == MulticastAction(w) ==> v == w
    ensures v in DestinationChoices && w in DestinationChoices && DestinationAction(v) == DestinationAction(w) ==> v == w
    ensures MulticastAction(MulticastAction(v)) == MulticastAction(v)
    ensures DestinationAction(DestinationAction(v)) == DestinationAction(v)
  {
  }

  /** Flooding unknown unicast traffic forces ARP flooding on. */
  function ArpFlooding(layer2UnknownUnicast: Option<string>, arp: Option<bool>): (r: Option<bool>)
    ensures layer2UnknownUnicast == Some("flood") ==> r == Some(true)
    ensures layer2UnknownUnicast != Some("flood") ==> r == arp
  {
    if layer2UnknownUnicast == Some("flood") then Some(true) else arp
  }

  /** Python's `s.replace(" ", "")`. */
  function RemoveSpaces(s: string): (r: string)
    ensures ' ' !in r
    ensures |r| <= |s|
    decreases |s|
  {
    if s == [] then []
    else (if s[0] == ' ' then [] else [s[0]]) + RemoveSpaces(s[1..])
  }

  /** Removing spaces keeps every other character, as often as it occurred. */
  lemma {:induction false} RemoveSpacesKeeps(s: string, c: char)
    requires c != ' '
    ensures multiset(RemoveSpaces(s))[c] == multiset(s)[c]
    decreases |s|
  {
    if s != [] {
      RemoveSpacesKeeps(s[1..], c);
      assert s == [s[0]] + s[1..];
    }
  }

  /** A name without spaces is left as it is, so the removal is idempotent. */
  lemma {:induction false} RemoveSpacesNoSpace(s: string)
    requires ' ' !in s
    ensures RemoveSpaces(s) == s
    decreases |s|
  {
    if s != [] {
      RemoveSpacesNoSpace(s[1..]);
    }
  }

  /** The vrf reference with the spaces taken out of its template name. */
  function NormalizedVrf(vrf: Option<seq<Member>>): (r: Option<seq<Member>>)
    ensures r.None? <==> vrf.None?
  {
    if vrf.Some? && Get(vrf.value, "template").Str? then
      Some(Put(vrf.value, "template", Str(RemoveSpaces(Get(vrf.value, "template").s))))
    else vrf
  }

  /** The vrf's template, if any, loses its spaces; every other entry of the
      reference stays as given. */
  lemma NormalizedVrfEntries(vrf: seq<Member>, k: string)
    ensures Get(vrf, "template").Str? ==>
      Get(NormalizedVrf(Some(vrf)).value, "template") == Str(RemoveSpaces(Get(vrf, "template").s))
    ensures k != "template" ==> Lookup(NormalizedVrf(Some(vrf)).value, k) == Lookup(vrf, k)
  {
    if Get(vrf, "template").Str? && k != "template" {
      PutOthers(vrf, "template", Str(RemoveSpaces(Get(vrf, "template").s)), k);
    }
  }

  /** The locals main rewrites before it looks anything up. */
  datatype Settings = Settings(
    template: string,
    vrf: Option<seq<Member>>,
    unknownMulticast: Option<string>,
    multiDestination: Option<string>,
    ipv6UnknownMulticast: Option<string>,
    arpFlooding: Option<bool>)

  function Settled(p: Params): Settings {
    Settings(RemoveSpaces(p.template), NormalizedVrf(p.vrf),
             MulticastAction(p.unknownMulticastFlooding), DestinationAction(p.multiDestinationFlooding),
             MulticastAction(p.ipv6UnknownMulticastFlooding),
             ArpFlooding(p.layer2UnknownUnicast, p.arpFlooding))
  }

  /** The statements at the head of main that reassign the template, the vrf
      and the flooding locals. */
  method Settle(p: Params) returns (s: Settings)
    ensures s == Settled(p)
  {
    var template := RemoveSpaces(p.template);
    var vrf := p.vrf;
    if vrf.Some? && Get(vrf.value, "template").Str? {
      vrf := Some(Put(vrf.value, "template", Str(RemoveSpaces(Get(vrf.value, "template").s))));
    }
    var unknownMulticast := p.unknownMulticastFlooding;
    var ipv6UnknownMulticast := p.ipv6UnknownMulticastFlooding;
    var multiDestination := p.multiDestinationFlooding;
    var arp := p.arpFlooding;
    if unknownMulticast == Some("optimized_flooding") {
      unknownMulticast := Some("opt-flood");
    }
    if ipv6UnknownMulticast == Some("optimized_flooding") {
      ipv6UnknownMulticast := Some("opt-flood");
    }
    if multiDestination == Some("flood_in_bd") {
      multiDestination := Some("bd-flood");
    }
    if p.layer2UnknownUnicast == Some("flood") {
      arp := Some(true);
    }
    s := Settings(template, vrf, unknownMulticast, multiDestination, ipv6UnknownMulticast, arp);
  }

  // ------------------------------------------------------- the schema

  /** A template of the schema: its name, its tenant and its BDs. */
  datatype Template = Template(name: string, tenantId: Value, bds: seq<seq<Member>>)

  /** What query_schema answers: the schema's API path and its templates. */
  datatype Schema = Schema(path: string, templates: seq<Template>)

  function TemplateNames(ts: seq<Template>): (names: seq<string>)
    ensures |names| == |ts|
    ensures forall i :: 0 <= i < |ts| ==> names[i] == ts[i].name
  {
    seq(|ts|, i requires 0 <= i < |ts| => ts[i].name)
  }

  function BdNames(bds: seq<seq<Member>>): (names: seq<Value>)
    ensures |names| == |bds|
    ensures forall i :: 0 <= i < |bds| ==> names[i] == Get(bds[i], "name")
  {
    seq(|bds|, i requires 0 <= i < |bds| => Get(bds[i], "name"))
  }

  /** Python's `xs.index(x)`: the first position holding x. */
  function IndexOf<T(==)>(xs: seq<T>, x: T): (i: nat)
    requires x in xs
    ensures i < |xs| && xs[i] == x
    ensures forall j :: 0 <= j < i ==> xs[j] != x
  {
    if xs[0] == x then 0 else 1 + IndexOf(xs[1..], x)
  }

  /** mso.existing once the BDs are scanned: the first BD with the given
      name, or the empty dict it starts as. It is non-empty exactly when a
      BD of that name exists. */
  function Existing(bd: Option<string>, bds: seq<seq<Member>>): (e: Value)
    ensures e.Object?
    ensures Truthy(e) <==> bd.Some? && Str(bd.value) in BdNames(bds)
    ensures Truthy(e) ==> Get(e.members, "name") == Str(bd.value)
  {
    if bd.Some? && Str(bd.value) in BdNames(bds) then
      var b := bds[IndexOf(BdNames(bds), Str(bd.value))];
      assert Get(b, "name") != Null;
      Object(b)
    else Object([])
  }

  // ------------------------------------------------- route-map filters

  /** A multicast route-map policy: its name (None when unnamed) and its
      uuid ("" when unset; only its truth value is ever tested). */
  datatype Policy = Policy(name: Option<string>, uuid: string)

  /** A tenant template as the controller lists it: its tenant and the
      route-map policies of its tenant policy template. */
  datatype TenantTemplate = TenantTemplate(tenantId: Value, policies: seq<Policy>)

  /** The tenant templates of the schema template's tenant, in order. */
  function SameTenant(ts: seq<TenantTemplate>, tenantId: Value): (r: seq<TenantTemplate>)
    ensures |r| <= |ts|
    ensures forall i :: 0 <= i < |r| ==> r[i].tenantId == tenantId && r[i] in ts
    ensures forall t :: t in ts && t.tenantId == tenantId ==> t in r
    decreases |ts|
  {
    if ts == [] then []
    else (if ts[0].tenantId == tenantId then [ts[0]] else []) + SameTenant(ts[1..], tenantId)
  }

  /** source_id and destination_id ("" for None). */
  datatype Ids = Ids(source: string, destination: string)

  const NoIds := Ids("", "")

  /** A filter parameter that is set and not empty. */
  predicate Wanted(f: Option<string>) {
    f.Some? && f.value != ""
  }

  /** The break test of both loops: every filter is unset or resolved. */
  predicate Done(src: Option<string>, dst: Option<string>, ids: Ids) {
    (src.None? || ids.source != "") && (dst.None? || ids.destination != "")
  }

  /** One policy of the inner loop: a policy named like a wanted filter
      gives that filter its uuid. */
  function Visit(pol: Policy, src: Option<string>, dst: Option<string>, ids: Ids): Ids {
    Ids(if Wanted(src) && pol.name == src then pol.uuid else ids.source,
        if Wanted(dst) && pol.name == dst then pol.uuid else ids.destination)
  }

  /** The inner loop over one template's policies, stopping once Done. */
  function ScanPolicies(ps: seq<Policy>, src: Option<string>, dst: Option<string>, ids: Ids): Ids
    decreases |ps|
  {
    if ps == [] then ids
    else
      var next := Visit(ps[0], src, dst, ids);
      if Done(src, dst, next) then next else ScanPolicies(ps[1..], src, dst, next)
  }

  /** The outer loop over the tenant templates, stopping once Done. */
  function ScanTemplates(ts: seq<TenantTemplate>, src: Option<string>, dst: Option<string>, ids: Ids): Ids
    decreases |ts|
  {
    if ts == [] then ids
    else
      var next := ScanPolicies(ts[0].policies, src, dst, ids);
      if Done(src, dst, next) then next else ScanTemplates(ts[1..], src, dst, next)
  }

  function SourceMissing(name: string): string {
    "Route Map Source Filter '" + name + "' not found."
  }

  function DestinationMissing(name: string): string {
    "Route Map Destination Filter '" + name + "' not found."
  }

  /** The error message of get_route_map_filter_uuids: empty exactly when
      every wanted filter was resolved; otherwise the missing source, then
      the missing destination, on separate lines. */
  function FilterError(src: Option<string>, dst: Option<string>, ids: Ids): (msg: string)
    ensures msg == "" <==> (Wanted(src) ==> ids.source != "") && (Wanted(dst) ==> ids.destination != "")
    ensures Wanted(src) && ids.source == "" && Wanted(dst) && ids.destination == "" ==>
      msg == SourceMissing(src.value) + "\n" + DestinationMissing(dst.value)
    ensures Wanted(src) && ids.source == "" && !(Wanted(dst) && ids.destination == "") ==>
      msg == SourceMissing(src.value)
    ensures !(Wanted(src) && ids.source == "") && Wanted(dst) && ids.destination == "" ==>
      msg == DestinationMissing(dst.value)
  {
    var first := if Wanted(src) && ids.source == "" then SourceMissing(src.value) else "";
    if Wanted(dst) && ids.destination == "" then
      (if first == "" then DestinationMissing(dst.value) else first + "\n" + DestinationMissing(dst.value))
    else first
  }

  /** get_route_map_filter_uuids: the nested search with its two breaks,
      then the error message. The tenant templates are those the controller
      lists, with their policies already fetched. */
  method RouteMapFilterUuids(tenants: seq<TenantTemplate>, tenantId: Value, src: Option<string>, dst: Option<string>)
    returns (ids: Ids, error: string)
    ensures ids == ScanTemplates(SameTenant(tenants, tenantId), src, dst, NoIds)
    ensures error == FilterError(src, dst, ids)
  {
    var templates := SameTenant(tenants, tenantId);
    ids := NoIds;
    var t := 0;
    while t < |templates|
      invariant 0 <= t <= |templates|
      invariant ScanTemplates(templates[t..], src, dst, ids) == ScanTemplates(templates, src, dst, NoIds)
    {
      ScanTemplatesStep(templates, t, src, dst, ids);
      ids := ScanTemplate(templates[t].policies, src, dst, ids);
      if Done(src, dst, ids) {
        break;
      }
      t := t + 1;
    }
    error := MissingFilters(src, dst, ids);
  }

  /** The tail of get_route_map_filter_uuids: one line per wanted filter
      that was not found. */
  method MissingFilters(src: Option<string>, dst: Option<string>, ids: Ids) returns (error: string)
    ensures error == FilterError(src, dst, ids)
  {
    error := "";
    if Wanted(src) && ids.source == "" {
      error := SourceMissing(src.value);
    }
    if Wanted(dst) && ids.destination == "" {
      if error == "" {
        error := DestinationMissing(dst.value);
      } else {
        error := error + "\n" + DestinationMissing(dst.value);
      }
    }
  }

  /** The inner loop of get_route_map_filter_uuids over one template's
      policies, starting from the uuids found so far. */
  method ScanTemplate(ps: seq<Policy>, src: Option<string>, dst: Option<string>, start: Ids) returns (ids: Ids)
    ensures ids == ScanPolicies(ps, src, dst, start)
  {
    var sourceId, destinationId := start.source, start.destination;
    var j := 0;
    while j < |ps|
      invariant 0 <= j <= |ps|
      invariant ScanPolicies(ps[j..], src, dst, Ids(sourceId, destinationId)) == ScanPolicies(ps, src, dst, start)
    {
      ScanPoliciesStep(ps, j, src, dst, Ids(sourceId, destinationId));
      if Wanted(src) && ps[j].name == src {
        sourceId := ps[j].uuid;
      }
      if Wanted(dst) && ps[j].name == dst {
        destinationId := ps[j].uuid;
      }
      if Done(src, dst, Ids(sourceId, destinationId)) {
        break;
      }
      j := j + 1;
    }
    ids := Ids(sourceId, destinationId);
  }

  /** One turn of the inner loop, on the remaining policies. */
  lemma ScanPoliciesStep(ps: seq<Policy>, j: nat, src: Option<string>, dst: Option<string>, ids: Ids)
    requires j < |ps|
    ensures var next := Visit(ps[j], src, dst, ids);
      ScanPolicies(ps[j..], src, dst, ids) == if Done(src, dst, next) then next else ScanPolicies(ps[j + 1..], src, dst, next)
  {
    assert ps[j..][0] == ps[j] && ps[j..][1..] == ps[j + 1..];
  }

  /** One turn of the outer loop, on the remaining templates. */
  lemma ScanTemplatesStep(ts: seq<TenantTemplate>, t: nat, src: Option<string>, dst: Option<string>, ids: Ids)
    requires t < |ts|
    ensures var next := ScanPolicies(ts[t].policies, src, dst, ids);
      ScanTemplates(ts[t..], src, dst, ids) == if Done(src, dst, next) then next else ScanTemplates(ts[t + 1..], src, dst, next)
  {
    assert ts[t..][0] == ts[t] && ts[t..][1..] == ts[t + 1..];
  }

  /** The policies of all templates, one template after another. */
  function Flatten(ts: seq<TenantTemplate>): seq<Policy>
    decreases |ts|
  {
    if ts == [] then [] else ts[0].policies + Flatten(ts[1..])
  }

  /** Scanning two runs of policies: the second is scanned only if the first
      did not finish the search. */
  lemma {:induction false} ScanPoliciesAppend(a: seq<Policy>, b: seq<Policy>, src: Option<string>, dst: Option<string>, ids: Ids)
    requires !Done(src, dst, ids)
    ensures ScanPolicies(a + b, src, dst, ids) ==
      var mid := ScanPolicies(a, src, dst, ids);
      if Done(src, dst, mid) then mid else ScanPolicies(b, src, dst, mid)
    decreases |a|
  {
    if a != [] {
      assert (a + b)[0] == a[0] && (a + b)[1..] == a[1..] + b;
      var next := Visit(a[0], src, dst, ids);
      if !Done(src, dst, next) {
        ScanPoliciesAppend(a[1..], b, src, dst, next);
      }
    } else {
      assert a + b == b;
    }
  }

  /** The two nested loops, with their two breaks, search the policies of
      all templates as one run. */
  lemma {:induction false} ScanTemplatesFlat(ts: seq<TenantTemplate>, src: Option<string>, dst: Option<string>, ids: Ids)
    requires !Done(src, dst, ids)
    ensures ScanTemplates(ts, src, dst, ids) == ScanPolicies(Flatten(ts), src, dst, ids)
    decreases |ts|
  {
    if ts != [] {
      ScanPoliciesAppend(ts[0].policies, Flatten(ts[1..]), src, dst, ids);
      var next := ScanPolicies(ts[0].policies, src, dst, ids);
      if !Done(src, dst, next) {
        ScanTemplatesFlat(ts[1..], src, dst, next);
      }
    }
  }

  datatype Role = Source | Destination

  function FilterOf(r: Role, src: Option<string>, dst: Option<string>): Option<string> {
    if r == Source then src else dst
  }

  function IdOf(r: Role, ids: Ids): string {
    if r == Source then ids.source else ids.destination
  }

  /** Every uuid the search returns belongs to a policy named like the
      filter: a result that differs from the start came from such a policy. */
  lemma {:induction false} ScanSound(ps: seq<Policy>, src: Option<string>, dst: Option<string>, ids: Ids, r: Role)
    ensures var out := IdOf(r, ScanPolicies(ps, src, dst, ids));
      out == IdOf(r, ids) ||
      exists j :: 0 <= j < |ps| && Wanted(FilterOf(r, src, dst)) && ps[j].name == FilterOf(r, src, dst) && ps[j].uuid == out
    decreases |ps|
  {
    if ps != [] {
      var next := Visit(ps[0], src, dst, ids);
      if !Done(src, dst, next) {
        ScanSound(ps[1..], src, dst, next, r);
        var out := IdOf(r, ScanPolicies(ps, src, dst, ids));
        if out != IdOf(r, next) {
          var j :| 0 <= j < |ps[1..]| && Wanted(FilterOf(r, src, dst)) && ps[1..][j].name == FilterOf(r, src, dst) && ps[1..][j].uuid == out;
          assert ps[j + 1] == ps[1..][j];
        }
      }
    }
  }

  /** Route-map policy names within a tenant are unique on the controller. */
  predicate UniqueNames(ps: seq<Policy>) {
    forall i, j :: 0 <= i < j < |ps| && ps[i].name.Some? ==> ps[i].name != ps[j].name
  }

  /** With unique names, a wanted filter that names a policy gets exactly
      that policy's uuid. */
  lemma {:induction false} ScanComplete(ps: seq<Policy>, src: Option<string>, dst: Option<string>, ids: Ids, r: Role, k: nat)
    requires UniqueNames(ps) && k < |ps|
    requires Wanted(FilterOf(r, src, dst)) && ps[k].name == FilterOf(r, src, dst)
    requires IdOf(r, ids) == ""
    ensures IdOf(r, ScanPolicies(ps, src, dst, ids)) == ps[k].uuid
    decreases |ps|
  {
    var f := FilterOf(r, src, dst);
    var next := Visit(ps[0], src, dst, ids);
    if k == 0 {
      if !Done(src, dst, next) {
        ScanSound(ps[1..], src, dst, next, r);
        forall j | 0 <= j < |ps[1..]| ensures ps[1..][j].name != f {
          assert ps[1..][j] == ps[j + 1];
        }
      }
    } else {
      assert ps[0].name != f;
      assert ps[1..][k - 1] == ps[k];
      assert UniqueNames(ps[1..]) by {
        forall i, j | 0 <= i < j < |ps[1..]| && ps[1..][i].name.Some? ensures ps[1..][i].name != ps[1..][j].name {
          assert ps[1..][i] == ps[i + 1] && ps[1..][j] == ps[j + 1];
        }
      }
      ScanComplete(ps[1..], src, dst, next, r, k - 1);
    }
  }

  /** A wanted filter resolves when some policy has its name and a uuid. */
  predicate Resolves(ps: seq<Policy>, f: string) {
    exists j :: 0 <= j < |ps| && ps[j].name == Some(f) && ps[j].uuid != ""
  }

  lemma ScanResolves(ps: seq<Policy>, src: Option<string>, dst: Option<string>, r: Role)
    requires UniqueNames(ps) && Wanted(FilterOf(r, src, dst))
    ensures IdOf(r, ScanPolicies(ps, src, dst, NoIds)) != "" <==> Resolves(ps, FilterOf(r, src, dst).value)
  {
    ScanSound(ps, src, dst, NoIds, r);
    if Resolves(ps, FilterOf(r, src, dst).value) {
      var k :| 0 <= k < |ps| && ps[k].name == FilterOf(r, src, dst) && ps[k].uuid != "";
      ScanComplete(ps, src, dst, NoIds, r, k);
    }
  }

  /** get_route_map_filter_uuids fails exactly when a wanted filter names no
      policy with a uuid among the tenant's templates. */
  lemma FilterErrorIffUnresolved(ts: seq<TenantTemplate>, src: Option<string>, dst: Option<string>)
    requires Wanted(src) || Wanted(dst)
    requires UniqueNames(Flatten(ts))
    ensures FilterError(src, dst, ScanTemplates(ts, src, dst, NoIds)) == "" <==>
      (Wanted(src) ==> Resolves(Flatten(ts), src.value)) && (Wanted(dst) ==> Resolves(Flatten(ts), dst.value))
  {
    ScanTemplatesFlat(ts, src, dst, NoIds);
    if Wanted(src) {
      ScanResolves(Flatten(ts), src, dst, Source);
    }
    if Wanted(dst) {
      ScanResolves(Flatten(ts), src, dst, Destination);
    }
  }

  /** The mcastRtMapFilter payload: a reference for each resolved filter. */
  function RouteMapFilter(ids: Ids): seq<Member> {
    (if ids.source != "" then [Member("mcastRtMapSourceRef", Str(ids.source))] else [])
    + (if ids.destination != "" then [Member("mcastRtMapDestRef", Str(ids.destination))] else [])
  }

  // ------------------------------------------------ payload and patches

  /** The BD attributes main may replace. */
  datatype Field =
    | DisplayName | Subnets | VrfRef | IntersiteBumTrafficAllow | OptimizeWanBandwidth
    | L2Stretch | L2UnknownUnicast | L3MCast | DhcpLabel | DhcpLabels | UnkMcastAct
    | MultiDstPktAct | V6unkMcastAct | ArpFlood | Vmac | UnicastRouting | Description
    | McastRtMapFilter

  function Key(f: Field): string {
    match f
    case DisplayName => "displayName"
    case Subnets => "subnets"
    case VrfRef => "vrfRef"
    case IntersiteBumTrafficAllow => "intersiteBumTrafficAllow"
    case OptimizeWanBandwidth => "optimizeWanBandwidth"
    case L2Stretch => "l2Stretch"
    case L2UnknownUnicast => "l2UnknownUnicast"
    case L3MCast => "l3MCast"
    case DhcpLabel => "dhcpLabel"
    case DhcpLabels => "dhcpLabels"
    case UnkMcastAct => "unkMcastAct"
    case MultiDstPktAct => "multiDstPktAct"
    case V6unkMcastAct => "v6unkMcastAct"
    case ArpFlood => "arpFlood"
    case Vmac => "vmac"
    case UnicastRouting => "unicastRouting"
    case Description => "description"
    case McastRtMapFilter => "mcastRtMapFilter"
  }

  /** The order of main's replace tests. */
  const ReplaceOrder: seq<Field> :=
    [ DisplayName, Subnets, VrfRef, IntersiteBumTrafficAllow, OptimizeWanBandwidth, L2Stretch,
      L2UnknownUnicast, L3MCast, DhcpLabel, DhcpLabels, UnkMcastAct, MultiDstPktAct, V6unkMcastAct,
      ArpFlood, Vmac, UnicastRouting, Description, McastRtMapFilter ]

  /** The order of the attributes of the payload dict literal. */
  const PayloadOrder: seq<Field> :=
    [ DisplayName, IntersiteBumTrafficAllow, OptimizeWanBandwidth, L2UnknownUnicast, L2Stretch,
      L3MCast, Subnets, VrfRef, DhcpLabel, UnkMcastAct, MultiDstPktAct, V6unkMcastAct, Vmac, ArpFlood ]

  /** Every attribute is tested, once. */
  lemma ReplaceOrderCovers(f: Field)
    ensures f in ReplaceOrder
    ensures |ReplaceOrder| == 18
  {
  }

  /** The values main holds when it builds the payload, after the defaults
      and the helpers (make_reference, make_subnets, make_dhcp_label). A
      None local is Null; routeMapFilter is None unless filters were given. */
  datatype Locals = Locals(
    bd: string,
    displayName: Option<string>,
    description: Option<string>,
    intersiteBumTraffic: Option<bool>,
    optimizeWanBandwidth: Option<bool>,
    layer2Stretch: Option<bool>,
    layer2UnknownUnicast: Option<string>,
    layer3Multicast: Option<bool>,
    subnets: Value,
    vrfRef: Value,
    dhcpLabel: Value,
    dhcpLabels: Value,
    unknownMulticast: Option<string>,
    multiDestination: Option<string>,
    ipv6UnknownMulticast: Option<string>,
    arpFlooding: Option<bool>,
    virtualMac: Option<string>,
    unicastRouting: Option<bool>,
    routeMapFilter: Option<seq<Member>>)

  /** The local main holds for an attribute. */
  function Supplied(l: Locals, f: Field): Value {
    match f
    case DisplayName => OptStr(l.displayName)
    case Subnets => l.subnets
    case VrfRef => l.vrfRef
    case IntersiteBumTrafficAllow => OptBool(l.intersiteBumTraffic)
    case OptimizeWanBandwidth => OptBool(l.optimizeWanBandwidth)
    case L2Stretch => OptBool(l.layer2Stretch)
    case L2UnknownUnicast => OptStr(l.layer2UnknownUnicast)
    case L3MCast => OptBool(l.layer3Multicast)
    case DhcpLabel => l.dhcpLabel
    case DhcpLabels => l.dhcpLabels
    case UnkMcastAct => OptStr(l.unknownMulticast)
    case MultiDstPktAct => OptStr(l.multiDestination)
    case V6unkMcastAct => OptStr(l.ipv6UnknownMulticast)
    case ArpFlood => OptBool(l.arpFlooding)
    case Vmac => OptStr(l.virtualMac)
    case UnicastRouting => OptBool(l.unicastRouting)
    case Description => OptStr(l.description)
    case McastRtMapFilter => if l.routeMapFilter.Some? then Object(l.routeMapFilter.value) else Null
  }

  /** payload.get(attribute): dhcpLabels and description enter the payload
      only when truthy, so a falsy one reads as None. */
  function Sent(l: Locals, f: Field): (v: Value)
    ensures f !in {DhcpLabels, Description} ==> v == Supplied(l, f)
    ensures f in {DhcpLabels, Description} ==> v == if Truthy(Supplied(l, f)) then Supplied(l, f) else Null
  {
    if f in {DhcpLabels, Description} && !Truthy(Supplied(l, f)) then Null else Supplied(l, f)
  }

  /** The payload dict main hands to sanitize. */
  function Payload(l: Locals): seq<Member> {
    [Member("name", Str(l.bd))]
    + seq(|PayloadOrder|, i requires 0 <= i < |PayloadOrder| => Member(Key(PayloadOrder[i]), Supplied(l, PayloadOrder[i])))
    + (if Truthy(l.dhcpLabels) then [Member(Key(DhcpLabels), l.dhcpLabels)] else [])
    + (if l.unicastRouting.Some? then [Member(Key(UnicastRouting), Bool(l.unicastRouting.value))] else [])
    + (if Truthy(OptStr(l.description)) then [Member(Key(Description), OptStr(l.description))] else [])
    + (if l.routeMapFilter.Some? then [Member(Key(McastRtMapFilter), Object(l.routeMapFilter.value))] else [])
  }

  /** The value an existing BD's attribute is compared with, or None when
      main does not test that attribute: vrfRef is always tested, every
      other attribute only when its local is not None. */
  function Compared(l: Locals, f: Field): (r: Option<Value>)
    ensures f == VrfRef ==> r == Some(l.vrfRef)
    ensures f != VrfRef ==> (r.None? <==> Supplied(l, f).Null?)
    ensures r.Some? ==> r.value == Supplied(l, f)
  {
    if f == VrfRef || !Supplied(l, f).Null? then Some(Supplied(l, f)) else None
  }

  /** The test of one replace: the attribute is tested and the existing BD's
      value differs from it (Python's `!=`). */
  predicate Changed(existing: seq<Member>, l: Locals, f: Field) {
    Compared(l, f).Some? && !PyEq(Get(existing, Key(f)), Compared(l, f).value)
  }

  datatype Op = Remove(path: string) | Add(path: string, value: Value) | Replace(path: string, value: Value)

  function BdsPath(template: string): string {
    "/templates/" + template + "/bds"
  }

  function BdPath(template: string, bd: string): (path: string)
    ensures path == BdsPath(template) + "/" + bd
  {
    "/templates/" + template + "/bds/" + bd
  }

  function ReplaceOne(bdPath: string, existing: seq<Member>, l: Locals, f: Field): seq<Op> {
    if Changed(existing, l, f) then [Replace(bdPath + "/" + Key(f), Sent(l, f))] else []
  }

  /** The replace operations for an existing BD, in the order of the tests. */
  function ReplaceOps(bdPath: string, existing: seq<Member>, l: Locals, fs: seq<Field>): seq<Op>
    decreases |fs|
  {
    if fs == [] then []
    else ReplaceOps(bdPath, existing, l, fs[..|fs| - 1]) + ReplaceOne(bdPath, existing, l, fs[|fs| - 1])
  }

  /** main's run of replace tests for an existing BD, each of the same
      shape, taken in the order of `fs`. */
  method ReplaceChanged(bdPath: string, existing: seq<Member>, l: Locals, fs: seq<Field>) returns (ops: seq<Op>)
    ensures ops == ReplaceOps(bdPath, existing, l, fs)
  {
    ops := [];
    for i := 0 to |fs|
      invariant ops == ReplaceOps(bdPath, existing, l, fs[..i])
    {
      var f := fs[i];
      var compared := Compared(l, f);
      if compared.Some? && !PyEq(Get(existing, Key(f)), compared.value) {
        ops := ops + [Replace(bdPath + "/" + Key(f), Sent(l, f))];
      }
      assert fs[..i + 1][..i] == fs[..i];
    }
    assert fs[..|fs|] == fs;
  }

  /** The operations of a shorter run of tests start those of a longer one. */
  lemma {:induction false} ReplaceOpsPrefix(bdPath: string, existing: seq<Member>, l: Locals, fs: seq<Field>, k: nat)
    requires k <= |fs|
    ensures ReplaceOps(bdPath, existing, l, fs[..k]) <= ReplaceOps(bdPath, existing, l, fs)
    decreases |fs|
  {
    if k < |fs| {
      assert fs[..|fs| - 1][..k] == fs[..k];
      ReplaceOpsPrefix(bdPath, existing, l, fs[..|fs| - 1], k);
    } else {
      assert fs[..k] == fs;
    }
  }

  /** Every operation replaces one tested attribute under the BD's path with
      its payload value, and only when that attribute changed. */
  lemma {:induction false} ReplaceOpsSound(bdPath: string, existing: seq<Member>, l: Locals, fs: seq<Field>, j: nat)
    requires j < |ReplaceOps(bdPath, existing, l, fs)|
    ensures exists i :: (0 <= i < |fs| && Changed(existing, l, fs[i])
      && ReplaceOps(bdPath, existing, l, fs)[j] == Replace(bdPath + "/" + Key(fs[i]), Sent(l, fs[i])))
    decreases |fs|
  {
    var front := fs[..|fs| - 1];
    var ops := ReplaceOps(bdPath, existing, l, front);
    if j < |ops| {
      ReplaceOpsSound(bdPath, existing, l, front, j);
      var i :| 0 <= i < |front| && Changed(existing, l, front[i]) &&
        ops[j] == Replace(bdPath + "/" + Key(front[i]), Sent(l, front[i]));
      assert front[i] == fs[i];
    }
  }

  /** Every operation is a replace below the BD's path. */
  lemma ReplaceOpsPaths(bdPath: string, existing: seq<Member>, l: Locals, fs: seq<Field>)
    ensures forall j :: 0 <= j < |ReplaceOps(bdPath, existing, l, fs)| ==>
      ReplaceOps(bdPath, existing, l, fs)[j].Replace? &&
      exists f: Field :: ReplaceOps(bdPath, existing, l, fs)[j].path == bdPath + "/" + Key(f)
  {
    var ops := ReplaceOps(bdPath, existing, l, fs);
    forall j | 0 <= j < |ops|
      ensures ops[j].Replace? && exists f: Field :: ops[j].path == bdPath + "/" + Key(f)
    {
      ReplaceOpsSound(bdPath, existing, l, fs, j);
      var i :| 0 <= i < |fs| && Changed(existing, l, fs[i])
        && ops[j] == Replace(bdPath + "/" + Key(fs[i]), Sent(l, fs[i]));
      assert ops[j].path == bdPath + "/" + Key(fs[i]);
    }
  }

  /** Every changed attribute gets its operation, at the position given by
      the changed attributes tested before it. */
  lemma ReplaceOpsComplete(bdPath: string, existing: seq<Member>, l: Locals, fs: seq<Field>, i: nat)
    requires i < |fs| && Changed(existing, l, fs[i])
    ensures |ReplaceOps(bdPath, existing, l, fs[..i])| < |ReplaceOps(bdPath, existing, l, fs)|
    ensures ReplaceOps(bdPath, existing, l, fs)[|ReplaceOps(bdPath, existing, l, fs[..i])|] ==
      Replace(bdPath + "/" + Key(fs[i]), Sent(l, fs[i]))
  {
    var upTo := fs[..i + 1];
    var before := ReplaceOps(bdPath, existing, l, fs[..i]);
    var op := Replace(bdPath + "/" + Key(fs[i]), Sent(l, fs[i]));
    var pre := ReplaceOps(bdPath, existing, l, upTo);
    assert pre == before + [op] by {
      assert upTo[..|upTo| - 1] == fs[..i] && upTo[|upTo| - 1] == fs[i];
    }
    ReplaceOpsPrefix(bdPath, existing, l, fs, i + 1);
    assert pre[|before|] == op;
  }

  /** Operations keep the order of the tests: a changed attribute tested
      earlier has its operation before everything a later test adds. */
  lemma ReplaceOpsOrdered(bdPath: string, existing: seq<Member>, l: Locals, fs: seq<Field>, i: nat, k: nat)
    requires i < k <= |fs| && Changed(existing, l, fs[i])
    ensures |ReplaceOps(bdPath, existing, l, fs[..i])| < |ReplaceOps(bdPath, existing, l, fs[..k])|
  {
    assert fs[..k][..i] == fs[..i];
    assert fs[..k][i] == fs[i];
    ReplaceOpsComplete(bdPath, existing, l, fs[..k], i);
  }

  /** No operation at all exactly when no tested attribute changed. */
  lemma ReplaceOpsNone(bdPath: string, existing: seq<Member>, l: Locals, fs: seq<Field>)
    ensures ReplaceOps(bdPath, existing, l, fs) == [] <==> forall i :: 0 <= i < |fs| ==> !Changed(existing, l, fs[i])
  {
    var ops := ReplaceOps(bdPath, existing, l, fs);
    if ops != [] {
      ReplaceOpsSound(bdPath, existing, l, fs, 0);
    }
    forall i | 0 <= i < |fs| && Changed(existing, l, fs[i])
      ensures ops != []
    {
      ReplaceOpsComplete(bdPath, existing, l, fs, i);
    }
  }

  /** A BD that already holds every tested value needs no operation: running
      the module again after its patch applied changes nothing. */
  lemma NothingToReplace(bdPath: string, existing: seq<Member>, l: Locals, fs: seq<Field>)
    requires forall f :: Compared(l, f).Some? ==>
      Get(existing, Key(f)) == Compared(l, f).value && WellFormed(Compared(l, f).value)
    ensures ReplaceOps(bdPath, existing, l, fs) == []
  {
    forall i | 0 <= i < |fs| ensures !Changed(existing, l, fs[i]) {
      if Compared(l, fs[i]).Some? {
        PyEqReflexive(Compared(l, fs[i]).value);
      }
    }
    ReplaceOpsNone(bdPath, existing, l, fs);
  }

  // ------------------------------------------------------- the module

  /** What mso.sanitize leaves in mso.proposed and mso.sent. */
  datatype Sanitized = Sanitized(proposed: seq<Member>, sent: seq<Member>)

  /** The MSO helpers whose code is not part of this model, as functions of
      their arguments (for this schema): make_reference for the vrf, the
      results of make_subnets and make_dhcp_label, sanitize (of the payload
      given mso.existing) and vrf_dict_from_ref. */
  datatype Helpers = Helpers(
    makeReference: (Option<seq<Member>>, string) -> Value,
    subnets: Value,
    dhcpLabel: Value,
    dhcpLabels: Value,
    sanitize: (seq<Member>, Value) -> Sanitized,
    vrfDictFromRef: Value -> Value)

  /** The locals of the present branch: display_name defaults to the BD name
      and subnets to [] when the BD does not exist yet. */
  function PresentLocals(p: Params, s: Settings, existing: Value, h: Helpers, filter: Option<seq<Member>>): (l: Locals)
    requires p.bd.Some?
    ensures !Truthy(existing) && p.displayName.None? ==> l.displayName == p.bd
    ensures !Truthy(existing) && h.subnets.Null? ==> l.subnets == List([])
    ensures Truthy(existing) || p.displayName.Some? ==> l.displayName == p.displayName
    ensures Truthy(existing) || !h.subnets.Null? ==> l.subnets == h.subnets
    ensures l.vrfRef == h.makeReference(s.vrf, s.template)
  {
    Locals(p.bd.value,
           if p.displayName.None? && !Truthy(existing) then p.bd else p.displayName,
           p.description, p.intersiteBumTraffic, p.optimizeWanBandwidth, p.layer2Stretch,
           p.layer2UnknownUnicast, p.layer3Multicast,
           if h.subnets.Null? && !Truthy(existing) then List([]) else h.subnets,
           h.makeReference(s.vrf, s.template), h.dhcpLabel, h.dhcpLabels,
           s.unknownMulticast, s.multiDestination, s.ipv6UnknownMulticast, s.arpFlooding,
           p.virtualMacAddress, p.unicastRouting, filter)
  }

  /** mso.previous once the reference keys are tidied: bdRef dropped and
      vrfRef turned into a dict. */
  function Cleaned(previous: seq<Member>, vrfDictFromRef: Value -> Value): seq<Member> {
    var kept := if "bdRef" in Keys(previous) then Delete(previous, "bdRef") else previous;
    if "vrfRef" in Keys(kept) then Put(kept, "vrfRef", vrfDictFromRef(Get(kept, "vrfRef"))) else kept
  }

  /** Tidying removes bdRef, converts vrfRef and keeps every other entry. */
  lemma CleanedLookup(previous: seq<Member>, vrfDictFromRef: Value -> Value, k: string)
    ensures Lookup(Cleaned(previous, vrfDictFromRef), "bdRef") == None
    ensures Lookup(previous, "vrfRef").Some? ==>
      Lookup(Cleaned(previous, vrfDictFromRef), "vrfRef") == Some(vrfDictFromRef(Lookup(previous, "vrfRef").value))
    ensures k != "bdRef" && k != "vrfRef" ==> Lookup(Cleaned(previous, vrfDictFromRef), k) == Lookup(previous, k)
  {
    var kept := if "bdRef" in Keys(previous) then Delete(previous, "bdRef") else previous;
    assert Lookup(kept, "vrfRef") == Lookup(previous, "vrfRef") by {
      if "bdRef" in Keys(previous) {
        DeleteOthers(previous, "bdRef", "vrfRef");
      }
    }
    if k != "bdRef" && k != "vrfRef" {
      if "bdRef" in Keys(previous) {
        DeleteOthers(previous, "bdRef", k);
      }
      if "vrfRef" in Keys(kept) {
        PutOthers(kept, "vrfRef", vrfDictFromRef(Get(kept, "vrfRef")), k);
      }
    }
    if "vrfRef" in Keys(kept) {
      PutOthers(kept, "vrfRef", vrfDictFromRef(Get(kept, "vrfRef")), "bdRef");
    }
  }

  datatype Failure =
    | RequiredMissing(state: State, missing: seq<string>)
    | TemplateMissing(template: string, existing: seq<string>)
    | BdNotFound(bd: string)
    | NeedsLayer3Multicast
    | FiltersNotFound(msg: string)

  /** The message fail_json reports (the first by Ansible's required_if check). */
  function Text(f: Failure): string {
    match f
    case RequiredMissing(state, missing) =>
      "state is " + StateName(state) + " but all of the following are missing: " + Join(", ", missing)
    case TemplateMissing(t, names) =>
      "Provided template '" + t + "' does not exist. Existing templates: " + Join(", ", names)
    case BdNotFound(bd) => "BD '" + bd + "' not found"
    case NeedsLayer3Multicast => "Layer 3 Multicast must be enabled to use Multicast Route Map Filters."
    case FiltersNotFound(msg) => msg
  }

  datatype Exit = Exited | Failed(failure: Failure)

  /** The PATCH request main sends: the schema path and the operations. */
  datatype Patch = Patch(path: string, ops: seq<Op>)

  /** The fields of the MSO module object main changes. */
  datatype Snapshot = Snapshot(existing: Value, previous: seq<Member>, sent: seq<Member>, proposed: seq<Member>)

  const Initial := Snapshot(Object([]), [], [], [])

  /** A run of main: the operations it built, the request it sent, how it
      exited and the module object's fields at the exit. */
  datatype Run = Run(ops: seq<Op>, patch: Option<Patch>, exit: Exit, session: Snapshot)

  /** The template's BDs as the list a query of all BDs reports. */
  function AllBds(bds: seq<seq<Member>>): (v: Value)
    ensures v.List? && |v.items| == |bds|
    ensures forall i :: 0 <= i < |bds| ==> v.items[i] == Object(bds[i])
  {
    List(seq(|bds|, i requires 0 <= i < |bds| => Object(bds[i])))
  }

  /** The state a query reports, or the BD it did not find. */
  function QueryRun(bd: Option<string>, bds: seq<seq<Member>>, existing: Value): Run {
    if bd.None? then
      Run([], None, Exited, Snapshot(AllBds(bds), [], [], []))
    else if !Truthy(existing) then Run([], None, Failed(BdNotFound(bd.value)), Snapshot(existing, [], [], []))
    else Run([], None, Exited, Snapshot(existing, [], [], []))
  }

  /** The operations and the new fields of the absent and present branches. */
  datatype Branched = Branched(ops: seq<Op>, existing: Value, sent: seq<Member>, proposed: seq<Member>)

  function Branch(p: Params, s: Settings, existing: Value, filter: Option<seq<Member>>, h: Helpers): Branched
    requires p.bd.Some? && p.state != Query
  {
    if p.state == Absent then
      if Truthy(existing) then Branched([Remove(BdPath(s.template, p.bd.value))], Object([]), [], [])
      else Branched([], existing, [], [])
    else
      var l := PresentLocals(p, s, existing, h, filter);
      var z := h.sanitize(Payload(l), existing);
      var ops :=
        if Truthy(existing) then ReplaceOps(BdPath(s.template, p.bd.value), AsDict(existing), l, ReplaceOrder)
        else [Add(BdsPath(s.template) + "/-", Object(z.sent))];
      Branched(ops, Object(z.proposed), z.sent, z.proposed)
  }

  /** The absent or present branch and the request that follows it. */
  function Applied(p: Params, s: Settings, schemaPath: string, existing: Value, filter: Option<seq<Member>>,
                 h: Helpers, checkMode: bool): Run
    requires p.bd.Some? && p.state != Query
  {
    var b := Branch(p, s, existing, filter, h);
    var previous := Cleaned(AsDict(existing), h.vrfDictFromRef);
    var patch := if !checkMode && !PyEq(Object(b.proposed), Object(previous)) then Some(Patch(schemaPath, b.ops)) else None;
    Run(b.ops, patch, Exited, Snapshot(b.existing, previous, b.sent, b.proposed))
  }

  /** Route-map filters were given: `if multicast_route_map_source_filter or
      multicast_route_map_destination_filter`. */
  predicate FiltersWanted(p: Params) {
    Wanted(p.sourceFilter) || Wanted(p.destinationFilter)
  }

  /** The uuids the search finds among the templates of the BD template's tenant. */
  function RouteMapIds(p: Params, tpl: Template, tenants: seq<TenantTemplate>): Ids {
    ScanTemplates(SameTenant(tenants, tpl.tenantId), p.sourceFilter, p.destinationFilter, NoIds)
  }

  /** The mcastRtMapFilter the payload carries, if filters were given. */
  function RouteMapPayload(p: Params, tpl: Template, tenants: seq<TenantTemplate>): Option<seq<Member>> {
    if FiltersWanted(p) then Some(RouteMapFilter(RouteMapIds(p, tpl, tenants))) else None
  }

  /** The route-map filter check and search, then the change itself. */
  function Change(p: Params, s: Settings, schemaPath: string, tpl: Template, existing: Value,
                  tenants: seq<TenantTemplate>, h: Helpers, checkMode: bool): Run
    requires p.bd.Some? && p.state != Query
  {
    var error := FilterError(p.sourceFilter, p.destinationFilter, RouteMapIds(p, tpl, tenants));
    if FiltersWanted(p) && p.layer3Multicast != Some(true) then
      Run([], None, Failed(NeedsLayer3Multicast), Snapshot(existing, [], [], []))
    else if FiltersWanted(p) && error != "" then
      Run([], None, Failed(FiltersNotFound(error)), Snapshot(existing, [], [], []))
    else Applied(p, s, schemaPath, existing, RouteMapPayload(p, tpl, tenants), h, checkMode)
  }

  /** The first template of the schema with the given name. */
  function TemplateNamed(schema: Schema, name: string): (t: Template)
    requires name in TemplateNames(schema.templates)
    ensures t in schema.templates && t.name == name
  {
    schema.templates[IndexOf(TemplateNames(schema.templates), name)]
  }

  /** main, given the schema query_schema answers, the tenant templates with
      their route-map policies, the helpers' results and check mode. */
  function Execute(p: Params, schema: Schema, tenants: seq<TenantTemplate>, h: Helpers, checkMode: bool): Run {
    var missing := MissingRequired(p);
    if missing != [] then Run([], None, Failed(RequiredMissing(p.state, missing)), Initial)
    else
      var s := Settled(p);
      var names := TemplateNames(schema.templates);
      if s.template !in names then Run([], None, Failed(TemplateMissing(s.template, names)), Initial)
      else
        var tpl := TemplateNamed(schema, s.template);
        var existing := Existing(p.bd, tpl.bds);
        if p.state == Query then QueryRun(p.bd, tpl.bds, existing)
        else Change(p, s, schema.path, tpl, existing, tenants, h, checkMode)
  }

  // --------------------------------------------------- what a run does

  /** Python's `{} == d` holds only for the empty dict. */
  lemma EmptyDictEqual(d: seq<Member>)
    ensures PyEq(Object([]), Object(d)) <==> d == []
  {
    if d != [] {
      var none: seq<Member> := [];
      var left := set k | k in Keys(none);
      var right := set k | k in Keys(d);
      assert Keys(d)[0] in right;
      assert Keys(d)[0] !in left;
      assert left != right;
    }
  }

  /** A run that gets past the early failures of a change applies the absent
      or present branch to the BD found in the named template, with the
      route-map filter the search produced. */
  lemma ChangeApplies(p: Params, schema: Schema, tenants: seq<TenantTemplate>, h: Helpers, checkMode: bool)
    requires p.state != Query
    ensures var r := Execute(p, schema, tenants, h, checkMode);
      && (r.exit != Exited ==> r.ops == [] && r.patch == None)
      && (r.exit == Exited ==>
        && p.bd.Some? && Settled(p).template in TemplateNames(schema.templates)
        && var tpl := TemplateNamed(schema, Settled(p).template);
           r == Applied(p, Settled(p), schema.path, Existing(p.bd, tpl.bds), RouteMapPayload(p, tpl, tenants), h, checkMode))
  {
    var s := Settled(p);
    if MissingRequired(p) == [] && s.template in TemplateNames(schema.templates) {
      var tpl := TemplateNamed(schema, s.template);
      var existing := Existing(p.bd, tpl.bds);
      assert Execute(p, schema, tenants, h, checkMode) == Change(p, s, schema.path, tpl, existing, tenants, h, checkMode);
      ChangeExits(p, s, schema.path, tpl, existing, tenants, h, checkMode);
    }
  }

  /** A change either fails before any operation or is the applied branch. */
  lemma ChangeExits(p: Params, s: Settings, schemaPath: string, tpl: Template, existing: Value,
                    tenants: seq<TenantTemplate>, h: Helpers, checkMode: bool)
    requires p.bd.Some? && p.state != Query
    ensures var r := Change(p, s, schemaPath, tpl, existing, tenants, h, checkMode);
      && (r.exit != Exited ==> r.ops == [] && r.patch == None)
      && (r.exit == Exited ==> r == Applied(p, s, schemaPath, existing, RouteMapPayload(p, tpl, tenants), h, checkMode))
  {
  }

  /** State absent: one remove at /templates/{template}/bds/{bd} when the
      template holds a BD of that name, no operation otherwise; the request
      goes out exactly when there was a BD and check mode is off. */
  lemma AbsentRemovesBd(p: Params, schema: Schema, tenants: seq<TenantTemplate>, h: Helpers, checkMode: bool)
    requires p.state == Absent
    ensures var r := Execute(p, schema, tenants, h, checkMode);
      r.exit == Exited ==>
        && p.bd.Some? && RemoveSpaces(p.template) in TemplateNames(schema.templates)
        && var t := RemoveSpaces(p.template);
           var found := Str(p.bd.value) in BdNames(TemplateNamed(schema, t).bds);
           && r.ops == (if found then [Remove("/templates/" + t + "/bds/" + p.bd.value)] else [])
           && (r.patch.Some? <==> found && !checkMode)
  {
    var r := Execute(p, schema, tenants, h, checkMode);
    ChangeApplies(p, schema, tenants, h, checkMode);
    if r.exit == Exited {
      var s := Settled(p);
      var tpl := TemplateNamed(schema, s.template);
      var existing := Existing(p.bd, tpl.bds);
      var previous := Cleaned(existing.members, h.vrfDictFromRef);
      if Truthy(existing) {
        CleanedLookup(existing.members, h.vrfDictFromRef, "name");
        assert previous != [];
      } else {
        assert previous == [];
      }
      EmptyDictEqual(previous);
    }
  }

  /** State present: a BD the template lacks is added with one add at
      /templates/{template}/bds/- carrying what sanitize sends; for an
      existing BD every operation replaces one of its attributes. With
      ChangeApplies this describes every present run that exits. */
  lemma PresentOps(p: Params, s: Settings, schemaPath: string, existing: Value, filter: Option<seq<Member>>,
                   h: Helpers, checkMode: bool)
    requires p.bd.Some? && p.state == Present && existing.Object?
    ensures var r := Applied(p, s, schemaPath, existing, filter, h, checkMode);
      && (!Truthy(existing) ==> r.ops == [Add(BdsPath(s.template) + "/-", Object(r.session.sent))])
      && (Truthy(existing) ==> forall j :: 0 <= j < |r.ops| ==>
            r.ops[j].Replace? && exists f: Field :: r.ops[j].path == BdPath(s.template, p.bd.value) + "/" + Key(f))
  {
    if Truthy(existing) {
      var l := PresentLocals(p, s, existing, h, filter);
      ReplaceOpsPaths(BdPath(s.template, p.bd.value), existing.members, l, ReplaceOrder);
    }
  }

  /** Route-map filters without layer3_multicast make a change fail, once
      the required parameters and the template are there. */
  lemma FiltersNeedLayer3Multicast(p: Params, schema: Schema, tenants: seq<TenantTemplate>, h: Helpers, checkMode: bool)
    requires p.state != Query && FiltersWanted(p) && p.layer3Multicast != Some(true)
    ensures Execute(p, schema, tenants, h, checkMode).exit.Failed?
    ensures MissingRequired(p) == [] && RemoveSpaces(p.template) in TemplateNames(schema.templates) ==>
      Execute(p, schema, tenants, h, checkMode).exit == Failed(NeedsLayer3Multicast)
  {
  }

  /** A query changes nothing: it reports every BD of the template when no
      BD is named, and otherwise the named BD, failing if there is none. */
  lemma QueryReports(p: Params, schema: Schema, tenants: seq<TenantTemplate>, h: Helpers, checkMode: bool)
    requires p.state == Query && RemoveSpaces(p.template) in TemplateNames(schema.templates)
    ensures var r := Execute(p, schema, tenants, h, checkMode);
      var bds := TemplateNamed(schema, RemoveSpaces(p.template)).bds;
      && r.ops == [] && r.patch == None
      && (p.bd.None? ==> r.exit == Exited && r.session.existing == AllBds(bds))
      && (p.bd.Some? ==> (r.exit == Exited <==> Str(p.bd.value) in BdNames(bds)))
      && (p.bd.Some? && r.exit == Exited ==> Get(r.session.existing.members, "name") == Str(p.bd.value))
  {
  }

  /** In check mode no request is ever sent. */
  lemma CheckModeSendsNothing(p: Params, schema: Schema, tenants: seq<TenantTemplate>, h: Helpers)
    ensures Execute(p, schema, tenants, h, true).patch == None
  {
    if p.state != Query {
      ChangeApplies(p, schema, tenants, h, true);
    }
  }

  /** The module object: the fields main reads and rewrites. */
  class MsoModule {
    var existing: Value
    var previous: seq<Member>
    var sent: seq<Member>
    var proposed: seq<Member>

    constructor()
      ensures Current() == Initial
    {
      existing := Object([]);
      previous := [];
      sent := [];
      proposed := [];
    }

    function Current(): Snapshot
      reads this
    {
      Snapshot(existing, previous, sent, proposed)
    }

    /** The tail of main: drop bdRef from mso.previous and expand its vrfRef. */
    method ForgetReferences(vrfDictFromRef: Value -> Value)
      modifies this
      ensures previous == Cleaned(old(previous), vrfDictFromRef)
      ensures existing == old(existing) && sent == old(sent) && proposed == old(proposed)
    {
      if "bdRef" in Keys(previous) {
        previous := Delete(previous, "bdRef");
      }
      if "vrfRef" in Keys(previous) {
        previous := Put(previous, "vrfRef", vrfDictFromRef(Get(previous, "vrfRef")));
      }
    }

    /** The absent and present branches of main and the request after them,
        with mso.existing holding the BD found (or the empty dict). */
    method Apply(p: Params, s: Settings, schemaPath: string, filter: Option<seq<Member>>, h: Helpers, checkMode: bool)
      returns (ops: seq<Op>, patch: Option<Patch>)
      requires p.bd.Some? && p.state != Query && existing.Object?
      requires previous == [] && sent == [] && proposed == []
      modifies this
      ensures Run(ops, patch, Exited, Current()) == Applied(p, s, schemaPath, old(existing), filter, h, checkMode)
    {
      ops, patch := [], None;
      var bd := p.bd.value;
      previous := existing.members;
      if p.state == Absent {
        if Truthy(existing) {
          sent, existing := [], Object([]);
          ops := [Remove(BdPath(s.template, bd))];
        }
      } else {
        var vrfRef := h.makeReference(s.vrf, s.template);
        var displayName := p.displayName;
        var subnets := h.subnets;
        if displayName.None? && !Truthy(existing) {
          displayName := p.bd;
        }
        if subnets.Null? && !Truthy(existing) {
          subnets := List([]);
        }
        var l := Locals(bd, displayName, p.description, p.intersiteBumTraffic, p.optimizeWanBandwidth,
                        p.layer2Stretch, p.layer2UnknownUnicast, p.layer3Multicast, subnets, vrfRef,
                        h.dhcpLabel, h.dhcpLabels, s.unknownMulticast, s.multiDestination,
                        s.ipv6UnknownMulticast, s.arpFlooding, p.virtualMacAddress, p.unicastRouting, filter);
        assert l == PresentLocals(p, s, existing, h, filter);
        var z := h.sanitize(Payload(l), existing);
        proposed, sent := z.proposed, z.sent;
        if Truthy(existing) {
          ops := ReplaceChanged(BdPath(s.template, bd), existing.members, l, ReplaceOrder);
        } else {
          ops := [Add(BdsPath(s.template) + "/-", Object(sent))];
        }
        existing := Object(proposed);
      }
      ForgetReferences(h.vrfDictFromRef);
      if !checkMode && !PyEq(Object(proposed), Object(previous)) {
        patch := Some(Patch(schemaPath, ops));
      }
    }
  }

  /** main: the run it makes, step by step, on a fresh module object. */
  method RunModule(p: Params, schema: Schema, tenants: seq<TenantTemplate>, h: Helpers, checkMode: bool)
    returns (mso: MsoModule, ops: seq<Op>, patch: Option<Patch>, exit: Exit)
    ensures fresh(mso)
    ensures Run(ops, patch, exit, mso.Current()) == Execute(p, schema, tenants, h, checkMode)
  {
    mso := new MsoModule();
    ops, patch := [], None;
    var missing := MissingRequired(p);
    if missing != [] {
      exit := Failed(RequiredMissing(p.state, missing));
      return;
    }
    var s := Settle(p);
    var names := TemplateNames(schema.templates);
    if s.template !in names {
      exit := Failed(TemplateMissing(s.template, names));
      return;
    }
    var tpl := schema.templates[IndexOf(names, s.template)];
    var bdNames := BdNames(tpl.bds);
    if p.bd.Some? && Str(p.bd.value) in bdNames {
      mso.existing := Object(tpl.bds[IndexOf(bdNames, Str(p.bd.value))]);
    }
    assert mso.existing == Existing(p.bd, tpl.bds);
    if p.state == Query {
      if p.bd.None? {
        mso.existing := AllBds(tpl.bds);
      } else if !Truthy(mso.existing) {
        exit := Failed(BdNotFound(p.bd.value));
        return;
      }
      exit := Exited;
      return;
    }
    ops, patch, exit := ChangeModule(mso, p, s, schema.path, tpl, tenants, h, checkMode);
  }

  /** The rest of main for states present and absent: the route-map filter
      check and search, then the change on the module object. */
  method ChangeModule(mso: MsoModule, p: Params, s: Settings, schemaPath: string, tpl: Template,
                      tenants: seq<TenantTemplate>, h: Helpers, checkMode: bool)
    returns (ops: seq<Op>, patch: Option<Patch>, exit: Exit)
    requires p.bd.Some? && p.state != Query
    requires mso.Current() == Snapshot(Existing(p.bd, tpl.bds), [], [], [])
    modifies mso
    ensures Run(ops, patch, exit, mso.Current()) == Change(p, s, schemaPath, tpl, Existing(p.bd, tpl.bds), tenants, h, checkMode)
  {
    ops, patch := [], None;
    var src, dst := p.sourceFilter, p.destinationFilter;
    var ids := NoIds;
    if Wanted(src) || Wanted(dst) {
      if p.layer3Multicast != Some(true) {
        exit := Failed(NeedsLayer3Multicast);
        return;
      }
      var error;
      ids, error := RouteMapFilterUuids(tenants, tpl.tenantId, src, dst);
      if error != "" {
        exit := Failed(FiltersNotFound(error));
        return;
      }
    }
    var filter := if Wanted(src) || Wanted(dst) then Some(RouteMapFilter(ids)) else None;
    ops, patch := mso.Apply(p, s, schemaPath, filter, h, checkMode);
    exit := Exited;
  }
}
