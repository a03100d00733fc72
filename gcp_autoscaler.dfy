/** The GCP "compute region autoscaler" module: how the playbook's
    snake_case parameters become the camelCase request body, how a fetched
    resource is compared with that body, the URLs the module talks to, and
    the present/absent decision of main. The REST calls and the polling of
    long-running operations are replaced by their results, given as
    parameters; so are the two helpers the module imports and that are not
    part of this model: remove_nones_from_dict (the `tidy` parameter) and the
    inequality of GcpRequest objects (the `differ` parameter). */
module GcpRegionAutoscaler {
  import opened Common
  import opened JsonValues
  import PyInt
  import GcpTargetPoolInfo

  /** remove_nones_from_dict, which this model does not look inside. */
  type Tidy = seq<Member> -> seq<Member>

  // ---------------------------------------------------------------------
  // The RegionAutoscaler* classes as one field table
  // ---------------------------------------------------------------------

  /** What a field holds: a plain value, a nested object converted by its
      own class, or a list of such objects. */
  datatype Shape =
    | Scalar
    | Record(fields: seq<Field>)
    | Array(fields: seq<Field>)

  /** A field under its playbook name and its API name. */
  datatype Field = Field(snake: string, camel: string, shape: Shape)

  /** to_request reads the playbook's names, from_response the API's; both
      write the API's names. */
  datatype Side = ToRequest | FromResponse

  function Key(f: Field, side: Side): string {
    if side == ToRequest then f.snake else f.camel
  }

  /** The items a list-valued field iterates over; a missing or falsy value
      is replaced by [] by the class constructor. */
  function AsList(v: Value): seq<Value> {
    if v.List? then v.items else []
  }

  /** RegionAutoscalerMaxscaledinreplicas. */
  const MaxScaledInReplicas := Record([
    Field("fixed", "fixed", Scalar),
    Field("percent", "percent", Scalar)])

  /** RegionAutoscalerScaleincontrol. */
  const ScaleInControl := Record([
    Field("max_scaled_in_replicas", "maxScaledInReplicas", MaxScaledInReplicas),
    Field("time_window_sec", "timeWindowSec", Scalar)])

  /** RegionAutoscalerCpuutilization. */
  const CpuUtilization := Record([
    Field("utilization_target", "utilizationTarget", Scalar),
    Field("predictive_method", "predictiveMethod", Scalar)])

  /** RegionAutoscalerCustommetricutilizationsArray. */
  const CustomMetricUtilizations := Array([
    Field("metric", "metric", Scalar),
    Field("utilization_target", "utilizationTarget", Scalar),
    Field("utilization_target_type", "utilizationTargetType", Scalar)])

  /** RegionAutoscalerLoadbalancingutilization. */
  const LoadBalancingUtilization := Record([
    Field("utilization_target", "utilizationTarget", Scalar)])

  /** RegionAutoscalerAutoscalingpolicy. */
  const AutoscalingPolicy := Record([
    Field("min_num_replicas", "minNumReplicas", Scalar),
    Field("max_num_replicas", "maxNumReplicas", Scalar),
    Field("cool_down_period_sec", "coolDownPeriodSec", Scalar),
    Field("mode", "mode", Scalar),
    Field("scale_in_control", "scaleInControl", ScaleInControl),
    Field("cpu_utilization", "cpuUtilization", CpuUtilization),
    Field("custom_metric_utilizations", "customMetricUtilizations", CustomMetricUtilizations),
    Field("load_balancing_utilization", "loadBalancingUtilization", LoadBalancingUtilization)])

  /** No two fields of one class share an API name, at any depth. */
  predicate WellFormedShape(s: Shape)
    decreases s
  {
    s.Scalar? ||
    ((forall i, j :: 0 <= i < j < |s.fields| ==> s.fields[i].camel != s.fields[j].camel) &&
     forall i :: 0 <= i < |s.fields| ==> WellFormedShape(s.fields[i].shape))
  }

  /** A class's to_request or from_response on the dict it was given: one
      member per field, under the API name, then remove_nones_from_dict. */
  function Build(s: Shape, d: seq<Member>, side: Side, tidy: Tidy): seq<Member>
    requires !s.Scalar?
    decreases s, 1
  {
    tidy(Entries(s, d, side, tidy))
  }

  /** The dict a class builds before remove_nones_from_dict. */
  function Entries(s: Shape, d: seq<Member>, side: Side, tidy: Tidy): (r: seq<Member>)
    requires !s.Scalar?
    ensures |r| == |s.fields|
    decreases s, 0
  {
    seq(|s.fields|, i requires 0 <= i < |s.fields| =>
      Member(s.fields[i].camel, Convert(s.fields[i].shape, Get(d, Key(s.fields[i], side)), side, tidy)))
  }

  /** The value stored for one field: a plain value as it is, a nested
      object through its class (a falsy value counts as {}), a list item by
      item through the element class (a falsy value counts as []). */
  function Convert(s: Shape, v: Value, side: Side, tidy: Tidy): Value
    decreases s, 2
  {
    match s
    case Scalar => v
    case Record(_) => Object(Build(s, AsDict(v), side, tidy))
    case Array(_) =>
      List(seq(|AsList(v)|, j requires 0 <= j < |AsList(v)| => Object(Build(s, AsDict(AsList(v)[j]), side, tidy))))
  }

  /** The same values under the API's names: what the API sends back for a
      policy given under the playbook's names. */
  function CamelDict(s: Shape, d: seq<Member>): seq<Member>
    requires !s.Scalar?
    decreases s, 0
  {
    seq(|s.fields|, i requires 0 <= i < |s.fields| =>
      Member(s.fields[i].camel, Camel(s.fields[i].shape, Get(d, s.fields[i].snake))))
  }

  function Camel(s: Shape, v: Value): Value
    decreases s, 1
  {
    match s
    case Scalar => v
    case Record(_) => Object(CamelDict(s, AsDict(v)))
    case Array(_) =>
      List(seq(|AsList(v)|, j requires 0 <= j < |AsList(v)| => Object(CamelDict(s, AsDict(AsList(v)[j])))))
  }

  /** The element class's loop: one converted item per input item, in
      order. */
  method ArrayItems(s: Shape, v: Value, side: Side, tidy: Tidy) returns (items: seq<Value>)
    requires s.Array?
    ensures |items| == |AsList(v)|
    ensures forall j :: 0 <= j < |items| ==> items[j] == Object(Build(s, AsDict(AsList(v)[j]), side, tidy))
    ensures List(items) == Convert(s, v, side, tidy)
  {
    var request := AsList(v);
    items := [];
    var j := 0;
    while j < |request|
      invariant 0 <= j <= |request|
      invariant |items| == j
      invariant forall k :: 0 <= k < j ==> items[k] == Object(Build(s, AsDict(request[k]), side, tidy))
    {
      items := items + [Object(Build(s, AsDict(request[j]), side, tidy))];
      j := j + 1;
    }
  }

  /** to_request on playbook names and from_response on the same values
      under API names give the same dict, at every level. */
  lemma {:induction false} BuildRoundTrip(s: Shape, d: seq<Member>, tidy: Tidy)
    requires !s.Scalar? && WellFormedShape(s)
    ensures Build(s, d, ToRequest, tidy) == Build(s, CamelDict(s, d), FromResponse, tidy)
    decreases s, 0
  {
    var c := CamelDict(s, d);
    assert UniqueKeys(c);
    forall i | 0 <= i < |s.fields|
      ensures Convert(s.fields[i].shape, Get(d, s.fields[i].snake), ToRequest, tidy)
           == Convert(s.fields[i].shape, Get(c, s.fields[i].camel), FromResponse, tidy)
    {
      LookupUnique(c, i);
      ConvertRoundTrip(s.fields[i].shape, Get(d, s.fields[i].snake), tidy);
    }
    assert Entries(s, d, ToRequest, tidy) == Entries(s, c, FromResponse, tidy);
  }

  lemma {:induction false} ConvertRoundTrip(s: Shape, v: Value, tidy: Tidy)
    requires WellFormedShape(s)
    ensures Convert(s, v, ToRequest, tidy) == Convert(s, Camel(s, v), FromResponse, tidy)
    decreases s, 1
  {
    match s
    case Scalar =>
    case Record(_) =>
      BuildRoundTrip(s, AsDict(v), tidy);
    case Array(_) =>
      var xs := AsList(v);
      forall j | 0 <= j < |xs|
        ensures Build(s, AsDict(xs[j]), ToRequest, tidy)
             == Build(s, AsDict(AsList(Camel(s, v))[j]), FromResponse, tidy)
      {
        BuildRoundTrip(s, AsDict(xs[j]), tidy);
      }
  }

  /** The module's own classes have no repeated API names. */
  lemma TablesWellFormed()
    ensures WellFormedShape(AutoscalingPolicy)
  {
    NestedTablesWellFormed();
    PolicyNamesDistinct();
  }

  lemma NestedTablesWellFormed()
    ensures WellFormedShape(ScaleInControl)
    ensures WellFormedShape(CpuUtilization)
    ensures WellFormedShape(CustomMetricUtilizations)
    ensures WellFormedShape(LoadBalancingUtilization)
  {
    ScaleInControlWellFormed();
    MetricTablesWellFormed();
  }

  lemma ScaleInControlWellFormed()
    ensures WellFormedShape(ScaleInControl)
  {
    assert WellFormedShape(MaxScaledInReplicas);
  }

  lemma MetricTablesWellFormed()
    ensures WellFormedShape(CpuUtilization)
    ensures WellFormedShape(CustomMetricUtilizations)
    ensures WellFormedShape(LoadBalancingUtilization)
  {
  }

  lemma PolicyNamesDistinct()
    ensures forall i, j :: 0 <= i < j < |AutoscalingPolicy.fields| ==>
      AutoscalingPolicy.fields[i].camel != AutoscalingPolicy.fields[j].camel
  {
    var fs := AutoscalingPolicy.fields;
    forall i, j | 0 <= i < j < |fs| ensures fs[i].camel != fs[j].camel {
      assert |fs[i].camel| != |fs[j].camel| || fs[i].camel[0] != fs[j].camel[0] || fs[i].camel[1] != fs[j].camel[1];
    }
  }

  /** The round trip for the autoscaling policy itself. */
  lemma PolicyRoundTrip(d: seq<Member>, tidy: Tidy)
    ensures Build(AutoscalingPolicy, d, ToRequest, tidy)
         == Build(AutoscalingPolicy, CamelDict(AutoscalingPolicy, d), FromResponse, tidy)
  {
    TablesWellFormed();
    BuildRoundTrip(AutoscalingPolicy, d, tidy);
  }

  // ---------------------------------------------------------------------
  // resource_to_request, response_to_hash and is_different
  // ---------------------------------------------------------------------

  datatype State = Present | Absent

  /** The module's parameters. Name, region and target are required
      strings; description and project may be None. */
  datatype Params = Params(
    state: State,
    name: string,
    description: Option<string>,
    autoscalingPolicy: Value,
    target: string,
    region: string,
    project: Option<string>)

  /** module.params as a dict. */
  function ParamsDict(p: Params): seq<Member> {
    [ Member("state", Str(if p.state == Present then "present" else "absent")),
      Member("name", Str(p.name)),
      Member("description", OptStr(p.description)),
      Member("autoscaling_policy", p.autoscalingPolicy),
      Member("target", Str(p.target)),
      Member("region", Str(p.region)),
      Member("project", OptStr(p.project)) ]
  }

  /** The two filters the module's dict-building loops apply: keep a value
      that is truthy or is False itself, or keep a key the other dict has. */
  datatype Filter = KeepSet | KeysIn(ks: seq<string>)

  predicate Passes(f: Filter, m: Member) {
    match f
    case KeepSet => Truthy(m.value) || m.value == Bool(false)
    case KeysIn(ks) => m.key in ks
  }

  /** The members a filter lets through, in order. */
  function Select(ms: seq<Member>, f: Filter): seq<Member> {
    if ms == [] then []
    else Select(ms[..|ms| - 1], f) + (if Passes(f, ms[|ms| - 1]) then [ms[|ms| - 1]] else [])
  }

  /** The dict a loop `for k, v in d.items(): if <filter>: out[k] = v`
      produces. */
  function Filtered(ms: seq<Member>, f: Filter): seq<Member> {
    PutAll([], Select(ms, f))
  }

  /** The loop `for k, v in d.items(): if <filter>: out[k] = v`, which
      resource_to_request runs once and is_different twice. */
  method FilterDict(d: seq<Member>, f: Filter) returns (r: seq<Member>)
    ensures r == Filtered(d, f)
  {
    r := [];
    var i := 0;
    while i < |d|
      invariant 0 <= i <= |d|
      invariant r == Filtered(d[..i], f)
    {
      var m := d[i];
      SelectStep(d, i, f);
      if Passes(f, m) {
        PutAllSnoc([], Select(d[..i], f), m);
        r := Put(r, m.key, m.value);
      }
      i := i + 1;
    }
    assert d[..|d|] == d;
  }

  /** The filter over one more member of the dict. */
  lemma SelectStep(d: seq<Member>, i: nat, f: Filter)
    requires i < |d|
    ensures Select(d[..i + 1], f) == if Passes(f, d[i]) then Select(d[..i], f) + [d[i]] else Select(d[..i], f)
  {
    assert d[..i + 1][..i] == d[..i];
    if !Passes(f, d[i]) {
      assert Select(d[..i], f) + [] == Select(d[..i], f);
    }
  }

  /** What the filtering loop keeps from a dict with no repeated key: the
      entry of each key the filter lets through, and nothing else. */
  lemma {:induction false} FilteredLookup(ms: seq<Member>, f: Filter, k: string)
    requires UniqueKeys(ms)
    ensures Lookup(Filtered(ms, f), k) ==
      if Lookup(ms, k).Some? && Passes(f, Member(k, Lookup(ms, k).value)) then Lookup(ms, k) else None
  {
    if ms != [] {
      var front := ms[..|ms| - 1];
      var m := ms[|ms| - 1];
      assert ms == front + [m];
      UniquePrefix(ms, |ms| - 1);
      FilteredLookup(front, f, k);
      LookupSnoc(front, m, k);
      LastKeyFresh(ms);
      SelectStep(ms, |ms| - 1, f);
      assert ms[..|ms|] == ms;
      if Passes(f, m) {
        PutAllSnoc([], Select(front, f), m);
        PutLookup(Filtered(front, f), m.key, m.value, k);
      }
    }
  }

  /** A filter keeps a key exactly when the key was there and passed. */
  lemma FilteredKeys(ms: seq<Member>, f: Filter, k: string)
    requires UniqueKeys(ms)
    ensures k in Keys(Filtered(ms, f)) <==> k in Keys(ms) && Passes(f, Member(k, Get(ms, k)))
  {
    FilteredLookup(ms, f, k);
  }

  /** The autoscaling policy as the request carries it: the playbook's
      policy through its class (a missing policy counts as {}). */
  function PolicyRequest(p: Params, tidy: Tidy): Value {
    Object(Build(AutoscalingPolicy, AsDict(p.autoscalingPolicy), ToRequest, tidy))
  }

  /** The request body before filtering, around a converted policy. */
  function RequestDict(p: Params, policy: Value): seq<Member> {
    [ Member("kind", Str("compute#autoscaler")),
      Member("region", Str(p.region)),
      Member("name", Str(p.name)),
      Member("description", OptStr(p.description)),
      Member("autoscalingPolicy", policy),
      Member("target", Str(p.target)) ]
  }

  /** The request body resource_to_request returns. */
  function Request(p: Params, tidy: Tidy): seq<Member> {
    Filtered(RequestDict(p, PolicyRequest(p, tidy)), KeepSet)
  }

  /** resource_to_request: the request dict, keeping a member when its value
      is truthy or is exactly False. */
  method ResourceToRequest(p: Params, tidy: Tidy) returns (r: seq<Member>)
    ensures r == Request(p, tidy)
  {
    var request := RequestDict(p, PolicyRequest(p, tidy));
    r := FilterDict(request, KeepSet);
  }

  /** The request body has no repeated key. */
  lemma RequestDictUnique(p: Params, policy: Value)
    ensures UniqueKeys(RequestDict(p, policy))
  {
    var d := RequestDict(p, policy);
    forall i, j | 0 <= i < j < |d| ensures d[i].key != d[j].key {
      assert d[i].key[0] != d[j].key[0];
    }
  }

  /** A request key is present exactly when its value is truthy or False:
      None, "", 0, [] and {} are dropped. */
  lemma RequestKeeps(p: Params, policy: Value, k: string)
    ensures var d := RequestDict(p, policy);
      Lookup(Filtered(d, KeepSet), k) ==
        if k in Keys(d) && (Truthy(Get(d, k)) || Get(d, k) == Bool(false)) then Some(Get(d, k)) else None
  {
    RequestDictUnique(p, policy);
    FilteredLookup(RequestDict(p, policy), KeepSet, k);
  }

  /** The fetched policy as the comparison sees it: through its class under
      the API's names (a missing policy counts as {}). */
  function PolicyResponse(response: seq<Member>, tidy: Tidy): Value {
    Object(Build(AutoscalingPolicy, AsDict(Get(response, "autoscalingPolicy")), FromResponse, tidy))
  }

  /** The reduced resource around its fields. */
  function Reduced(id: Value, created: Value, name: string, description: Value, policy: Value, target: Value): seq<Member> {
    [ Member("id", id),
      Member("creationTimestamp", created),
      Member("name", Str(name)),
      Member("description", description),
      Member("autoscalingPolicy", policy),
      Member("target", target) ]
  }

  /** response_to_hash: the fetched resource reduced to the fields the
      module compares, with the name taken from the parameters. */
  function ResponseToHash(p: Params, response: seq<Member>, tidy: Tidy): seq<Member> {
    Reduced(Get(response, "id"), Get(response, "creationTimestamp"), p.name,
            Get(response, "description"), PolicyResponse(response, tidy), Get(response, "target"))
  }

  lemma ReducedUnique(id: Value, created: Value, name: string, description: Value, policy: Value, target: Value)
    ensures UniqueKeys(Reduced(id, created, name, description, policy, target))
  {
    var d := Reduced(id, created, name, description, policy, target);
    forall i, j | 0 <= i < j < |d| ensures d[i].key != d[j].key {
      assert |d[i].key| != |d[j].key| || d[i].key[0] != d[j].key[0];
    }
  }

  /** The two dicts is_different hands to the comparison: the request
      restricted to the response's keys, and the response restricted to the
      request's keys. */
  function Compared(request: seq<Member>, response: seq<Member>): (seq<Member>, seq<Member>) {
    (Filtered(request, KeysIn(Keys(response))), Filtered(response, KeysIn(Keys(request))))
  }

  /** is_different's verdict on a fetched resource. */
  function Differs(p: Params, fetched: seq<Member>, differ: (seq<Member>, seq<Member>) -> bool, tidy: Tidy): bool {
    var vals := Compared(Request(p, tidy), ResponseToHash(p, fetched, tidy));
    differ(vals.0, vals.1)
  }

  /** is_different. */
  method IsDifferent(p: Params, fetched: seq<Member>, differ: (seq<Member>, seq<Member>) -> bool, tidy: Tidy)
    returns (b: bool)
    ensures b == Differs(p, fetched, differ, tidy)
  {
    var request := ResourceToRequest(p, tidy);
    var response := ResponseToHash(p, fetched, tidy);
    var responseVals := FilterDict(response, KeysIn(Keys(request)));
    var requestVals := FilterDict(request, KeysIn(Keys(response)));
    b := differ(requestVals, responseVals);
  }

  /** Both dicts is_different compares have as keys exactly the keys the
      request and the reduced response share. */
  lemma ComparedKeys(request: seq<Member>, response: seq<Member>, k: string)
    requires UniqueKeys(request) && UniqueKeys(response)
    ensures k in Keys(Compared(request, response).0) <==> k in Keys(request) && k in Keys(response)
    ensures k in Keys(Compared(request, response).1) <==> k in Keys(request) && k in Keys(response)
  {
    FilteredKeys(request, KeysIn(Keys(response)), k);
    FilteredKeys(response, KeysIn(Keys(request)), k);
  }

  /** id and creationTimestamp are not request keys. */
  lemma OutputOnlyNotRequested(p: Params, policy: Value, k: string)
    requires k == "id" || k == "creationTimestamp"
    ensures k !in Keys(RequestDict(p, policy))
  {
    var d := RequestDict(p, policy);
    forall j | 0 <= j < |d| ensures Keys(d)[j] != k {
      assert d[j].key[0] != k[0];
    }
  }

  /** kind and region are not keys of the reduced response. */
  lemma RequestOnlyNotReduced(id: Value, created: Value, name: string, description: Value, policy: Value, target: Value, k: string)
    requires k == "kind" || k == "region"
    ensures k !in Keys(Reduced(id, created, name, description, policy, target))
  {
    var d := Reduced(id, created, name, description, policy, target);
    forall j | 0 <= j < |d| ensures Keys(d)[j] != k {
      assert d[j].key[0] != k[0];
    }
  }

  /** In the module's own comparison, the output-only id and
      creationTimestamp, and the request-only kind and region, never take
      part. */
  lemma ComparisonLeavesOut(p: Params, policy: Value, id: Value, created: Value, description: Value,
                            fetchedPolicy: Value, target: Value, k: string)
    requires k == "id" || k == "creationTimestamp" || k == "kind" || k == "region"
    ensures var vals := Compared(Filtered(RequestDict(p, policy), KeepSet),
                                 Reduced(id, created, p.name, description, fetchedPolicy, target));
      k !in Keys(vals.0) && k !in Keys(vals.1)
  {
    var request := Filtered(RequestDict(p, policy), KeepSet);
    var response := Reduced(id, created, p.name, description, fetchedPolicy, target);
    RequestDictUnique(p, policy);
    PutAllUnique([], Select(RequestDict(p, policy), KeepSet));
    ReducedUnique(id, created, p.name, description, fetchedPolicy, target);
    ComparedKeys(request, response, k);
    if k == "id" || k == "creationTimestamp" {
      OutputOnlyNotRequested(p, policy, k);
      FilteredKeys(RequestDict(p, policy), KeepSet, k);
    } else {
      RequestOnlyNotReduced(id, created, p.name, description, fetchedPolicy, target, k);
    }
  }

  /** A fetched resource that carries the requested description, target
      and policy gives is_different two dicts with the same entries. */
  lemma EchoComparesEqual(p: Params, policy: Value, id: Value, created: Value, k: string)
    ensures var vals := Compared(Filtered(RequestDict(p, policy), KeepSet),
                                 Reduced(id, created, p.name, OptStr(p.description), policy, Str(p.target)));
      Lookup(vals.0, k) == Lookup(vals.1, k)
  {
    var request := Filtered(RequestDict(p, policy), KeepSet);
    var response := Reduced(id, created, p.name, OptStr(p.description), policy, Str(p.target));
    RequestDictUnique(p, policy);
    PutAllUnique([], Select(RequestDict(p, policy), KeepSet));
    ReducedUnique(id, created, p.name, OptStr(p.description), policy, Str(p.target));
    FilteredLookup(request, KeysIn(Keys(response)), k);
    FilteredLookup(response, KeysIn(Keys(request)), k);
    if k in Keys(request) && k in Keys(response) {
      SharedKeyAgrees(p, policy, id, created, k);
    }
  }

  /** A key both dicts have carries the same value in both. */
  lemma SharedKeyAgrees(p: Params, policy: Value, id: Value, created: Value, k: string)
    requires k in Keys(Filtered(RequestDict(p, policy), KeepSet))
    requires k in Keys(Reduced(id, created, p.name, OptStr(p.description), policy, Str(p.target)))
    ensures Lookup(Filtered(RequestDict(p, policy), KeepSet), k) ==
            Lookup(Reduced(id, created, p.name, OptStr(p.description), policy, Str(p.target)), k)
  {
    var d := RequestDict(p, policy);
    var response := Reduced(id, created, p.name, OptStr(p.description), policy, Str(p.target));
    RequestDictUnique(p, policy);
    FilteredKeys(d, KeepSet, k);
    FilteredLookup(d, KeepSet, k);
    var j :| 0 <= j < |d| && Keys(d)[j] == k;
    if j < 2 {
      RequestOnlyNotReduced(id, created, p.name, OptStr(p.description), policy, Str(p.target), k);
    } else {
      SamePosition(p, policy, id, created, j);
    }
  }

  /** Past kind and region, the request and an echoing response hold the
      same member at each position. */
  lemma SamePosition(p: Params, policy: Value, id: Value, created: Value, j: nat)
    requires 2 <= j < 6
    ensures Lookup(RequestDict(p, policy), RequestDict(p, policy)[j].key) == Some(RequestDict(p, policy)[j].value)
    ensures Lookup(Reduced(id, created, p.name, OptStr(p.description), policy, Str(p.target)), RequestDict(p, policy)[j].key)
         == Some(RequestDict(p, policy)[j].value)
  {
    var d := RequestDict(p, policy);
    var response := Reduced(id, created, p.name, OptStr(p.description), policy, Str(p.target));
    RequestDictUnique(p, policy);
    ReducedUnique(id, created, p.name, OptStr(p.description), policy, Str(p.target));
    assert d[j] == response[j];
    LookupUnique(d, j);
    LookupUnique(response, j);
  }

  /** A fetched policy that is the requested one under the API's names
      reads back as the requested policy. */
  lemma EchoedPolicy(p: Params, fetched: seq<Member>, tidy: Tidy)
    requires AsDict(Get(fetched, "autoscalingPolicy")) == CamelDict(AutoscalingPolicy, AsDict(p.autoscalingPolicy))
    ensures PolicyResponse(fetched, tidy) == PolicyRequest(p, tidy)
  {
    PolicyRoundTrip(AsDict(p.autoscalingPolicy), tidy);
  }

  /** So a resource that already holds what the playbook asks for is
      compared equal, entry by entry. */
  lemma EchoIsNotDifferent(p: Params, fetched: seq<Member>, tidy: Tidy, k: string)
    requires Get(fetched, "description") == OptStr(p.description) && Get(fetched, "target") == Str(p.target)
    requires AsDict(Get(fetched, "autoscalingPolicy")) == CamelDict(AutoscalingPolicy, AsDict(p.autoscalingPolicy))
    ensures var vals := Compared(Request(p, tidy), ResponseToHash(p, fetched, tidy));
      Lookup(vals.0, k) == Lookup(vals.1, k)
  {
    EchoedPolicy(p, fetched, tidy);
    EchoComparesEqual(p, PolicyRequest(p, tidy), Get(fetched, "id"), Get(fetched, "creationTimestamp"), k);
  }

  // ---------------------------------------------------------------------
  // URLs
  // ---------------------------------------------------------------------

  /** How str.format shows a parameter that may be None. */
  function Shown(o: Option<string>): string {
    if o.Some? then o.value else "None"
  }

  const ComputeProjects := "https://compute.googleapis.com/compute/v1/projects/"

  /** self_link: the autoscaler's own URL. */
  function SelfLink(p: Params): string {
    ComputeProjects + Shown(p.project) + "/regions/" + p.region + "/autoscalers/" + p.name
  }

  /** collection: the URL new autoscalers are posted to. */
  function Collection(p: Params): string {
    ComputeProjects + Shown(p.project) + "/regions/" + p.region + "/autoscalers"
  }

  /** The autoscaler's URL is its collection's URL followed by its name. */
  lemma SelfLinkInCollection(p: Params)
    ensures SelfLink(p) == Collection(p) + "/" + p.name
  {
    var prefix := ComputeProjects + Shown(p.project) + "/regions/" + p.region;
    calc {
      SelfLink(p);
      prefix + "/autoscalers/" + p.name;
      { assert "/autoscalers/" == "/autoscalers" + "/"; }
      prefix + ("/autoscalers" + "/") + p.name;
      Collection(p) + "/" + p.name;
    }
  }

  /** str() of a value in a format string; lists and dicts are not shown
      by this model. */
  function Render(v: Value): Option<string> {
    match v
    case Null => Some("None")
    case Bool(b) => Some(if b then "True" else "False")
    case Int(i) => Some(PyInt.IntToDecimal(i))
    case Str(s) => Some(s)
    case _ => None
  }

  /** extra_data updated with module.params. */
  function Combined(extra: Option<seq<Member>>, params: seq<Member>): seq<Member> {
    PutAll(if extra.Some? then extra.value else [], params)
  }

  /** The operation URL filled in from a dict: None when a key is missing
      (a KeyError) or its value is not shown by this model. */
  function OperationUrl(d: seq<Member>): Option<string> {
    var project := Lookup(d, "project");
    var region := Lookup(d, "region");
    var opId := Lookup(d, "op_id");
    if project.None? || region.None? || opId.None? then None
    else
      var shown := [Render(project.value), Render(region.value), Render(opId.value)];
      if shown[0].None? || shown[1].None? || shown[2].None? then None
      else Some(ComputeProjects + shown[0].value + "/regions/" + shown[1].value + "/operations/" + shown[2].value)
  }

  /** async_op_url, on module.params as a dict. */
  function AsyncOpUrl(params: seq<Member>, extra: Option<seq<Member>>): Option<string> {
    OperationUrl(Combined(extra, params))
  }

  /** When extra_data and the parameters share a key, the parameter wins;
      other keys of extra_data stay as they were. */
  lemma ParamsWin(extra: Option<seq<Member>>, params: seq<Member>, k: string)
    requires UniqueKeys(params)
    ensures Lookup(Combined(extra, params), k) ==
      if k in Keys(params) then Lookup(params, k)
      else Lookup(if extra.Some? then extra.value else [], k)
  {
    var acc := if extra.Some? then extra.value else [];
    if k in Keys(params) {
      var j :| 0 <= j < |params| && Keys(params)[j] == k;
      LookupUnique(params, j);
      PutAllAssigned(acc, params, k, params[j].value);
    } else {
      PutAllAbsent(acc, params, k);
    }
  }

  /** The module's parameters have no repeated key, and op_id is not one
      of them. */
  lemma ParamsDictKeys(p: Params)
    ensures UniqueKeys(ParamsDict(p))
    ensures "op_id" !in Keys(ParamsDict(p))
  {
    var d := ParamsDict(p);
    forall i, j | 0 <= i < j < |d| ensures d[i].key != d[j].key {
      assert d[i].key[0] != d[j].key[0];
    }
    forall j | 0 <= j < |d| ensures Keys(d)[j] != "op_id" {
      assert d[j].key[0] != 'o';
    }
  }

  /** Where project and region sit among the parameters. */
  lemma ParamsLookup(p: Params)
    ensures Lookup(ParamsDict(p), "project") == Some(OptStr(p.project))
    ensures Lookup(ParamsDict(p), "region") == Some(Str(p.region))
  {
    ParamsDictKeys(p);
    LookupUnique(ParamsDict(p), 5);
    LookupUnique(ParamsDict(p), 6);
  }

  /** The URL wait_for_completion polls, for an operation name given as
      extra_data: project and region come from the parameters (the
      module's own parameters qualify, by ParamsDictKeys and ParamsLookup),
      the operation from extra_data. */
  lemma PolledUrl(params: seq<Member>, project: Value, region: Value, opName: string)
    requires UniqueKeys(params) && "op_id" !in Keys(params)
    requires Lookup(params, "project") == Some(project) && Lookup(params, "region") == Some(region)
    requires Render(project).Some? && Render(region).Some?
    ensures AsyncOpUrl(params, Some([Member("op_id", Str(opName))])) ==
      Some(ComputeProjects + Render(project).value + "/regions/" + Render(region).value + "/operations/" + opName)
  {
    var extra := Some([Member("op_id", Str(opName))]);
    CombinedLookups(params, project, region, opName);
    OperationUrlFilled(Combined(extra, params), project, region, Str(opName));
  }

  lemma CombinedLookups(params: seq<Member>, project: Value, region: Value, opName: string)
    requires UniqueKeys(params) && "op_id" !in Keys(params)
    requires Lookup(params, "project") == Some(project) && Lookup(params, "region") == Some(region)
    ensures var c := Combined(Some([Member("op_id", Str(opName))]), params);
      Lookup(c, "project") == Some(project) && Lookup(c, "region") == Some(region) &&
      Lookup(c, "op_id") == Some(Str(opName))
  {
    var extra := Some([Member("op_id", Str(opName))]);
    ParamsWin(extra, params, "project");
    ParamsWin(extra, params, "region");
    ParamsWin(extra, params, "op_id");
  }

  lemma OperationUrlFilled(d: seq<Member>, project: Value, region: Value, opId: Value)
    requires Lookup(d, "project") == Some(project) && Lookup(d, "region") == Some(region)
    requires Lookup(d, "op_id") == Some(opId)
    requires Render(project).Some? && Render(region).Some? && Render(opId).Some?
    ensures OperationUrl(d) ==
      Some(ComputeProjects + Render(project).value + "/regions/" + Render(region).value + "/operations/" + Render(opId).value)
  {
  }

  // ---------------------------------------------------------------------
  // return_if_object and main
  // ---------------------------------------------------------------------

  /** return_if_object: 204 gives nothing, and so does 404 when a missing
      resource is allowed. Any other reply first goes through
      `module.raise_for_status`, whose fail_json message on an error status
      is `raised` (None when the status is not an error); then a body that
      is not JSON fails with the raw response text, one that carries a
      truthy error.errors fails with it, and any other body is the
      result. */
  function ReturnIfObject(allowNotFound: bool, status: int, raised: Option<Value>, body: GcpTargetPoolInfo.Body): (r: GcpTargetPoolInfo.Fetched)
    ensures r.NoObject? <==> (allowNotFound && status == 404) || status == 204
    ensures !r.NoObject? && raised.Some? ==> r == GcpTargetPoolInfo.FailJson(raised.value)
    ensures !r.NoObject? && raised.None? && body.BadJson? ==>
      r == GcpTargetPoolInfo.FailJson(Str("Invalid JSON response with error: " + body.text))
    ensures !r.NoObject? && raised.None? && body.Json? ==>
      if Truthy(GetPath(body.v, ["error", "errors"])) then r == GcpTargetPoolInfo.FailJson(GetPath(body.v, ["error", "errors"]))
      else r == GcpTargetPoolInfo.Found(body.v)
  {
    if allowNotFound && status == 404 then GcpTargetPoolInfo.NoObject
    else if status == 204 then GcpTargetPoolInfo.NoObject
    else if raised.Some? then GcpTargetPoolInfo.FailJson(raised.value)
    else match body
      case BadJson(text, _) => GcpTargetPoolInfo.FailJson(Str("Invalid JSON response with error: " + text))
      case Json(result) =>
        var errors := GetPath(result, ["error", "errors"]);
        if Truthy(errors) then GcpTargetPoolInfo.FailJson(errors) else GcpTargetPoolInfo.Found(result)
  }

  /** With a missing resource allowed, the reading is the one the target
      pool info module uses, except for the message of a body that is not
      JSON: this module reports the raw text where the other reports the
      decoder's message. */
  lemma ReturnIfObjectAllowing(status: int, raised: Option<Value>, body: GcpTargetPoolInfo.Body)
    ensures body.Json? ==> ReturnIfObject(true, status, raised, body) == GcpTargetPoolInfo.ReturnIfObject(status, raised, body)
    ensures body.BadJson? ==>
      ReturnIfObject(true, status, raised, body)
        == GcpTargetPoolInfo.ReturnIfObject(status, raised, GcpTargetPoolInfo.BadJson(body.text, body.text))
    ensures body.BadJson? && status != 404 && status != 204 && raised.None? ==>
      (ReturnIfObject(true, status, raised, body) == GcpTargetPoolInfo.ReturnIfObject(status, raised, body)
       <==> body.text == body.err)
  {
    if body.BadJson? {
      var prefix := "Invalid JSON response with error: ";
      assert (prefix + body.text)[|prefix|..] == body.text;
      assert (prefix + body.err)[|prefix|..] == body.err;
    }
  }

  /** A request main sends: post to the collection, put or delete at the
      autoscaler's URL. */
  datatype Call = Create(link: string, body: seq<Member>) | Update(link: string, body: seq<Member>) | Delete(link: string)

  /** How main ends: exit_json with the result dict, fail_json, or an
      uncaught exception. */
  datatype Exit = ExitJson(result: seq<Member>) | FailJson(msg: Value) | Crash

  datatype Run = Run(calls: seq<Call>, exit: Exit)

  /** The last step of main: `fetch.update({'changed': changed})` on the
      resource main ended with; a reply that is not a dict has no update
      method. */
  function Reply(calls: seq<Call>, fetched: GcpTargetPoolInfo.Fetched, changed: bool): (r: Run)
    ensures r.calls == calls
    ensures r.exit.ExitJson? ==> Lookup(r.exit.result, "changed") == Some(Bool(changed))
  {
    match fetched
    case FailJson(m) => Run(calls, FailJson(m))
    case NoObject => Run(calls, Crash)
    case Found(v) =>
      if v.Object? then Run(calls, ExitJson(Put(v.members, "changed", Bool(changed)))) else Run(calls, Crash)
  }

  /** The `fetch = {}` main sets after a delete or when there is nothing
      to delete. */
  const Emptied := GcpTargetPoolInfo.Found(Object([]))

  /** main, on the reply to the first GET (`first`), the outcome of the
      waited-for create, update or delete (`op`), and the GET after an
      update (`refetched`). A result always carries `changed`, true exactly
      when main sent a create, update or delete. */
  function Execute(p: Params, first: GcpTargetPoolInfo.Fetched, op: GcpTargetPoolInfo.Fetched,
                   refetched: GcpTargetPoolInfo.Fetched, differ: (seq<Member>, seq<Member>) -> bool, tidy: Tidy): (r: Run)
    ensures |r.calls| <= 1
    ensures r.exit.ExitJson? ==> Lookup(r.exit.result, "changed") == Some(Bool(r.calls != []))
  {
    if first.FailJson? then Run([], FailJson(first.msg))
    else if first.Found? && Truthy(first.v) then
      if p.state == Present then
        if !first.v.Object? then Run([], Crash)
        else if Differs(p, first.v.members, differ, tidy) then
          var calls := [Update(SelfLink(p), Request(p, tidy))];
          if op.FailJson? then Run(calls, FailJson(op.msg)) else Reply(calls, refetched, true)
        else Reply([], first, false)
      else if op.FailJson? then Run([Delete(SelfLink(p))], FailJson(op.msg))
      else Reply([Delete(SelfLink(p))], Emptied, true)
    else if p.state == Present then Reply([Create(Collection(p), Request(p, tidy))], op, true)
    else Reply([], Emptied, false)
  }

  /** main. */
  method RunModule(p: Params, first: GcpTargetPoolInfo.Fetched, op: GcpTargetPoolInfo.Fetched,
                   refetched: GcpTargetPoolInfo.Fetched, differ: (seq<Member>, seq<Member>) -> bool, tidy: Tidy)
    returns (calls: seq<Call>, exit: Exit)
    ensures Run(calls, exit) == Execute(p, first, op, refetched, differ, tidy)
  {
    calls := [];
    if first.FailJson? {
      return calls, FailJson(first.msg);
    }
    var fetch: GcpTargetPoolInfo.Fetched;
    var changed := false;
    if first.Found? && Truthy(first.v) {
      if p.state == Present {
        if !first.v.Object? {
          return calls, Crash;
        }
        var different := IsDifferent(p, first.v.members, differ, tidy);
        fetch := first;
        if different {
          var request := ResourceToRequest(p, tidy);
          calls := [Update(SelfLink(p), request)];
          if op.FailJson? {
            return calls, FailJson(op.msg);
          }
          fetch := refetched;
          changed := true;
        }
      } else {
        calls := [Delete(SelfLink(p))];
        if op.FailJson? {
          return calls, FailJson(op.msg);
        }
        fetch := Emptied;
        changed := true;
      }
    } else {
      if p.state == Present {
        var request := ResourceToRequest(p, tidy);
        calls := [Create(Collection(p), request)];
        fetch := op;
        changed := true;
      } else {
        fetch := Emptied;
      }
    }
    var run := Reply(calls, fetch, changed);
    exit := run.exit;
  }

  /** main's decision table: an existing resource is updated only when it
      differs from the request and deleted when absent is asked for; a
      missing one is created when present is asked for and otherwise left
      alone with an empty result. */
  lemma DecisionTable(p: Params, first: GcpTargetPoolInfo.Fetched, op: GcpTargetPoolInfo.Fetched,
                      refetched: GcpTargetPoolInfo.Fetched, differ: (seq<Member>, seq<Member>) -> bool, tidy: Tidy)
    requires !first.FailJson? && !op.FailJson?
    ensures var r := Execute(p, first, op, refetched, differ, tidy);
      var exists_ := first.Found? && Truthy(first.v);
      && (exists_ && p.state == Present && first.v.Object? ==>
            (r.calls != [] <==> Differs(p, first.v.members, differ, tidy)) &&
            (r.calls != [] ==> r.calls == [Update(SelfLink(p), Request(p, tidy))]))
      && (exists_ && p.state == Absent ==>
            r == Run([Delete(SelfLink(p))], ExitJson([Member("changed", Bool(true))])))
      && (!exists_ && p.state == Present ==> r.calls == [Create(Collection(p), Request(p, tidy))])
      && (!exists_ && p.state == Absent ==> r == Run([], ExitJson([Member("changed", Bool(false))])))
  {
  }
}
