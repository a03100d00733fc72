/** The Azure "azure_rm_servicebus" module: how it merges the requested
    namespace settings with an existing namespace, decides whether anything
    changed, refuses to change the immutable zone redundancy, and which
    create or delete call it then makes. Azure SDK calls are replaced by
    their answers as inputs. */
module AzureServiceBus {
  import opened Common
  import opened JsonValues

  // ---------------------------------------------------------- merge rules

  /** The outcome of comparing one requested setting with the existing one. */
  datatype Merge<T> = Merge(changed: bool, value: Option<T>)

  /** minimum_tls_version, premium_messaging_partitions and
      public_network_access: a given value that differs (`!=`) from the
      existing one is a change and is kept; otherwise the setting takes the
      existing value. */
  function MergeField<T(==)>(param: Option<T>, orig: Option<T>): (m: Merge<T>)
    ensures m.changed <==> param.Some? && param != orig
    ensures m.value == if m.changed then param else orig
  {
    if param.Some? && param != orig then Merge(true, param) else Merge(false, orig)
  }

  /** Python's `bool(x)` of an optional flag: None is False. */
  predicate Flag(b: Option<bool>) {
    b.Some? && b.value
  }

  /** zone_redundant and disable_local_auth: compared by truthiness
      (`bool(a) != bool(b)`), otherwise inherited from the existing value. */
  function MergeTruth(param: Option<bool>, orig: Option<bool>): (m: Merge<bool>)
    ensures m.changed <==> param.Some? && param.value != Flag(orig)
    ensures m.value == if m.changed then param else orig
  {
    if param.Some? && Flag(param) != Flag(orig) then Merge(true, param) else Merge(false, orig)
  }

  // -------------------------------------------------------- the namespace

  /** The namespace settings the module reads back and sends. */
  datatype Namespace = Namespace(
    tags: Value, identity: Value, minimumTlsVersion: Option<string>, zoneRedundant: Option<bool>,
    disableLocalAuth: Option<bool>, publicNetworkAccess: Option<string>, premiumMessagingPartitions: Option<int>)


  /** The `sku` argument's choices. */
  datatype Sku = Basic | Standard | Premium

  /** The choice as the module accepts it. */
  function SkuChoice(sku: Sku): string {
    match sku
    case Basic => "basic"
    case Standard => "standard"
    case Premium => "premium"
  }

  /** The SKU name the create call sends: `str.capitalize` of the choice. */
  function SkuName(sku: Sku): string {
    match sku
    case Basic => "Basic"
    case Standard => "Standard"
    case Premium => "Premium"
  }

  /** The `state` argument's choices. */
  datatype State = Present | Absent

  /** The module arguments (an unset location is ""). */
  datatype Kwargs = Kwargs(
    name: string, location: string, state: State, sku: Sku, tags: Value, identity: Value,
    minimumTlsVersion: Option<string>, zoneRedundant: Option<bool>, disableLocalAuth: Option<bool>,
    publicNetworkAccess: Option<string>, premiumMessagingPartitions: Option<int>)

  /** What the Azure side answers: the resource group's location, the
      existing namespace, the name-availability check (`None` when the name
      is free, else the failure text), the results of the identity and tag
      helpers, the namespace create returns (or its error text), the delete
      call's error text, if any, and the
      SDK's rendering of a namespace as a result dict. */
  datatype Env = Env(
    rgLocation: string, original: Option<Namespace>, nameCheck: Option<string>,
    identityUpdate: (bool, Value), tagsUpdate: (bool, Value),
    created: Namespace, createError: Option<string>, deleteError: Option<string>, checkMode: bool,
    toDict: Namespace -> seq<Member>)

  /** The calls the module makes on the service. */
  datatype Call = CheckName | Create(location: string, sku: Sku, settings: Namespace) | Delete

  /** How a run ends: exit_json with the result dict, given as the dict
      built before the final `changed` assignment and that flag (see
      Returned), or fail_json with a message. */
  datatype Exit = ExitJson(base: seq<Member>, changed: bool) | FailJson(msg: Message)

  /** The reasons a run stops through fail_json. */
  datatype Message =
    | NameUnavailable(name: string, detail: string)
    | CreateFailed(name: string, detail: string)
    | DeleteFailed(name: string, detail: string)
    | ImmutableZone

  /** The text fail_json reports for each reason. */
  function Text(m: Message): string {
    match m
    case NameUnavailable(name, detail) => "Error creating namespace " + name + " - " + detail
    case CreateFailed(name, detail) => "Error creating namespace " + name + " - " + detail
    case DeleteFailed(name, detail) => "Error deleting route " + name + " - " + detail
    case ImmutableZone => "The zone_redundant is an immutable property"
  }

  /** What comparing the request with an existing namespace decides:
      whether the create-or-update call is needed, whether the request
      tries to flip the immutable zone redundancy, and the settings the
      call would send. */
  datatype Plan = Plan(changed: bool, immutableClash: bool, settings: Namespace)

  /** The comparison exec_module makes against an existing namespace `o`,
      given the requested settings, the tags helper's verdict and whether
      the identity helper asked for an update. */
  function ExistingPlan(req: Namespace, o: Namespace, tagsUpdate: (bool, Value), identityChanged: bool): (p: Plan)
    ensures p.immutableClash <==> MergeTruth(req.zoneRedundant, o.zoneRedundant).changed
    ensures p.changed <==>
      || tagsUpdate.0 || identityChanged
      || MergeField(req.minimumTlsVersion, o.minimumTlsVersion).changed
      || MergeField(req.premiumMessagingPartitions, o.premiumMessagingPartitions).changed
      || MergeField(req.publicNetworkAccess, o.publicNetworkAccess).changed
      || MergeTruth(req.disableLocalAuth, o.disableLocalAuth).changed
    ensures p.settings.tags == (if tagsUpdate.0 then tagsUpdate.1 else req.tags)
    ensures p.settings.identity == req.identity
    ensures p.settings.zoneRedundant == o.zoneRedundant
  {
    var tls := MergeField(req.minimumTlsVersion, o.minimumTlsVersion);
    var partitions := MergeField(req.premiumMessagingPartitions, o.premiumMessagingPartitions);
    var access := MergeField(req.publicNetworkAccess, o.publicNetworkAccess);
    var zone := MergeTruth(req.zoneRedundant, o.zoneRedundant);
    var localAuth := MergeTruth(req.disableLocalAuth, o.disableLocalAuth);
    Plan(
      tagsUpdate.0 || identityChanged || tls.changed || partitions.changed || access.changed || localAuth.changed,
      zone.changed,
      Namespace(if tagsUpdate.0 then tagsUpdate.1 else req.tags, req.identity, tls.value, o.zoneRedundant,
                localAuth.value, access.value, partitions.value))
  }

  /** Each setting the update would send is either the requested one or,
      where the request leaves it unset or equal, the existing one. */
  lemma PlanSettingsFrom(req: Namespace, o: Namespace, tagsUpdate: (bool, Value), identityChanged: bool)
    ensures var s := ExistingPlan(req, o, tagsUpdate, identityChanged).settings;
      && (s.minimumTlsVersion == req.minimumTlsVersion || s.minimumTlsVersion == o.minimumTlsVersion)
      && (s.premiumMessagingPartitions == req.premiumMessagingPartitions || s.premiumMessagingPartitions == o.premiumMessagingPartitions)
      && (s.publicNetworkAccess == req.publicNetworkAccess || s.publicNetworkAccess == o.publicNetworkAccess)
      && (s.disableLocalAuth == req.disableLocalAuth || s.disableLocalAuth == o.disableLocalAuth)
      && (req.minimumTlsVersion.None? ==> s.minimumTlsVersion == o.minimumTlsVersion)
      && (req.premiumMessagingPartitions.None? ==> s.premiumMessagingPartitions == o.premiumMessagingPartitions)
      && (req.publicNetworkAccess.None? ==> s.publicNetworkAccess == o.publicNetworkAccess)
      && (req.disableLocalAuth.None? ==> s.disableLocalAuth == o.disableLocalAuth)
  {
  }

  /** Re-running the same request against the namespace the update wrote
      finds nothing to change and no clash, when the tag and identity
      helpers report nothing new. */
  lemma PlanSettles(req: Namespace, o: Namespace, tagsUpdate: (bool, Value), identityChanged: bool)
    requires !ExistingPlan(req, o, tagsUpdate, identityChanged).immutableClash
    ensures var p := ExistingPlan(req, o, tagsUpdate, identityChanged);
      var again := ExistingPlan(req, p.settings, (false, Null), false);
      !again.changed && !again.immutableClash
  {
  }


  /** The dict the result is built on: the namespace rendered by the SDK
      when one is left, otherwise the dict built so far. */
  function ResultBase(prior: seq<Member>, original: Option<Namespace>, toDict: Namespace -> seq<Member>): seq<Member> {
    if original.Some? then toDict(original.value) else prior
  }

  /** The dict exec_module returns: the base with `changed` assigned. */
  function Returned(exit: Exit): (r: seq<Member>)
    requires exit.ExitJson?
    ensures Lookup(r, "changed") == Some(Bool(exit.changed))
    ensures forall key :: key != "changed" ==> Lookup(r, key) == Lookup(exit.base, key)
  {
    assert forall key :: key != "changed" ==> Lookup(Put(exit.base, "changed", Bool(exit.changed)), key) == Lookup(exit.base, key) by {
      forall key | key != "changed" {
        PutOthers(exit.base, "changed", Bool(exit.changed), key);
      }
    }
    Put(exit.base, "changed", Bool(exit.changed))
  }

  /** The requested settings, once the module arguments are set and the
      identity helper has replaced a given identity by its result. */
  function Requested(k: Kwargs, env: Env): Namespace {
    Namespace(k.tags, if Truthy(k.identity) then env.identityUpdate.1 else k.identity,
              k.minimumTlsVersion, k.zoneRedundant, k.disableLocalAuth,
              k.publicNetworkAccess, k.premiumMessagingPartitions)
  }

  /** The location the namespace is created in: the given one, else the
      resource group's. */
  function Location(k: Kwargs, env: Env): string {
    if k.location != "" then k.location else env.rgLocation
  }

  /** What the state branch of exec_module leaves: the calls made, whether
      anything changed, the namespace afterwards, the failure message, if
      any, and the result dict built so far. */
  datatype Step = Step(calls: seq<Call>, changed: bool, original: Option<Namespace>, failure: Option<Message>, results: seq<Member>)

  /** The state-present branch, from the requested settings and whether
      the identity helper asked for an update: check mode reports a change
      without calling anything; otherwise a missing namespace is created,
      and an existing one is re-sent only when the comparison finds a
      change, and never when it tries to flip zone redundancy. */
  function PresentOutcome(k: Kwargs, env: Env, req: Namespace, identityChanged: bool, prior: seq<Member>): Step {
    var createFailure := if env.createError.Some? then Some(CreateFailed(k.name, env.createError.value)) else None;
    var created := if createFailure.None? then Some(env.created) else env.original;
    if env.checkMode then Step([], true, env.original, None, prior)
    else if env.original.Some? then
      var p := ExistingPlan(req, env.original.value, env.tagsUpdate, identityChanged);
      if p.immutableClash then Step([], true, env.original, Some(ImmutableZone), prior)
      else if p.changed then
        Step([Create(Location(k, env), k.sku, p.settings)], true, created, createFailure, prior)
      else Step([], false, env.original, None, prior)
    else Step([Create(Location(k, env), k.sku, req)], true, created, createFailure, prior)
  }

  /** Any other state: with state absent an existing namespace is a
      change, deleted (and `deleted` recorded) only outside check mode;
      otherwise nothing happens. */
  function AbsentOutcome(k: Kwargs, env: Env, prior: seq<Member>): Step {
    if k.state == Absent && env.original.Some? then
      if env.checkMode then Step([], true, None, None, prior)
      else if env.deleteError.Some? then
        Step([Delete], true, None, Some(DeleteFailed(k.name, env.deleteError.value)), prior)
      else Step([Delete], true, None, None, Put(prior, "deleted", Bool(true)))
    else Step([], false, env.original, None, prior)
  }

  /** The calls a run makes and how it ends. */
  datatype Run = Run(calls: seq<Call>, exit: Exit)

  /** One run of the module, from the arguments, the service's answers and
      the result dict __init__ prepared. */
  function Execute(k: Kwargs, env: Env, prior: seq<Member>): Run {
    var pre := if env.original.None? then [CheckName] else [];
    if env.original.None? && env.nameCheck.Some? then
      Run(pre, FailJson(NameUnavailable(k.name, env.nameCheck.value)))
    else Finish(pre, Branch(k, env, prior), env.toDict)
  }

  /** The state branch of a run that got past the name check. */
  function Branch(k: Kwargs, env: Env, prior: seq<Member>): Step {
    if k.state == Present then
      PresentOutcome(k, env, Requested(k, env), Truthy(k.identity) && env.identityUpdate.0, prior)
    else AbsentOutcome(k, env, prior)
  }

  /** The common tail of exec_module: fail_json on a failure, otherwise
      the result dict. */
  function Finish(pre: seq<Call>, step: Step, toDict: Namespace -> seq<Member>): Run {
    if step.failure.Some? then Run(pre + step.calls, FailJson(step.failure.value))
    else Run(pre + step.calls, ExitJson(ResultBase(step.results, step.original, toDict), step.changed))
  }

  // ------------------------------------------------- what a run promises

  /** A namespace that does not exist yet has its name checked before
      anything else, and a taken name ends the run with nothing else
      called. */
  lemma NameCheckedFirst(k: Kwargs, env: Env, prior: seq<Member>)
    requires env.original.None?
    ensures var r := Execute(k, env, prior);
      && r.calls != [] && r.calls[0] == CheckName
      && (env.nameCheck.Some? ==> r == Run([CheckName], FailJson(NameUnavailable(k.name, env.nameCheck.value))))
  {
  }

  /** Check mode never creates or deletes anything; it reports a change
      exactly when the run would make one: state present, or state absent
      with an existing namespace. */
  lemma CheckModeOnlyReports(k: Kwargs, env: Env, prior: seq<Member>)
    requires env.checkMode
    requires !(env.original.None? && env.nameCheck.Some?)
    ensures var r := Execute(k, env, prior);
      && r.calls == (if env.original.None? then [CheckName] else [])
      && r.exit.ExitJson?
      && (r.exit.changed <==> k.state == Present || env.original.Some?)
  {
  }

  /** Outside check mode with state present, the create-or-update call is
      made exactly when the namespace is missing or the comparison finds a
      change; a request to flip zone redundancy fails without any call. */
  lemma PresentCreatesWhenNeeded(k: Kwargs, env: Env, prior: seq<Member>)
    requires k.state == Present && !env.checkMode
    requires !(env.original.None? && env.nameCheck.Some?)
    ensures var r := Execute(k, env, prior);
      if env.original.None? then
        r.calls == [CheckName, Create(Location(k, env), k.sku, Requested(k, env))]
      else
        var p := ExistingPlan(Requested(k, env), env.original.value, env.tagsUpdate,
                              Truthy(k.identity) && env.identityUpdate.0);
        && (p.immutableClash ==> r == Run([], FailJson(ImmutableZone)))
        && (!p.immutableClash ==>
              && r.calls == (if p.changed then [Create(Location(k, env), k.sku, p.settings)] else [])
              && (r.exit.ExitJson? ==> r.exit.changed == p.changed))
  {
  }

  /** Delete is called exactly for state absent, outside check mode, when
      the namespace exists; a successful delete records `deleted` in the
      returned dict, and `changed` is always there. */
  lemma AbsentDeletesExisting(k: Kwargs, env: Env, prior: seq<Member>)
    requires !(env.original.None? && env.nameCheck.Some?)
    ensures var r := Execute(k, env, prior);
      && (Delete in r.calls <==> k.state == Absent && env.original.Some? && !env.checkMode)
      && (r.exit.ExitJson? ==> Lookup(Returned(r.exit), "changed") == Some(Bool(r.exit.changed)))
      && (k.state == Absent && env.original.Some? && !env.checkMode && env.deleteError.None? ==>
            r.exit.ExitJson? && Lookup(Returned(r.exit), "deleted") == Some(Bool(true)))
  {
    var r := Execute(k, env, prior);
    if k.state == Present {
      var step := Branch(k, env, prior);
      assert Delete !in step.calls;
    } else if k.state == Absent && env.original.Some? && !env.checkMode && env.deleteError.None? {
      assert r.exit == ExitJson(Put(prior, "deleted", Bool(true)), true);
      PutLookup(prior, "deleted", Bool(true), "deleted");
    }
  }

  /** Once an update went through, running the same request against the
      namespace it wrote, with the tag and identity helpers reporting
      nothing new, changes nothing and calls nothing. */
  lemma UpdateSettles(k: Kwargs, env: Env, prior: seq<Member>, env': Env, prior': seq<Member>)
    requires k.state == Present && !env.checkMode && env.original.Some?
    requires !ExistingPlan(Requested(k, env), env.original.value, env.tagsUpdate,
                           Truthy(k.identity) && env.identityUpdate.0).immutableClash
    requires env' == env.(original := Some(ExistingPlan(Requested(k, env), env.original.value, env.tagsUpdate,
                                                        Truthy(k.identity) && env.identityUpdate.0).settings),
                          tagsUpdate := (false, Null), identityUpdate := (false, env.identityUpdate.1))
    ensures Execute(k, env', prior') == Run([], ExitJson(ResultBase(prior', env'.original, env'.toDict), false))
  {
    var p := ExistingPlan(Requested(k, env), env.original.value, env.tagsUpdate,
                          Truthy(k.identity) && env.identityUpdate.0);
    assert Requested(k, env') == Requested(k, env);
    PlanSettles(Requested(k, env), env.original.value, env.tagsUpdate, Truthy(k.identity) && env.identityUpdate.0);
  }

  class ServiceBus {
    var location: string
    var tags: Value
    var identity: Value
    var updateIdentity: bool
    var minimumTlsVersion: Option<string>
    var zoneRedundant: Option<bool>
    var disableLocalAuth: Option<bool>
    var publicNetworkAccess: Option<string>
    var premiumMessagingPartitions: Option<int>
    var results: seq<Member>

    /** What __init__ guarantees exec_module: no identity update pending. */
    predicate Initial()
      reads this
    {
      !updateIdentity
    }

    /** The object as __init__ leaves it. */
    constructor ()
      ensures Initial()
      ensures results == [Member("changed", Bool(false)), Member("id", Null)]
    {
      location := "";
      tags := Null;
      identity := Null;
      updateIdentity := false;
      minimumTlsVersion := None;
      zoneRedundant := None;
      disableLocalAuth := None;
      publicNetworkAccess := None;
      premiumMessagingPartitions := None;
      results := [Member("changed", Bool(false)), Member("id", Null)];
    }

    /** The settings the create-or-update call sends. */
    function Settings(): Namespace
      reads this`tags, this`identity, this`minimumTlsVersion, this`zoneRedundant
      reads this`disableLocalAuth, this`publicNetworkAccess, this`premiumMessagingPartitions
    {
      Namespace(tags, identity, minimumTlsVersion, zoneRedundant, disableLocalAuth,
                publicNetworkAccess, premiumMessagingPartitions)
    }

    /** The comparison with an existing namespace, written back into the
        object's settings as exec_module does; `failed` is the immutable
        zone redundancy clash, after which the settings are left partly
        merged. */
    method MergeExisting(o: Namespace, tagsUpdate: (bool, Value)) returns (changed: bool, failed: bool)
      modifies this`tags, this`minimumTlsVersion, this`zoneRedundant
      modifies this`disableLocalAuth, this`publicNetworkAccess, this`premiumMessagingPartitions
      ensures var p := ExistingPlan(old(Settings()), o, tagsUpdate, updateIdentity);
        && failed == p.immutableClash && (failed ==> changed)
        && (!failed ==> changed == p.changed && Settings() == p.settings)
    {
      changed, failed := false, false;
      if tagsUpdate.0 {
        changed := true;
        tags := tagsUpdate.1;
      }
      if updateIdentity {
        changed := true;
      }
      var tls := MergeField(minimumTlsVersion, o.minimumTlsVersion);
      var partitions := MergeField(premiumMessagingPartitions, o.premiumMessagingPartitions);
      var access := MergeField(publicNetworkAccess, o.publicNetworkAccess);
      var zone := MergeTruth(zoneRedundant, o.zoneRedundant);
      var localAuth := MergeTruth(disableLocalAuth, o.disableLocalAuth);
      minimumTlsVersion := tls.value;
      premiumMessagingPartitions := partitions.value;
      publicNetworkAccess := access.value;
      changed := changed || tls.changed || partitions.changed || access.changed;
      if zone.changed {
        return true, true;
      }
      zoneRedundant := zone.value;
      disableLocalAuth := localAuth.value;
      changed := changed || localAuth.changed;
    }

    /** The state-present branch of exec_module. Returns the calls made,
        whether the run changed anything, the namespace afterwards and the
        failure message, if any. */
    method PresentBranch(k: Kwargs, env: Env) returns (calls: seq<Call>, changed: bool, original: Option<Namespace>, failure: Option<Message>)
      requires location == Location(k, env)
      modifies this`tags, this`minimumTlsVersion, this`zoneRedundant
      modifies this`disableLocalAuth, this`publicNetworkAccess, this`premiumMessagingPartitions
      ensures Step(calls, changed, original, failure, results) == PresentOutcome(k, env, old(Settings()), updateIdentity, results)
    {
      calls, changed, original, failure := [], false, env.original, None;
      if !env.checkMode {
        if original.Some? {
          var failed;
          changed, failed := MergeExisting(original.value, env.tagsUpdate);
          if failed {
            return calls, changed, original, Some(ImmutableZone);
          }
          if changed {
            calls := [Create(location, k.sku, Settings())];
            if env.createError.Some? {
              return calls, changed, original, Some(CreateFailed(k.name, env.createError.value));
            }
            original := Some(env.created);
          }
        } else {
          changed := true;
          calls := [Create(location, k.sku, Settings())];
          if env.createError.Some? {
            return calls, changed, original, Some(CreateFailed(k.name, env.createError.value));
          }
          original := Some(env.created);
        }
      } else {
        changed := true;
      }
    }

    /** The state-absent branch of exec_module (and the no-op for any
        other state). */
    method AbsentBranch(k: Kwargs, env: Env) returns (calls: seq<Call>, changed: bool, original: Option<Namespace>, failure: Option<Message>)
      modifies this`results
      ensures Step(calls, changed, original, failure, results) == AbsentOutcome(k, env, old(results))
    {
      calls, changed, original, failure := [], false, env.original, None;
      if k.state == Absent && original.Some? {
        changed := true;
        original := None;
        if !env.checkMode {
          calls := [Delete];
          if env.deleteError.Some? {
            return calls, changed, original, Some(DeleteFailed(k.name, env.deleteError.value));
          }
          results := Put(results, "deleted", Bool(true));
        }
      }
    }

    /** The start of exec_module: the module arguments are copied into the
        object, a missing location is taken from the resource group, a
        missing namespace has its name checked (`stop` when the name is
        taken), and a given identity is passed through the identity helper.
        Returns the calls made so far. */
    method Prepare(k: Kwargs, env: Env) returns (calls: seq<Call>, stop: bool)
      requires Initial()
      modifies this`location, this`tags, this`identity, this`updateIdentity, this`minimumTlsVersion
      modifies this`zoneRedundant, this`disableLocalAuth, this`publicNetworkAccess, this`premiumMessagingPartitions
      ensures calls == if env.original.None? then [CheckName] else []
      ensures stop <==> env.original.None? && env.nameCheck.Some?
      ensures location == Location(k, env)
      ensures !stop ==> Settings() == Requested(k, env) && updateIdentity == (Truthy(k.identity) && env.identityUpdate.0)
    {
      // the setattr loop over the module arguments
      location, tags, identity := k.location, k.tags, k.identity;
      minimumTlsVersion, zoneRedundant, disableLocalAuth := k.minimumTlsVersion, k.zoneRedundant, k.disableLocalAuth;
      publicNetworkAccess, premiumMessagingPartitions := k.publicNetworkAccess, k.premiumMessagingPartitions;
      calls, stop := [], false;
      if location == "" {
        location := env.rgLocation;
      }
      if env.original.None? {
        calls := calls + [CheckName];
        if env.nameCheck.Some? {
          return calls, true;
        }
      }
      if Truthy(identity) {
        updateIdentity := env.identityUpdate.0;
        identity := env.identityUpdate.1;
      }
    }

    /** exec_module. Returns the calls made on the service and how the run
        ends; the dict it returns is Returned(exit). */
    method ExecModule(k: Kwargs, env: Env) returns (calls: seq<Call>, exit: Exit)
      requires Initial()
      modifies this
      ensures Run(calls, exit) == Execute(k, env, old(results))
      ensures location == Location(k, env)
    {
      var stop;
      calls, stop := Prepare(k, env);
      if stop {
        return calls, FailJson(NameUnavailable(k.name, env.nameCheck.value));
      }
      ghost var prior, pre := results, calls;
      var more, changed, original, failure;
      if k.state == Present {
        more, changed, original, failure := PresentBranch(k, env);
      } else {
        more, changed, original, failure := AbsentBranch(k, env);
      }
      assert Step(more, changed, original, failure, results) == Branch(k, env, prior);
      calls := calls + more;
      if failure.Some? {
        return calls, FailJson(failure.value);
      }
      results := ResultBase(results, original, env.toDict);
      exit := ExitJson(results, changed);
      results := Put(results, "changed", Bool(changed));
    }
  }

  // ------------------------------------------------------- timedelta values

  /** The three fields of a Python timedelta. */
  datatype TimedeltaParts = TimedeltaParts(days: int, seconds: int, microseconds: int)

  /** A Python timedelta in its normalised form: the seconds within one day,
      the microseconds within one second and the days within the bounds of
      the `datetime` module. */
  type Timedelta = t: TimedeltaParts |
    && -999999999 <= t.days <= 999999999
    && 0 <= t.seconds < 86400
    && 0 <= t.microseconds < 1000000
    witness TimedeltaParts(0, 0, 0)

  /** The value the SDK reports for "no limit": .NET's TimeSpan.MaxValue
      rounded to microseconds. */
  const Unlimited: Timedelta := TimedeltaParts(10675199, 10085, 477581)

  /** is_valid_timedelta: the "no limit" value becomes None, any other
      value is returned as it is. */
  function IsValidTimedelta(value: Timedelta): (r: Option<Timedelta>)
    ensures r.None? <==> value == Unlimited
    ensures r.Some? ==> r.value == value
  {
    if value == Unlimited then None else Some(value)
  }
}
