/** IBM Storage Virtualize "ibm_svc_manage_volume": the size unit
    conversion, the I/O group list check, the parameter validators, the
    selection of thinclone targets, the comparison of an existing volume with
    the requested one, and the commands update and rename send. REST calls
    are replaced by their answers as inputs and by a log of the commands the
    module sends. */
module IbmSvcVolume {
  import opened Common
  import opened PyInt

  // ---------------------------------------------------------- parameters

  datatype State = Present | Absent

  /** The unit choices, in the order convert_to_bytes indexes them. */
  datatype Unit = B | KB | MB | GB | TB | PB

  datatype CloneType = Clone | Thinclone

  function CloneTypeName(t: CloneType): string {
    match t
    case Clone => "clone"
    case Thinclone => "thinclone"
  }

  /** The module parameters. A string parameter is "" when not given: every
      test the module makes on one is a truthiness test. */
  datatype Params = Params(
    name: string, state: State, pool: string, size: string, unit: Unit,
    buffersize: string, iogrp: string, volumegroup: string, novolumegroup: Option<bool>,
    thin: Option<bool>, compressed: Option<bool>, deduplicated: Option<bool>,
    oldName: string, enableCloudSnapshot: Option<bool>, cloudAccountName: string,
    cloneType: Option<CloneType>, fromSourceVolume: string, allowHs: bool)

  /** Why a run stops through fail_json. */
  datatype Failure =
    | MissingMandatory(names: seq<string>)
    | GroupsExclusive
    | InvalidForDeletion(names: seq<string>)
    | NotForCreation(param: string)
    | OldNameOnCreation
    | TypeWithoutSource
    | SizeOnClone
    | MissingForCreation(names: seq<string>)
    | OldNameRequired
    | NotForRename(names: seq<string>)
    | DuplicateIogrp
    | InactiveIogrp(names: seq<string>)
    | VolumesMissing
    | MirroredVolume
    | UpdateUnsupported(names: seq<string>)
    | OldVolumeMissing(oldName: string)
    | NewVolumeExists(name: string)

  /** Python's repr of a string without quotes or backslashes. */
  function Repr(s: string): string {
    "'" + s + "'"
  }

  /** Python's str() of a list of such strings. */
  function ListRepr(names: seq<string>): string {
    "[" + Join(", ", seq(|names|, i requires 0 <= i < |names| => Repr(names[i]))) + "]"
  }

  /** The message fail_json reports. */
  function Text(f: Failure): string {
    match f
    case MissingMandatory(names) => "Missing mandatory parameter: [" + Join(", ", names) + "]"
    case GroupsExclusive => "Mutually exclusive parameters detected: [volumegroup] and [novolumegroup]"
    case InvalidForDeletion(names) =>
      "Following parameter(s) are invalid while deletion of volume: " + Join(", ", names)
    case NotForCreation(param) => "Following parameter not applicable for creation: " + param
    case OldNameOnCreation => "Parameter [old_name] is not supported during volume creation."
    case TypeWithoutSource => "Parameters [type] and [fromsourcevolume] parameters must be used together"
    case SizeOnClone => "Parameter [size] is invalid while creating clone or thinclone"
    case MissingForCreation(names) => "Missing required parameter(s) while creating: [" + Join(", ", names) + "]"
    case OldNameRequired => "Parameter is required while renaming: old_name"
    case NotForRename(names) => "Parameters " + ListRepr(names) + " not supported while renaming a volume."
    case DuplicateIogrp => "Duplicate iogrp detected."
    case InactiveIogrp(names) => "Empty or non-existing iogrp detected: " + ListRepr(names)
    case VolumesMissing =>
      "CMMVC9855E The command failed because one or more of the specified volumes does not exist."
    case MirroredVolume => "The module cannot be used for managing Mirrored volume."
    case UpdateUnsupported(names) => "Update not supported for parameter: " + ListRepr(names)
    case OldVolumeMissing(oldName) => "Volume [" + oldName + "] does not exists."
    case NewVolumeExists(name) => "Volume [" + name + "] already exists."
  }

  // ----------------------------------------------------- convert_to_bytes

  const Units: seq<Unit> := [B, KB, MB, GB, TB, PB]

  /** The position of a unit in [b, kb, mb, gb, tb, pb]. The choices are
      already lower case, so lower() leaves them as they are. */
  function UnitIndex(u: Unit): (k: nat)
    ensures k < |Units| && Units[k] == u
  {
    match u
    case B => 0
    case KB => 1
    case MB => 2
    case GB => 3
    case TB => 4
    case PB => 5
  }

  function Pow(b: int, e: nat): int {
    if e == 0 then 1 else b * Pow(b, e - 1)
  }

  lemma {:induction false} PowAdd(b: int, m: nat, n: nat)
    ensures Pow(b, m + n) == Pow(b, m) * Pow(b, n)
    decreases n
  {
    if n > 0 {
      PowAdd(b, m, n - 1);
      assert Pow(b, m + n) == b * Pow(b, m + n - 1);
    }
  }

  lemma {:induction false} PowPositive(b: int, e: nat)
    requires b > 0
    ensures Pow(b, e) > 0
  {
    if e > 0 {
      PowPositive(b, e - 1);
    }
  }

  /** convert_to_bytes: int(size) times 1024 to the power of the unit's
      position; None is the ValueError int() raises. */
  function ConvertToBytes(size: string, unit: Unit): (r: Option<int>)
    ensures r.Some? <==> ToInt(size).Some?
  {
    var n := ToInt(size);
    if n.Some? then Some(n.value * Pow(1024, UnitIndex(unit))) else None
  }

  /** The unit b leaves the number as it is. */
  lemma BytesAsGiven(size: string)
    ensures ConvertToBytes(size, B) == ToInt(size)
  {
  }

  /** Between two units the factor is 1024 to the distance between them;
      in particular each unit is 1024 of the one before it. */
  lemma UnitScale(size: string, u: Unit, v: Unit)
    requires UnitIndex(u) <= UnitIndex(v) && ToInt(size).Some?
    ensures ConvertToBytes(size, v).value ==
      ConvertToBytes(size, u).value * Pow(1024, UnitIndex(v) - UnitIndex(u))
  {
    var n := ToInt(size).value;
    var k, m := UnitIndex(u), UnitIndex(v);
    var below, between := Pow(1024, k), Pow(1024, m - k);
    PowAdd(1024, k, m - k);
    MulAssoc(n, below, between);
  }

  lemma MulAssoc(a: int, b: int, c: int)
    ensures a * (b * c) == (a * b) * c
  {
  }

  /** A positive size gives a positive byte count, in every unit. */
  lemma PositiveSize(size: string, u: Unit)
    requires ToInt(size).Some? && ToInt(size).value > 0
    ensures ConvertToBytes(size, u).value > 0
  {
    var n, factor := ToInt(size).value, Pow(1024, UnitIndex(u));
    PowPositive(1024, UnitIndex(u));
    MulPositive(n, factor);
  }

  lemma MulPositive(a: int, b: int)
    requires a > 0 && b > 0
    ensures a * b > 0
  {
  }

  // -------------------------------------------------------- assemble_iogrp

  /** self.iogrp: the parameter string until assemble_iogrp replaces it by
      the list of group names. */
  datatype IogrpValue = Unparsed(text: string) | Assembled(names: seq<string>)

  /** lsiogrp's answer: a group's name and node count. */
  datatype IoGroup = IoGroup(name: string, nodeCount: int)

  function Elements(s: seq<string>): set<string> {
    set x | x in s
  }

  predicate Distinct(s: seq<string>) {
    forall i, j :: 0 <= i < j < |s| ==> s[i] != s[j]
  }

  /** `len(l) != len(set(l))` detects exactly the lists with a repeated
      element. */
  lemma {:induction false} DistinctCard(s: seq<string>)
    ensures |Elements(s)| <= |s|
    ensures |Elements(s)| == |s| <==> Distinct(s)
    decreases |s|
  {
    if s != [] {
      var front := s[..|s| - 1];
      var x := s[|s| - 1];
      DistinctCard(front);
      assert s == front + [x];
      assert Elements(s) == Elements(front) + {x};
      if x in front {
        assert Elements(s) == Elements(front);
        var j :| 0 <= j < |front| && front[j] == x;
        assert s[j] == s[|s| - 1];
      } else {
        assert |Elements(s)| == |Elements(front)| + 1;
        if Distinct(front) {
          forall i, j | 0 <= i < j < |s| ensures s[i] != s[j] {
            if j == |s| - 1 {
              assert s[i] == front[i];
            } else {
              assert s[i] == front[i] && s[j] == front[j];
            }
          }
        } else {
          var i, j :| 0 <= i < j < |front| && front[i] == front[j];
          assert s[i] == s[j];
        }
      }
    }
  }

  /** `[item.strip() for item in parts if item]`. */
  function StripNonEmpty(parts: seq<string>): (r: seq<string>)
    ensures |r| <= |parts|
    ensures forall i :: 0 <= i < |r| ==> Strip(r[i]) == r[i]
  {
    if parts == [] then []
    else
      var rest := StripNonEmpty(parts[1..]);
      if parts[0] != "" then
        StripIdempotent(parts[0]);
        [Strip(parts[0])] + rest
      else rest
  }

  /** The group names the iogrp parameter asks for. */
  function RequestedIogrps(text: string): seq<string> {
    StripNonEmpty(Split(text, ','))
  }

  /** The names of the groups with at least one node. */
  function ActiveIogrps(groups: seq<IoGroup>): (r: seq<string>)
    ensures forall i :: 0 <= i < |groups| && groups[i].nodeCount > 0 ==> groups[i].name in r
    ensures forall n :: n in r ==> exists i :: 0 <= i < |groups| && groups[i].nodeCount > 0 && groups[i].name == n
  {
    if groups == [] then []
    else
      var rest := ActiveIogrps(groups[1..]);
      assert forall i :: 1 <= i < |groups| ==> groups[i] == groups[1..][i - 1];
      if groups[0].nodeCount > 0 then [groups[0].name] + rest else rest
  }

  /** The names kept in `temp`: those of active groups, in order. */
  function ActiveOnes(xs: seq<string>, active: seq<string>): (r: seq<string>)
    ensures forall i :: 0 <= i < |r| ==> r[i] in active
    decreases |xs|
  {
    if xs == [] then []
    else
      var x := xs[|xs| - 1];
      ActiveOnes(xs[..|xs| - 1], active) + (if x in active then [x] else [])
  }

  /** The names collected in `invalid`: those of no active group, in order. */
  function InactiveOnes(xs: seq<string>, active: seq<string>): (r: seq<string>)
    ensures forall i :: 0 <= i < |r| ==> r[i] !in active
    decreases |xs|
  {
    if xs == [] then []
    else
      var x := xs[|xs| - 1];
      InactiveOnes(xs[..|xs| - 1], active) + (if x in active then [] else [x])
  }

  /** `invalid` stays empty exactly when every name is active, and then
      `temp` is the whole list. */
  lemma {:induction false} AllActive(xs: seq<string>, active: seq<string>)
    ensures InactiveOnes(xs, active) == [] <==> forall i :: 0 <= i < |xs| ==> xs[i] in active
    ensures InactiveOnes(xs, active) == [] ==> ActiveOnes(xs, active) == xs
    decreases |xs|
  {
    if xs != [] {
      var front := xs[..|xs| - 1];
      AllActive(front, active);
      var x := xs[|xs| - 1];
      assert xs == front + [x];
      assert (forall i :: 0 <= i < |xs| ==> xs[i] in active) <==>
        (forall i :: 0 <= i < |front| ==> front[i] in active) && x in active;
    }
  }

  /** One step of the partition loop. */
  lemma PartitionStep(xs: seq<string>, i: nat, active: seq<string>)
    requires i < |xs|
    ensures ActiveOnes(xs[..i + 1], active) == ActiveOnes(xs[..i], active) + (if xs[i] in active then [xs[i]] else [])
    ensures InactiveOnes(xs[..i + 1], active) == InactiveOnes(xs[..i], active) + (if xs[i] in active then [] else [xs[i]])
  {
    assert xs[..i + 1][..i] == xs[..i];
  }

  /** The loop of assemble_iogrp over names already stripped: each name
      goes to `temp` when active and to `invalid` otherwise. */
  method PartitionIogrps(names: seq<string>, active: seq<string>) returns (temp: seq<string>, invalid: seq<string>)
    requires forall i :: 0 <= i < |names| ==> Strip(names[i]) == names[i]
    ensures temp == ActiveOnes(names, active) && invalid == InactiveOnes(names, active)
  {
    temp, invalid := [], [];
    for i := 0 to |names|
      invariant temp == ActiveOnes(names[..i], active)
      invariant invalid == InactiveOnes(names[..i], active)
    {
      var item := Strip(names[i]);
      PartitionStep(names, i, active);
      if item !in active {
        invalid := invalid + [item];
      } else {
        temp := temp + [item];
      }
    }
    assert names[..|names|] == names;
  }

  // ----------------------------------------------------------- validators

  /** The parameters the validators name. */
  datatype Param =
    | Pool | Size | Iogrp | Buffersize | Volumegroup | Novolumegroup | Thin | Compressed
    | Deduplicated | OldName | EnableCloudSnapshot | CloudAccountName | AllowHs | Type | FromSourceVolume

  function ParamName(q: Param): (s: string)
    ensures s != ""
  {
    match q
    case Pool => "pool"
    case Size => "size"
    case Iogrp => "iogrp"
    case Buffersize => "buffersize"
    case Volumegroup => "volumegroup"
    case Novolumegroup => "novolumegroup"
    case Thin => "thin"
    case Compressed => "compressed"
    case Deduplicated => "deduplicated"
    case OldName => "old_name"
    case EnableCloudSnapshot => "enable_cloud_snapshot"
    case CloudAccountName => "cloud_account_name"
    case AllowHs => "allow_hs"
    case Type => "type"
    case FromSourceVolume => "fromsourcevolume"
  }

  function ParamNames(qs: seq<Param>): (r: seq<string>)
    ensures |r| == |qs|
    ensures forall i :: 0 <= i < |qs| ==> r[i] == ParamName(qs[i])
  {
    seq(|qs|, i requires 0 <= i < |qs| => ParamName(qs[i]))
  }

  /** `getattr(self, param)` is truthy. */
  predicate IsSet(p: Params, q: Param) {
    match q
    case Pool => p.pool != ""
    case Size => p.size != ""
    case Iogrp => p.iogrp != ""
    case Buffersize => p.buffersize != ""
    case Volumegroup => p.volumegroup != ""
    case Novolumegroup => p.novolumegroup == Some(true)
    case Thin => p.thin == Some(true)
    case Compressed => p.compressed == Some(true)
    case Deduplicated => p.deduplicated == Some(true)
    case OldName => p.oldName != ""
    case EnableCloudSnapshot => p.enableCloudSnapshot == Some(true)
    case CloudAccountName => p.cloudAccountName != ""
    case AllowHs => p.allowHs
    case Type => p.cloneType.Some?
    case FromSourceVolume => p.fromSourceVolume != ""
  }

  /** The parameters of `qs` that are set, in the order of `qs`. */
  function SetParams(p: Params, qs: seq<Param>): (r: seq<Param>)
    ensures |r| <= |qs|
    ensures forall i :: 0 <= i < |r| ==> r[i] in qs && IsSet(p, r[i])
    decreases |qs|
  {
    if qs == [] then []
    else
      var q := qs[|qs| - 1];
      SetParams(p, qs[..|qs| - 1]) + (if IsSet(p, q) then [q] else [])
  }

  /** The filter keeps nothing exactly when nothing in `qs` is set. */
  lemma {:induction false} SetParamsEmpty(p: Params, qs: seq<Param>)
    ensures SetParams(p, qs) == [] <==> forall i :: 0 <= i < |qs| ==> !IsSet(p, qs[i])
    decreases |qs|
  {
    if qs != [] {
      var front := qs[..|qs| - 1];
      SetParamsEmpty(p, front);
      var q := qs[|qs| - 1];
      assert qs == front + [q];
      assert (forall i :: 0 <= i < |qs| ==> !IsSet(p, qs[i])) <==>
        (forall i :: 0 <= i < |front| ==> !IsSet(p, front[i])) && !IsSet(p, q);
    }
  }

  /** The filter of a prefix starts the filter of the whole. */
  lemma {:induction false} SetParamsPrefix(p: Params, qs: seq<Param>, k: nat)
    requires k <= |qs|
    ensures SetParams(p, qs[..k]) <= SetParams(p, qs)
    decreases |qs|
  {
    if k < |qs| {
      assert qs[..|qs| - 1][..k] == qs[..k];
      SetParamsPrefix(p, qs[..|qs| - 1], k);
    } else {
      assert qs[..k] == qs;
    }
  }

  /** Every set parameter is named, at the position given by the set
      parameters listed before it: the message keeps the list order. */
  lemma SetParamsComplete(p: Params, qs: seq<Param>, i: nat)
    requires i < |qs| && IsSet(p, qs[i])
    ensures |SetParams(p, qs[..i])| < |SetParams(p, qs)|
    ensures SetParams(p, qs)[|SetParams(p, qs[..i])|] == qs[i]
  {
    var upTo := qs[..i + 1];
    var before := SetParams(p, qs[..i]);
    assert SetParams(p, upTo) == before + [qs[i]] by {
      assert upTo[..|upTo| - 1] == qs[..i] && upTo[|upTo| - 1] == qs[i];
    }
    SetParamsPrefix(p, qs, i + 1);
  }

  /** mandatory_parameter_validation. `state` is a required choice, so only
      `name` can be missing. */
  function MandatoryFailure(p: Params): (r: Option<Failure>)
    ensures r.None? <==> p.name != "" && !(p.volumegroup != "" && p.novolumegroup == Some(true))
    ensures p.name == "" ==> r == Some(MissingMandatory(["name"]))
  {
    var missing := if p.name == "" then ["name"] else [];
    if missing != [] then Some(MissingMandatory(missing))
    else if p.volumegroup != "" && p.novolumegroup == Some(true) then Some(GroupsExclusive)
    else None
  }

  const DeletionParams: seq<Param> :=
    [Pool, Size, Iogrp, Buffersize, Volumegroup, Novolumegroup, Thin, Compressed,
     Deduplicated, OldName, EnableCloudSnapshot, CloudAccountName, AllowHs, Type, FromSourceVolume]

  /** A join of non-empty names is empty only when there are none. */
  lemma JoinEmpty(sep: string, names: seq<string>)
    requires forall i :: 0 <= i < |names| ==> names[i] != ""
    ensures Join(sep, names) == "" <==> names == []
  {
    if |names| >= 2 {
      assert Join(sep, names) == names[0] + sep + Join(sep, names[1..]);
    }
  }

  /** volume_deletion_parameter_validation: a removal fails exactly when one
      of the fifteen listed parameters is set, and names those that are, in
      list order. */
  function DeletionFailure(p: Params): (r: Option<Failure>)
    ensures r.Some? <==> exists i :: 0 <= i < |DeletionParams| && IsSet(p, DeletionParams[i])
    ensures r.Some? ==> r.value == InvalidForDeletion(ParamNames(SetParams(p, DeletionParams)))
  {
    var names := ParamNames(SetParams(p, DeletionParams));
    SetParamsEmpty(p, DeletionParams);
    JoinEmpty(", ", names);
    if Join(", ", names) != "" then Some(InvalidForDeletion(names)) else None
  }

  /** The parameters set for a creation that must be given and are not. */
  function MissingForCreate(p: Params): seq<string> {
    if p.cloneType.Some? && p.fromSourceVolume != "" then (if p.pool == "" then ["pool"] else [])
    else (if p.pool == "" then ["pool"] else []) + (if p.size == "" then ["size"] else [])
  }

  /** volume_creation_parameter_validation: cloud snapshot settings and
      old_name are refused; type and fromsourcevolume come together; a clone
      needs a pool and no size, a plain volume a pool and a size. */
  function CreationFailure(p: Params): (r: Option<Failure>)
    ensures r.None? <==>
      && p.enableCloudSnapshot.None? && p.cloudAccountName == "" && p.oldName == ""
      && (p.cloneType.Some? <==> p.fromSourceVolume != "")
      && p.pool != ""
      && (p.cloneType.Some? ==> p.size == "")
      && (p.cloneType.None? ==> p.size != "")
    ensures p.enableCloudSnapshot.Some? ==> r == Some(NotForCreation("enable_cloud_snapshot"))
    ensures r.Some? && r.value.MissingForCreation? ==> r.value.names == MissingForCreate(p) && r.value.names != []
  {
    if p.enableCloudSnapshot.Some? then Some(NotForCreation("enable_cloud_snapshot"))
    else if p.cloudAccountName != "" then Some(NotForCreation("cloud_account_name"))
    else if p.oldName != "" then Some(OldNameOnCreation)
    else if (p.cloneType.Some? && p.fromSourceVolume == "") || (p.fromSourceVolume != "" && p.cloneType.None?) then
      Some(TypeWithoutSource)
    else if p.cloneType.Some? && p.fromSourceVolume != "" && p.size != "" then Some(SizeOnClone)
    else if MissingForCreate(p) != [] then Some(MissingForCreation(MissingForCreate(p)))
    else None
  }

  const RenameParams: seq<Param> :=
    [Pool, Size, Iogrp, Buffersize, Volumegroup, Novolumegroup, Thin, Compressed, Deduplicated, Type, FromSourceVolume]

  /** parameter_handling_while_renaming: old_name is required and none of
      eleven other parameters may be set; those set are named in order. */
  function RenameFailure(p: Params): (r: Option<Failure>)
    ensures p.oldName == "" ==> r == Some(OldNameRequired)
    ensures p.oldName != "" ==> (r.None? <==> forall i :: 0 <= i < |RenameParams| ==> !IsSet(p, RenameParams[i]))
    ensures p.oldName != "" && r.Some? ==> r.value == NotForRename(ParamNames(SetParams(p, RenameParams)))
  {
    SetParamsEmpty(p, RenameParams);
    var exists_ := SetParams(p, RenameParams);
    if p.oldName == "" then Some(OldNameRequired)
    else if exists_ != [] then Some(NotForRename(ParamNames(exists_)))
    else None
  }

  /** validate_volume_type: a volume with several copies, or in an
      active-active relationship without allow_hs, is refused. `relCopyType`
      is lsrcrelationship's copy_type, read only when there is a
      relationship. */
  function VolumeTypeFailure(volumeCopies: string, rcName: string, relCopyType: string, allowHs: bool): (r: Option<Failure>)
    ensures r.Some? <==> volumeCopies == "many" || (rcName != "" && relCopyType == "activeactive" && !allowHs)
    ensures r.Some? ==> r.value == MirroredVolume
  {
    var unsupported := volumeCopies == "many";
    var unsupported' := if !unsupported && rcName != "" then relCopyType == "activeactive" && !allowHs else unsupported;
    if unsupported' then Some(MirroredVolume) else None
  }

  // ------------------------------------------------ get_all_target_volumes

  /** One row of lsvdisk: the volume's name and volume_type. */
  datatype VDiskRow = VDiskRow(name: string, volumeType: string)

  /** The requested names that the listing does not have. */
  function MissingVolumes(requested: seq<string>, listed: seq<string>): (r: seq<string>)
    ensures forall x :: x in r <==> x in requested && x !in listed
  {
    if requested == [] then []
    else (if requested[0] in listed then [] else [requested[0]]) + MissingVolumes(requested[1..], listed)
  }

  /** The names of the rows, in listing order. */
  function RowNames(rows: seq<VDiskRow>): (r: seq<string>)
    ensures |r| == |rows|
    ensures forall i :: 0 <= i < |rows| ==> r[i] == rows[i].name
    decreases |rows|
  {
    if rows == [] then [] else RowNames(rows[..|rows| - 1]) + [rows[|rows| - 1].name]
  }

  predicate IsTarget(row: VDiskRow, requested: seq<string>) {
    row.name in requested && row.volumeType == "thinclone"
  }

  /** The requested thinclone volumes, in listing order. */
  function Thinclones(rows: seq<VDiskRow>, requested: seq<string>): (r: seq<string>)
    ensures forall i :: 0 <= i < |r| ==> r[i] in requested
    decreases |rows|
  {
    if rows == [] then []
    else
      var row := rows[|rows| - 1];
      Thinclones(rows[..|rows| - 1], requested) + (if IsTarget(row, requested) then [row.name] else [])
  }

  /** A name is a target exactly when it was requested and a row of that
      name is a thinclone. */
  lemma {:induction false} ThinclonesExactly(rows: seq<VDiskRow>, requested: seq<string>, x: string)
    ensures x in Thinclones(rows, requested) <==>
      exists i :: 0 <= i < |rows| && rows[i].name == x && IsTarget(rows[i], requested)
    decreases |rows|
  {
    if rows != [] {
      var front := rows[..|rows| - 1];
      ThinclonesExactly(front, requested, x);
      if exists i :: 0 <= i < |rows| && rows[i].name == x && IsTarget(rows[i], requested) {
        var i :| 0 <= i < |rows| && rows[i].name == x && IsTarget(rows[i], requested);
        if i < |front| {
          assert front[i] == rows[i];
        }
      }
      if exists i :: 0 <= i < |front| && front[i].name == x && IsTarget(front[i], requested) {
        var i :| 0 <= i < |front| && front[i].name == x && IsTarget(front[i], requested);
        assert rows[i] == front[i];
      }
    }
  }

  /** The first loop of get_all_target_volumes: the names of the listing. */
  method ListedNames(listing: seq<VDiskRow>) returns (allVols: seq<string>)
    ensures allVols == RowNames(listing)
  {
    allVols := [];
    for i := 0 to |listing|
      invariant allVols == RowNames(listing[..i])
    {
      assert listing[..i + 1][..i] == listing[..i];
      allVols := allVols + [listing[i].name];
    }
    assert listing[..|listing|] == listing;
  }

  /** The second loop of get_all_target_volumes: the requested thinclones,
      in listing order. */
  method SelectThinclones(listing: seq<VDiskRow>, requested: seq<string>) returns (targets: seq<string>)
    ensures targets == Thinclones(listing, requested)
  {
    targets := [];
    for i := 0 to |listing|
      invariant targets == Thinclones(listing[..i], requested)
    {
      assert listing[..i + 1][..i] == listing[..i];
      if listing[i].name in requested && listing[i].volumeType == "thinclone" {
        targets := targets + [listing[i].name];
      }
    }
    assert listing[..|listing|] == listing;
  }

  // ----------------------------------------------------------- probe_volume

  /** The rows lsvdisk gives for one volume: the volume (data[0]) and its
      first copy (data[1]). `cloudBackupEnabled` is strtobool of the
      volume's cloud_backup_enabled. */
  datatype VolumeData = VolumeData(
    capacity: string, volumeGroupName: string, mdiskGrpName: string,
    cloudBackupEnabled: bool, cloudAccountName: Option<string>, sourceVolumeName: Option<string>,
    volumeType: Option<string>, realCapacity: string, compressedCopy: string, deduplicatedCopy: string)

  /** props['iogrp']: the groups to add and to remove; a key the dict does
      not hold is an empty list. */
  datatype IogrpChange = IogrpChange(add: seq<string>, remove: seq<string>)

  datatype SizeChange = Expand(bytes: int) | Shrink(bytes: int)

  /** The dict probe_volume returns, one field per key. */
  datatype Props = Props(
    iogrp: Option<IogrpChange>, size: Option<SizeChange>, volumegroup: Option<string>,
    novolumegroup: bool, thin: bool, compressed: bool, deduplicated: bool, pool: bool,
    cloudBackup: bool, fromSourceVolume: bool, cloneType: bool)

  const NoProps := Props(None, None, None, false, false, false, false, false, false, false, false)

  /** `list(set(xs) - set(ys))`, in the order of first occurrence in `xs`
      (Python leaves the order of a set unspecified). */
  function Minus(xs: seq<string>, ys: seq<string>): (r: seq<string>)
    ensures forall x :: x in r <==> x in xs && x !in ys
    ensures Distinct(r)
    decreases |xs|
  {
    if xs == [] then []
    else
      var front := Minus(xs[..|xs| - 1], ys);
      var x := xs[|xs| - 1];
      assert xs == xs[..|xs| - 1] + [x];
      if x !in ys && x !in front then front + [x] else front
  }

  lemma MinusElements(xs: seq<string>, ys: seq<string>)
    ensures Elements(Minus(xs, ys)) == Elements(xs) - Elements(ys)
  {
  }

  /** `input ^ existing` is non-empty exactly when the two sets differ. */
  lemma SymmetricDifference(input: seq<string>, existing: seq<string>)
    ensures Elements(Minus(input, existing)) == Elements(input) - Elements(existing)
    ensures Elements(Minus(existing, input)) == Elements(existing) - Elements(input)
    ensures Minus(input, existing) != [] || Minus(existing, input) != [] <==> Elements(input) != Elements(existing)
  {
    var add, remove := Minus(input, existing), Minus(existing, input);
    MinusElements(input, existing);
    MinusElements(existing, input);
    if add != [] {
      assert add[0] in Elements(input) - Elements(existing);
    } else if remove != [] {
      assert remove[0] in Elements(existing) - Elements(input);
    } else {
      assert Elements(input) - Elements(existing) == {};
      assert Elements(existing) - Elements(input) == {};
    }
  }

  /** The iogrp entry as written: with groups to add and to remove, the
      'remove' entry replaces the 'add' entry. */
  function IogrpDiff(input: seq<string>, existing: seq<string>): (r: Option<IogrpChange>)
    ensures r.None? <==> Elements(input) == Elements(existing)
    ensures r.Some? && r.value.remove != [] ==>
      r.value.add == [] && Elements(r.value.remove) == Elements(existing) - Elements(input)
    ensures r.Some? && r.value.remove == [] ==>
      r.value.add != [] && Elements(r.value.add) == Elements(input) - Elements(existing)
  {
    var add := Minus(input, existing);
    var remove := Minus(existing, input);
    SymmetricDifference(input, existing);
    if add != [] || remove != [] then
      var withAdd := if add != [] then Some(IogrpChange(add, [])) else None;
      if remove != [] then Some(IogrpChange([], remove)) else withAdd
    else None
  }

  /** The groups a volume has access to once add_iogrp and remove_iogrp
      have run for the change. */
  function AfterIogrpChange(existing: seq<string>, c: Option<IogrpChange>): set<string> {
    if c.None? then Elements(existing)
    else (Elements(existing) + Elements(c.value.add)) - Elements(c.value.remove)
  }

  /** As written, a volume that must gain one group and lose another only
      loses one: add_iogrp never runs for it. */
  lemma IogrpAddLost()
    ensures var input := ["io0", "io2"];
      var existing := ["io0", "io1"];
      && IogrpDiff(input, existing) == Some(IogrpChange([], ["io1"]))
      && AfterIogrpChange(existing, IogrpDiff(input, existing)) != Elements(input)
  {
    var input := ["io0", "io2"];
    var existing := ["io0", "io1"];
    assert "io2" in Elements(input) - Elements(existing);
    assert "io1" in Elements(existing) - Elements(input);
    var r := IogrpDiff(input, existing);
    assert r.Some? && r.value.remove != [];
    assert Minus(existing, input) == ["io1"] by {
      assert Minus(existing[..1], input) == [];
    }
    assert "io2" !in AfterIogrpChange(existing, r);
  }

  /** The entry evidently intended, since update_volume reads both keys of
      it: the groups to add and the groups to remove together. */
  function IogrpDiffBoth(input: seq<string>, existing: seq<string>): (r: Option<IogrpChange>)
    ensures r.None? <==> Elements(input) == Elements(existing)
    ensures r.Some? ==>
      && Elements(r.value.add) == Elements(input) - Elements(existing)
      && Elements(r.value.remove) == Elements(existing) - Elements(input)
  {
    var add := Minus(input, existing);
    var remove := Minus(existing, input);
    SymmetricDifference(input, existing);
    if add != [] || remove != [] then Some(IogrpChange(add, remove))
    else None
  }

  /** With both lists, the two commands leave the volume with exactly the
      requested groups. */
  lemma IogrpDiffBothReaches(input: seq<string>, existing: seq<string>)
    ensures AfterIogrpChange(existing, IogrpDiffBoth(input, existing)) == Elements(input)
  {
  }

  /** props['size']: the difference between the requested and the current
      capacity, as an expansion or a shrink by a positive amount. */
  function SizeDiff(input: int, existing: int): (r: Option<SizeChange>)
    ensures r.None? <==> input == existing
    ensures r.Some? ==> r.value.bytes > 0
    ensures r.Some? ==> (r.value.Expand? <==> input > existing)
  {
    if input != existing then
      if input > existing then Some(Expand(input - existing))
      else if existing > input then Some(Shrink(existing - input))
      else None
    else None
  }

  /** The capacity once the size command for the change has run. */
  function Resized(existing: int, c: Option<SizeChange>): int {
    match c
    case None => existing
    case Some(Expand(n)) => existing + n
    case Some(Shrink(n)) => existing - n
  }

  /** Expanding or shrinking by the amount found reaches the requested size. */
  lemma SizeDiffReaches(input: int, existing: int)
    ensures Resized(existing, SizeDiff(input, existing)) == input
  {
  }

  /** The groups probe_volume compares: the assembled list, or none when the
      parameter was not given. */
  function InputIogrp(v: IogrpValue): seq<string> {
    if v.Assembled? then v.names else []
  }

  /** The size entry of probe_volume: the difference between the requested
      bytes and the capacity when a size is given and both are numbers. */
  function SizeField(size: string, bytes: Option<int>, capacity: Option<int>): Option<SizeChange> {
    if size != "" && bytes.Some? && capacity.Some? then SizeDiff(bytes.value, capacity.value) else None
  }

  /** probe_volume as a function of its inputs, with both iogrp lists kept
      (IogrpDiff is the entry as written); None is a ValueError from int()
      on the size or on the volume's capacity. */
  function Probed(p: Params, iogrp: IogrpValue, data: VolumeData, existingIogrp: seq<string>): Option<Props> {
    var input := InputIogrp(iogrp);
    var bytes := ConvertToBytes(p.size, p.unit);
    var capacity := ToInt(data.capacity);
    if p.size != "" && (bytes.None? || capacity.None?) then None
    else
      Some(Props(
        if input != [] then IogrpDiffBoth(input, existingIogrp) else None,
        SizeField(p.size, bytes, capacity),
        if p.volumegroup != "" && p.volumegroup != data.volumeGroupName then Some(p.volumegroup) else None,
        p.novolumegroup == Some(true) && data.volumeGroupName != "",
        ThinChanged(p.thin, data),
        p.compressed == Some(true) && data.compressedCopy == "no",
        p.deduplicated == Some(true) && data.deduplicatedCopy == "no",
        p.pool != "" && p.pool != data.mdiskGrpName,
        CloudBackupChanged(p, data),
        p.fromSourceVolume != "" && Some(p.fromSourceVolume) != data.sourceVolumeName,
        CloneTypeChanged(p.cloneType, data)))
  }

  /** The thin test: asking for a thin volume flags a fully allocated or
      compressed copy; asking for a non-thin one flags any other. */
  predicate ThinChanged(thin: Option<bool>, data: VolumeData) {
    match thin
    case None => false
    case Some(true) => data.capacity == data.realCapacity || data.compressedCopy == "yes"
    case Some(false) => data.capacity != data.realCapacity || data.compressedCopy == "no"
  }

  /** The clone type test: a type is asked for and the volume is not of it. */
  predicate CloneTypeChanged(cloneType: Option<CloneType>, data: VolumeData) {
    match cloneType
    case None => false
    case Some(t) => Some(CloneTypeName(t)) != data.volumeType
  }

  /** The cloud backup tests: the enable flag disagrees with the volume, or
      a different cloud account is named. */
  predicate CloudBackupChanged(p: Params, data: VolumeData) {
    (p.enableCloudSnapshot == Some(true) && !data.cloudBackupEnabled)
    || (p.enableCloudSnapshot == Some(false) && data.cloudBackupEnabled)
    || (p.cloudAccountName != "" && Some(p.cloudAccountName) != data.cloudAccountName)
  }

  /** The size entry is there exactly when the sizes differ, and resizing by
      it gives the requested byte count. */
  lemma ProbeSize(p: Params, iogrp: IogrpValue, data: VolumeData, existingIogrp: seq<string>)
    requires Probed(p, iogrp, data, existingIogrp).Some? && p.size != ""
    ensures var bytes := ConvertToBytes(p.size, p.unit).value;
      var capacity := ToInt(data.capacity).value;
      var c := Probed(p, iogrp, data, existingIogrp).value.size;
      && (c.None? <==> bytes == capacity)
      && Resized(capacity, c) == bytes
  {
    SizeDiffReaches(ConvertToBytes(p.size, p.unit).value, ToInt(data.capacity).value);
  }
  /** With groups requested, the iogrp entry is there exactly when the
      volume's groups differ, and the commands for it leave the volume
      with the requested groups. */
  lemma ProbeIogrp(p: Params, iogrp: IogrpValue, data: VolumeData, existingIogrp: seq<string>)
    requires Probed(p, iogrp, data, existingIogrp).Some? && InputIogrp(iogrp) != []
    ensures var c := Probed(p, iogrp, data, existingIogrp).value.iogrp;
      && (c.None? <==> Elements(InputIogrp(iogrp)) == Elements(existingIogrp))
      && AfterIogrpChange(existingIogrp, c) == Elements(InputIogrp(iogrp))
  {
    IogrpDiffBothReaches(InputIogrp(iogrp), existingIogrp);
  }


  /** probe_volume: the entries for what differs between the volume and
      the parameters, one key of the dict at a time. `crashed` is a
      ValueError from int(). `iogrp` is the module's iogrp attribute once
      assemble_iogrp has run. */
  method ProbeVolume(p: Params, iogrp: IogrpValue, data: VolumeData, existingIogrp: seq<string>) returns (props: Props, crashed: bool)
    requires iogrp.Assembled? || iogrp == Unparsed("")
    ensures crashed <==> Probed(p, iogrp, data, existingIogrp).None?
    ensures !crashed ==> props == Probed(p, iogrp, data, existingIogrp).value
  {
    props, crashed := NoProps, false;
    var iogrpEntry: Option<IogrpChange> := None;
    if iogrp.Assembled? && iogrp.names != [] {
      iogrpEntry := IogrpDiffBoth(iogrp.names, existingIogrp);
    }
    var sizeEntry: Option<SizeChange> := None;
    if p.size != "" {
      var inputSize := ConvertToBytes(p.size, p.unit);
      var existingSize := ToInt(data.capacity);
      if inputSize.None? || existingSize.None? {
        crashed := true;
        return;
      }
      sizeEntry := SizeDiff(inputSize.value, existingSize.value);
    }
    var volumegroup := if p.volumegroup != "" && p.volumegroup != data.volumeGroupName then Some(p.volumegroup) else None;
    var novolumegroup := p.novolumegroup == Some(true) && data.volumeGroupName != "";
    var thin := ThinChanged(p.thin, data);
    var compressed := p.compressed == Some(true) && data.compressedCopy == "no";
    var deduplicated := p.deduplicated == Some(true) && data.deduplicatedCopy == "no";
    var pool := p.pool != "" && p.pool != data.mdiskGrpName;
    var cloudBackup := CloudBackupChanged(p, data);
    var fromSourceVolume := p.fromSourceVolume != "" && Some(p.fromSourceVolume) != data.sourceVolumeName;
    var cloneType := CloneTypeChanged(p.cloneType, data);
    props := Props(iogrpEntry, sizeEntry, volumegroup, novolumegroup, thin, compressed,
                   deduplicated, pool, cloudBackup, fromSourceVolume, cloneType);
  }

  // ------------------------------------------------------- update_volume

  /** The commands the module sends, with their options. Sizes are in
      bytes (unit 'b'). */
  datatype Command =
    | AddVdiskAccess(iogrp: string, volume: string)
    | RmVdiskAccess(iogrp: string, volume: string)
    | ExpandVdiskSize(bytes: int, volume: string)
    | ShrinkVdiskSize(bytes: int, volume: string)
    | ChangeCloudBackup(enable: Option<bool>, account: string, volume: string)
    | ChangeVolumeGroup(volumegroup: Option<string>, novolumegroup: bool, volume: string)
    | RenameVolume(newName: string, oldName: string)

  const UnsupportedForUpdate: seq<Param> := [Pool, Thin, Compressed, Deduplicated, FromSourceVolume]

  /** `param in change` for the keys update_volume refuses. */
  predicate InProps(change: Props, q: Param) {
    match q
    case Pool => change.pool
    case Thin => change.thin
    case Compressed => change.compressed
    case Deduplicated => change.deduplicated
    case FromSourceVolume => change.fromSourceVolume
    case _ => false
  }

  /** The parameters of `qs` that have an entry, in the order of `qs`. */
  function InPropsOf(change: Props, qs: seq<Param>): (r: seq<Param>)
    ensures forall i :: 0 <= i < |r| ==> r[i] in qs && InProps(change, r[i])
    decreases |qs|
  {
    if qs == [] then []
    else
      var q := qs[|qs| - 1];
      InPropsOf(change, qs[..|qs| - 1]) + (if InProps(change, q) then [q] else [])
  }

  lemma {:induction false} InPropsOfEmpty(change: Props, qs: seq<Param>)
    ensures InPropsOf(change, qs) == [] <==> forall i :: 0 <= i < |qs| ==> !InProps(change, qs[i])
    decreases |qs|
  {
    if qs != [] {
      var front := qs[..|qs| - 1];
      InPropsOfEmpty(change, front);
      var q := qs[|qs| - 1];
      assert qs == front + [q];
      assert (forall i :: 0 <= i < |qs| ==> !InProps(change, qs[i])) <==>
        (forall i :: 0 <= i < |front| ==> !InProps(change, front[i])) && !InProps(change, q);
    }
  }

  /** The loop of update_volume over the refused keys: those with an
      entry, in order. */
  method PresentKeys(change: Props, qs: seq<Param>) returns (present: seq<Param>)
    ensures present == InPropsOf(change, qs)
  {
    present := [];
    for i := 0 to |qs|
      invariant present == InPropsOf(change, qs[..i])
    {
      assert qs[..i + 1][..i] == qs[..i];
      if InProps(change, qs[i]) {
        present := present + [qs[i]];
      }
    }
    assert qs[..|qs|] == qs;
  }

  /** update_volume refuses a change of pool, thin, compressed, deduplicated
      or fromsourcevolume, naming those present in that order. */
  function UpdateFailure(change: Props): (r: Option<Failure>)
    ensures r.None? <==>
      !change.pool && !change.thin && !change.compressed && !change.deduplicated && !change.fromSourceVolume
  {
    var unsupported := InPropsOf(change, UnsupportedForUpdate);
    InPropsOfEmpty(change, UnsupportedForUpdate);
    assert UnsupportedForUpdate[0] == Pool && UnsupportedForUpdate[1] == Thin && UnsupportedForUpdate[2] == Compressed;
    assert UnsupportedForUpdate[3] == Deduplicated && UnsupportedForUpdate[4] == FromSourceVolume;
    if unsupported != [] then Some(UpdateUnsupported(ParamNames(unsupported))) else None
  }

  function IogrpCommands(name: string, c: Option<IogrpChange>): seq<Command> {
    if c.None? then []
    else
      (if c.value.add != [] then [AddVdiskAccess(Join(":", c.value.add), name)] else [])
      + (if c.value.remove != [] then [RmVdiskAccess(Join(":", c.value.remove), name)] else [])
  }

  function SizeCommands(name: string, c: Option<SizeChange>): seq<Command> {
    match c
    case None => []
    case Some(Expand(n)) => [ExpandVdiskSize(n, name)]
    case Some(Shrink(n)) => [ShrinkVdiskSize(n, name)]
  }

  /** The commands update_volume sends for an accepted change outside check
      mode: groups, size, cloud backup, then one chvdisk for the volume
      group settings. */
  function BackupCommands(p: Params, change: Props): seq<Command> {
    if change.cloudBackup then [ChangeCloudBackup(p.enableCloudSnapshot, p.cloudAccountName, p.name)] else []
  }

  function GroupCommands(p: Params, change: Props): seq<Command> {
    if change.volumegroup.Some? || change.novolumegroup
    then [ChangeVolumeGroup(change.volumegroup, change.novolumegroup, p.name)] else []
  }

  function UpdateCommands(p: Params, change: Props): seq<Command> {
    IogrpCommands(p.name, change.iogrp) + SizeCommands(p.name, change.size)
    + BackupCommands(p, change) + GroupCommands(p, change)
  }


  /** Every command acts on the named volume, and there is one exactly for
      each entry update_volume handles: an entry for type alone sends
      nothing. */
  lemma UpdateCommandsFor(p: Params, change: Props)
    ensures var cmds := UpdateCommands(p, change);
      && (forall i :: 0 <= i < |cmds| ==> !cmds[i].RenameVolume? && cmds[i].volume == p.name)
      && (cmds == [] <==>
            (change.iogrp.None? || change.iogrp.value == IogrpChange([], []))
            && change.size.None? && !change.cloudBackup && change.volumegroup.None? && !change.novolumegroup)
      && (change.size.Some? && change.size.value.Expand? ==> ExpandVdiskSize(change.size.value.bytes, p.name) in cmds)
      && (change.size.Some? && change.size.value.Shrink? ==> ShrinkVdiskSize(change.size.value.bytes, p.name) in cmds)
  {
    var cmds := UpdateCommands(p, change);
    var a := IogrpCommands(p.name, change.iogrp);
    var b := SizeCommands(p.name, change.size);
    if change.size.Some? {
      assert cmds[|a|] == b[0];
    }
  }

  // ------------------------------------------------------------ rename

  function AlreadyRenamed(name: string): string {
    "Volume with name [" + name + "] already exists."
  }

  function RenamedMessage(oldName: string, name: string): string {
    "Volume [" + oldName + "] has been successfully rename to [" + name + "]"
  }

  /** What volume_rename does, given whether volumes with the new and the
      old name exist. */
  datatype RenameRun = RenameRun(commands: seq<Command>, setsChanged: bool, msg: Option<string>, failure: Option<Failure>)

  function Rename(p: Params, volumeExists: bool, oldVolumeExists: bool, checkMode: bool): (r: RenameRun)
    ensures r.failure.Some? ==> r.commands == [] && !r.setsChanged
    ensures RenameFailure(p).None? ==>
      (r.failure.None? <==> volumeExists != oldVolumeExists)
    ensures r.commands != [] <==> RenameFailure(p).None? && oldVolumeExists && !volumeExists && !checkMode
    ensures r.commands != [] ==> r.commands == [RenameVolume(p.name, p.oldName)] && r.setsChanged
  {
    if RenameFailure(p).Some? then RenameRun([], false, None, RenameFailure(p))
    else if !oldVolumeExists && !volumeExists then RenameRun([], false, None, Some(OldVolumeMissing(p.oldName)))
    else if oldVolumeExists && volumeExists then RenameRun([], false, None, Some(NewVolumeExists(p.name)))
    else if volumeExists then RenameRun([], false, Some(AlreadyRenamed(p.name)), None)
    else if checkMode then RenameRun([], true, None, None)
    else RenameRun([RenameVolume(p.name, p.oldName)], true, Some(RenamedMessage(p.oldName, p.name)), None)
  }

  /** Renaming converges: once the rename command has run, the old name is
      gone and the new one exists, and a second run sends nothing and
      leaves changed alone. */
  lemma RenameConverges(p: Params, checkMode: bool)
    requires Rename(p, false, true, false).commands != []
    ensures Rename(p, true, false, checkMode) == RenameRun([], false, Some(AlreadyRenamed(p.name)), None)
  {
  }

  // ------------------------------------------------------ the module object

  /** The attributes the module's methods update: changed, iogrp,
      target_vols_list_str, and the commands sent so far. */
  class VolumeModule {
    const p: Params
    var changed: bool
    var iogrp: IogrpValue
    var targetVolsListStr: string
    var commands: seq<Command>

    constructor(p: Params)
      ensures this.p == p && !changed && iogrp == Unparsed(p.iogrp)
      ensures targetVolsListStr == "" && commands == []
    {
      this.p := p;
      changed := false;
      iogrp := Unparsed(p.iogrp);
      targetVolsListStr := "";
      commands := [];
    }

    /** assemble_iogrp against lsiogrp's answer: the requested names must be
        distinct and all name active groups; self.iogrp then becomes that
        list, in the order given. */
    method AssembleIogrp(groups: seq<IoGroup>) returns (failure: Option<Failure>)
      requires iogrp.Unparsed?
      modifies this
      ensures var text := old(iogrp).text;
        var requested := RequestedIogrps(text);
        var active := ActiveIogrps(groups);
        && (text == "" ==> failure.None?)
        && (text != "" && !Distinct(requested) ==> failure == Some(DuplicateIogrp))
        && (text != "" && Distinct(requested) ==>
              (failure.None? <==> forall i :: 0 <= i < |requested| ==> requested[i] in active)
              && (failure.Some? ==> failure == Some(InactiveIogrp(InactiveOnes(requested, active)))))
        && iogrp == (if text != "" && failure.None? then Assembled(requested) else old(iogrp))
      ensures changed == old(changed) && commands == old(commands) && targetVolsListStr == old(targetVolsListStr)
    {
      failure := None;
      var text := iogrp.text;
      if text != "" {
        var existing := RequestedIogrps(text);
        DistinctCard(existing);
        if |existing| != |Elements(existing)| {
          failure := Some(DuplicateIogrp);
          return;
        }
        var active := ActiveIogrps(groups);
        var temp, invalid := PartitionIogrps(existing, active);
        AllActive(existing, active);
        if invalid != [] {
          failure := Some(InactiveIogrp(invalid));
          return;
        }
        iogrp := Assembled(temp);
      }
    }

    /** get_all_target_volumes against lsvdisk's listing: every requested
        name (name split at ':') must be listed; target_vols_list_str is
        then the ':'-joined requested thinclones, in listing order. Check
        mode only sets changed. */
    method GetAllTargetVolumes(listing: seq<VDiskRow>, checkMode: bool) returns (failure: Option<Failure>)
      modifies this
      ensures checkMode ==> failure.None? && changed && targetVolsListStr == ""
      ensures !checkMode ==> changed == old(changed)
      ensures var requested := Split(p.name, ':');
        && (!checkMode ==> (failure.Some? <==> MissingVolumes(requested, RowNames(listing)) != []))
        && (failure.Some? ==> failure == Some(VolumesMissing) && targetVolsListStr == "")
        && (!checkMode && failure.None? ==> targetVolsListStr == Join(":", Thinclones(listing, requested)))
      ensures iogrp == old(iogrp) && commands == old(commands)
    {
      failure := None;
      targetVolsListStr := "";
      if checkMode {
        changed := true;
        return;
      }
      var allVols := ListedNames(listing);
      var requested := Split(p.name, ':');
      var invalid := MissingVolumes(requested, allVols);
      if invalid != [] {
        failure := Some(VolumesMissing);
        return;
      }
      var targets := SelectThinclones(listing, requested);
      targetVolsListStr := Join(":", targets);
    }

    /** svc_run_command followed by `self.changed = True`, as every
        command-sending helper does it. */
    method Send(cmd: Command)
      modifies this
      ensures commands == old(commands) + [cmd] && changed
      ensures iogrp == old(iogrp) && targetVolsListStr == old(targetVolsListStr)
    {
      commands := commands + [cmd];
      changed := true;
    }

    /** The iogrp block of update_volume: add_iogrp, then remove_iogrp. */
    method UpdateIogrp(c: Option<IogrpChange>)
      modifies this
      ensures commands == old(commands) + IogrpCommands(p.name, c)
      ensures changed == (old(changed) || IogrpCommands(p.name, c) != [])
      ensures iogrp == old(iogrp) && targetVolsListStr == old(targetVolsListStr)
    {
      if c.Some? {
        if c.value.add != [] {
          Send(AddVdiskAccess(Join(":", c.value.add), p.name));
        }
        if c.value.remove != [] {
          Send(RmVdiskAccess(Join(":", c.value.remove), p.name));
        }
      }
    }

    /** The size block of update_volume: expand_volume or shrink_volume. */
    method UpdateSize(c: Option<SizeChange>)
      modifies this
      ensures commands == old(commands) + SizeCommands(p.name, c)
      ensures changed == (old(changed) || SizeCommands(p.name, c) != [])
      ensures iogrp == old(iogrp) && targetVolsListStr == old(targetVolsListStr)
    {
      if c.Some? {
        if c.value.Expand? {
          Send(ExpandVdiskSize(c.value.bytes, p.name));
        } else {
          Send(ShrinkVdiskSize(c.value.bytes, p.name));
        }
      }
    }

    /** update_volume: refuse the unsupported entries, then in check mode
        only set changed; otherwise send one command per handled entry,
        each setting changed. */
    method UpdateVolume(change: Props, checkMode: bool) returns (failure: Option<Failure>)
      modifies this
      ensures failure == UpdateFailure(change)
      ensures failure.Some? ==> changed == old(changed) && commands == old(commands)
      ensures failure.None? && checkMode ==> changed && commands == old(commands)
      ensures failure.None? && !checkMode ==>
        && commands == old(commands) + UpdateCommands(p, change)
        && changed == (old(changed) || UpdateCommands(p, change) != [])
      ensures iogrp == old(iogrp) && targetVolsListStr == old(targetVolsListStr)
    {
      var unsupported := PresentKeys(change, UnsupportedForUpdate);
      if unsupported != [] {
        failure := Some(UpdateUnsupported(ParamNames(unsupported)));
        return;
      }
      failure := None;
      if checkMode {
        changed := true;
        return;
      }
      ghost var start := commands;
      UpdateIogrp(change.iogrp);
      UpdateSize(change.size);
      ghost var sent := IogrpCommands(p.name, change.iogrp) + SizeCommands(p.name, change.size);
      assert commands == start + sent;
      if change.cloudBackup {
        Send(ChangeCloudBackup(p.enableCloudSnapshot, p.cloudAccountName, p.name));
      }
      sent := sent + BackupCommands(p, change);
      assert commands == start + sent;
      if change.volumegroup.Some? || change.novolumegroup {
        Send(ChangeVolumeGroup(change.volumegroup, change.novolumegroup, p.name));
      }
      sent := sent + GroupCommands(p, change);
      assert commands == start + sent;
      assert changed == (old(changed) || |commands| > |start|);
    }

    /** volume_rename, given whether volumes with the new and the old name
        exist: the rename validation, then the four cases. */
    method VolumeRename(volumeExists: bool, oldVolumeExists: bool, checkMode: bool)
      returns (msg: Option<string>, failure: Option<Failure>)
      modifies this
      ensures var r := Rename(p, volumeExists, oldVolumeExists, checkMode);
        && msg == r.msg && failure == r.failure
        && commands == old(commands) + r.commands
        && changed == (old(changed) || r.setsChanged)
      ensures iogrp == old(iogrp) && targetVolsListStr == old(targetVolsListStr)
    {
      msg := None;
      failure := RenameFailure(p);
      if failure.Some? {
        return;
      }
      if !oldVolumeExists && !volumeExists {
        failure := Some(OldVolumeMissing(p.oldName));
      } else if oldVolumeExists && volumeExists {
        failure := Some(NewVolumeExists(p.name));
      } else if !oldVolumeExists && volumeExists {
        msg := Some(AlreadyRenamed(p.name));
      } else if oldVolumeExists && !volumeExists {
        if checkMode {
          changed := true;
          return;
        }
        commands := commands + [RenameVolume(p.name, p.oldName)];
        changed := true;
        msg := Some(RenamedMessage(p.oldName, p.name));
      }
    }
  }
}
