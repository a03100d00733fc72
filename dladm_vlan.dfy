/** The Solaris/illumos "dladm_vlan" module: the VLAN id check, the
    dladm command lines it builds, and how the command results decide what
    it reports. Running commands is replaced by their results as inputs. */
module DladmVlan {
  import opened Common
  import opened JsonValues
  import opened PyInt

  // ------------------------------------------------------------- vlan id

  /** is_valid_vlan_id: the id fits the 12-bit VID field of IEEE 802.1Q
      (clause 9.6). */
  predicate IsValidVlanId(id: int) {
    0 <= id <= 4095
  }

  // ---------------------------------------------------------- command lines

  datatype Params = Params(name: string, link: Option<string>, vlanId: string, temporary: bool, state: string)

  /** create_vlan's command line, built one argument at a time. */
  method CreateVlan(dladm: string, p: Params) returns (cmd: seq<string>)
    requires p.link.Some?
    ensures cmd == CreateArgv(dladm, p)
    ensures cmd[|cmd| - 1] == p.name
  {
    cmd := [dladm];
    cmd := cmd + ["create-vlan"];
    if p.temporary {
      cmd := cmd + ["-t"];
    }
    cmd := cmd + ["-l"];
    cmd := cmd + [p.link.value];
    cmd := cmd + ["-v"];
    cmd := cmd + [p.vlanId];
    cmd := cmd + [p.name];
    assert cmd[|cmd| - 1] == p.name;
  }

  /** delete_vlan's command line, built one argument at a time. */
  method DeleteVlan(dladm: string, p: Params) returns (cmd: seq<string>)
    ensures cmd == DeleteArgv(dladm, p)
  {
    cmd := [dladm];
    cmd := cmd + ["delete-vlan"];
    if p.temporary {
      cmd := cmd + ["-t"];
    }
    cmd := cmd + [p.name];
  }

  /** What a dladm create-vlan or delete-vlan command line asks for. */
  datatype VlanRequest =
    | Create(temporary: bool, link: string, vid: string, name: string)
    | Delete(temporary: bool, name: string)

  /** Reads a create-vlan or delete-vlan command line back, the way dladm
      parses its arguments. */
  function ParseArgv(argv: seq<string>): Option<VlanRequest> {
    if |argv| < 2 then None
    else
      var rest := argv[2..];
      var temp := |rest| > 0 && rest[0] == "-t";
      var args := if temp then rest[1..] else rest;
      if argv[1] == "create-vlan" && |args| == 5 && args[0] == "-l" && args[2] == "-v" then
        Some(Create(temp, args[1], args[3], args[4]))
      else if argv[1] == "delete-vlan" && |args| == 1 then
        Some(Delete(temp, args[0]))
      else None
  }

  /** The create command line carries exactly the module's parameters. */
  lemma CreateArgvRoundTrip(dladm: string, p: Params)
    requires p.link.Some?
    ensures ParseArgv(CreateArgv(dladm, p)) == Some(Create(p.temporary, p.link.value, p.vlanId, p.name))
  {
    var flag := if p.temporary then ["-t"] else [];
    var tail := ["-l", p.link.value, "-v", p.vlanId, p.name];
    var c := CreateArgv(dladm, p);
    assert c[2..] == flag + tail;
    assert tail[0] != "-t";
    if p.temporary {
      assert c[2..][1..] == tail;
    }
  }

  /** The delete command line carries exactly the module's parameters. A
      name spelled like an option ("-t") would be read as the flag; dladm
      link names never start with '-'. */
  lemma DeleteArgvRoundTrip(dladm: string, p: Params)
    requires p.name == "" || p.name[0] != '-'
    ensures ParseArgv(DeleteArgv(dladm, p)) == Some(Delete(p.temporary, p.name))
  {
    var flag := if p.temporary then ["-t"] else [];
    var d := DeleteArgv(dladm, p);
    assert d[2..] == flag + [p.name];
    if p.temporary {
      assert d[2..][1..] == [p.name];
    }
  }

  // ------------------------------------------------------------------ main

  /** The (rc, stdout, stderr) of the create or delete command. */
  datatype Reply = Reply(rc: int, out: string, err: string)

  /** How a run ends: exit_json with a result, fail_json, or the
      ValueError raised by int() on a vlan_id that is not a number. */
  datatype Exit = ExitJson(result: seq<Member>) | FailJson(msg: string) | ValueError

  /** Whether the state asks for a change: delete an existing VLAN or
      create a missing one. */
  predicate WouldChange(state: string, vlanExists: bool) {
    (state == "absent" && vlanExists) || (state == "present" && !vlanExists)
  }

  /** What main does, as a function of its inputs, `id` being what
      `int()` makes of vlan_id (None for the ValueError): the create/delete
      command lines it runs and how it exits. */
  function Outcome(p: Params, id: Option<int>, dladm: string, checkMode: bool, vlanExists: bool, reply: Reply): (seq<seq<string>>, Exit)
    requires p.state == "present" ==> p.link.Some?
  {
    if id.None? then ([], ValueError)
    else if id.value != 0 && !IsValidVlanId(id.value) then ([], FailJson("Invalid VLAN id value"))
    else if WouldChange(p.state, vlanExists) && checkMode then ([], ExitJson([Member("changed", Bool(true))]))
    else if WouldChange(p.state, vlanExists) then
      var cmd := if p.state == "absent" then DeleteArgv(dladm, p) else CreateArgv(dladm, p);
      if reply.rc != 0 then ([cmd], FailJson(reply.err))
      else ([cmd], ExitJson(ExitResult(p, id.value != 0, true, reply.out, reply.err)))
    else ([], ExitJson(ExitResult(p, id.value != 0, false, "", "")))
  }

  /** Whether a vlan_id passes main's check: a number that is 0 or in
      0..4095. */
  predicate ValidId(id: Option<int>) {
    id.Some? && (id.value == 0 || IsValidVlanId(id.value))
  }

  /** The commands main runs: the delete or create command line exactly
      when the id is valid, a change is due and it is not check mode. */
  lemma OutcomeCommands(p: Params, id: Option<int>, dladm: string, checkMode: bool, vlanExists: bool, reply: Reply)
    requires p.state == "present" ==> p.link.Some?
    ensures var commands := Outcome(p, id, dladm, checkMode, vlanExists, reply).0;
      && (commands != [] <==> ValidId(id) && !checkMode && WouldChange(p.state, vlanExists))
      && (commands != [] ==> commands == [if p.state == "absent" then DeleteArgv(dladm, p) else CreateArgv(dladm, p)])
  {
    if !ValidId(id) {
      assert id.None? || (id.value != 0 && !IsValidVlanId(id.value));
    } else if !WouldChange(p.state, vlanExists) || checkMode {
      assert Outcome(p, id, dladm, checkMode, vlanExists, reply).0 == [];
    } else {
      var cmd := if p.state == "absent" then DeleteArgv(dladm, p) else CreateArgv(dladm, p);
      assert Outcome(p, id, dladm, checkMode, vlanExists, reply).0 == [cmd];
    }
  }

  /** How main exits: a vlan_id that is not a number raises; a non-zero
      one outside 0..4095 fails; a command fails the run exactly when its
      rc is non-zero, with its stderr as the message. */
  lemma OutcomeExit(p: Params, id: Option<int>, dladm: string, checkMode: bool, vlanExists: bool, reply: Reply)
    requires p.state == "present" ==> p.link.Some?
    ensures var (commands, exit) := Outcome(p, id, dladm, checkMode, vlanExists, reply);
      && (exit == ValueError <==> id.None?)
      && (id.Some? && id.value != 0 && !IsValidVlanId(id.value) ==> commands == [] && exit == FailJson("Invalid VLAN id value"))
      && (exit.FailJson? <==> (id.Some? && id.value != 0 && !IsValidVlanId(id.value)) || (commands != [] && reply.rc != 0))
      && (commands != [] && reply.rc != 0 ==> exit == FailJson(reply.err))
  {
  }

  /** Check mode exits with just changed exactly when the id is valid and a
      change is due; no other run exits with that dict. */
  lemma OutcomeCheckMode(p: Params, id: Option<int>, dladm: string, checkMode: bool, vlanExists: bool, reply: Reply)
    requires p.state == "present" ==> p.link.Some?
    ensures Outcome(p, id, dladm, checkMode, vlanExists, reply).1 == ExitJson([Member("changed", Bool(true))]) <==>
      ValidId(id) && checkMode && WouldChange(p.state, vlanExists)
  {
    var checkOnly := [Member("changed", Bool(true))];
    assert Lookup(checkOnly, "name") == None;
    if ValidId(id) && !(WouldChange(p.state, vlanExists) && checkMode) {
      var showId := id.value != 0;
      if WouldChange(p.state, vlanExists) {
        if reply.rc == 0 {
          ExitResultEntry(p, showId, true, reply.out, reply.err, "name");
          assert ExitResult(p, showId, true, reply.out, reply.err) != checkOnly;
        }
      } else {
        ExitResultEntry(p, showId, false, "", "", "name");
        assert ExitResult(p, showId, false, "", "") != checkOnly;
      }
    }
  }

  /** Any other exit carries the result dict of main: changed (whether a
      command ran), the name, vlan_id unless it is 0, and the command's
      non-empty stdout and stderr. */
  lemma OutcomeResult(p: Params, id: Option<int>, dladm: string, checkMode: bool, vlanExists: bool, reply: Reply)
    requires p.state == "present" ==> p.link.Some?
    ensures var (commands, exit) := Outcome(p, id, dladm, checkMode, vlanExists, reply);
      exit.ExitJson? && exit.result != [Member("changed", Bool(true))] ==>
        && exit.result == ExitResult(p, id.value != 0, commands != [],
                                     if commands != [] then reply.out else "", if commands != [] then reply.err else "")
        && Lookup(exit.result, "changed") == Some(Bool(commands != []))
        && Lookup(exit.result, "name") == Some(Str(p.name))
        && (Lookup(exit.result, "vlan_id").Some? <==> id != Some(0))
        && (Lookup(exit.result, "stdout").Some? <==> commands != [] && reply.out != "")
        && (Lookup(exit.result, "stderr").Some? <==> commands != [] && reply.err != "")
  {
    if ValidId(id) {
      if WouldChange(p.state, vlanExists) {
        if !checkMode && reply.rc == 0 {
          ExitResultFacts(p, id.value != 0, true, reply.out, reply.err);
        }
      } else {
        ExitResultFacts(p, id.value != 0, false, "", "");
      }
    }
  }

  /** main, with `vlanExists` the answer of show-vlan and `reply` the result of
      the create or delete command if one runs. Returns the create/delete
      command lines run and how the module exits. */
  method RunModule(p: Params, dladm: string, checkMode: bool, vlanExists: bool, reply: Reply)
    returns (commands: seq<seq<string>>, exit: Exit)
    requires p.state == "present" ==> p.link.Some?
    ensures (commands, exit) == Outcome(p, ToInt(p.vlanId), dladm, checkMode, vlanExists, reply)
  {
    commands := [];
    var id := ToInt(p.vlanId);
    if id.None? {
      return [], ValueError;
    }
    if id.value != 0 {
      if !IsValidVlanId(id.value) {
        return [], FailJson("Invalid VLAN id value");
      }
    }
    var rc: Option<int> := None;
    var out, err := "", "";
    if p.state == "absent" {
      if vlanExists {
        if checkMode {
          return [], ExitJson([Member("changed", Bool(true))]);
        }
        var cmd := DeleteVlan(dladm, p);
        commands := [cmd];
        rc, out, err := Some(reply.rc), reply.out, reply.err;
        if reply.rc != 0 {
          return commands, FailJson(err);
        }
      }
    } else if p.state == "present" {
      if !vlanExists {
        if checkMode {
          return [], ExitJson([Member("changed", Bool(true))]);
        }
        var cmd := CreateVlan(dladm, p);
        commands := [cmd];
        rc, out, err := Some(reply.rc), reply.out, reply.err;
      }
      if rc.Some? && rc.value != 0 {
        return commands, FailJson(err);
      }
    }
    var result := FillResult(p, id.value != 0, rc.Some?, out, err);
    exit := ExitJson(result);
  }

  /** The assignments main makes to `result`: vlan_id when shown, then
      changed, then stdout and stderr when non-empty. */
  method FillResult(p: Params, showId: bool, changed: bool, out: string, err: string) returns (result: seq<Member>)
    ensures result == ExitResult(p, showId, changed, out, err)
    ensures Lookup(result, "changed") == Some(Bool(changed))
    ensures Lookup(result, "name") == Some(Str(p.name))
    ensures Lookup(result, "vlan_id").Some? <==> showId
    ensures Lookup(result, "stdout").Some? <==> out != ""
    ensures Lookup(result, "stderr").Some? <==> err != ""
  {
    result := BaseResult(p);
    if showId {
      result := Put(result, "vlan_id", Str(p.vlanId));
    }
    result := Put(result, "changed", Bool(changed));
    if out != "" {
      result := Put(result, "stdout", Str(out));
    }
    if err != "" {
      result := Put(result, "stderr", Str(err));
    }
    ExitResultFacts(p, showId, changed, out, err);
  }

  /** The result entries every run starts with. */
  function BaseResult(p: Params): seq<Member> {
    [Member("name", Str(p.name)),
     Member("link", if p.link.Some? then Str(p.link.value) else Null),
     Member("state", Str(p.state)),
     Member("temporary", Bool(p.temporary))]
  }

  /** The result dict of a normal exit, assigned entry by entry. */
  function ExitResult(p: Params, showId: bool, changed: bool, out: string, err: string): seq<Member> {
    var r1 := if showId then Put(BaseResult(p), "vlan_id", Str(p.vlanId)) else BaseResult(p);
    var r2 := Put(r1, "changed", Bool(changed));
    var r3 := if out != "" then Put(r2, "stdout", Str(out)) else r2;
    if err != "" then Put(r3, "stderr", Str(err)) else r3
  }

  lemma ExitResultFacts(p: Params, showId: bool, changed: bool, out: string, err: string)
    ensures var r := ExitResult(p, showId, changed, out, err);
      && Lookup(r, "changed") == Some(Bool(changed))
      && Lookup(r, "name") == Some(Str(p.name))
      && (Lookup(r, "vlan_id").Some? <==> showId)
      && (Lookup(r, "stdout").Some? <==> out != "")
      && (Lookup(r, "stderr").Some? <==> err != "")
  {
    BaseResultFacts(p);
    ExitResultEntry(p, showId, changed, out, err, "changed");
    ExitResultEntry(p, showId, changed, out, err, "name");
    ExitResultEntry(p, showId, changed, out, err, "vlan_id");
    ExitResultEntry(p, showId, changed, out, err, "stdout");
    ExitResultEntry(p, showId, changed, out, err, "stderr");
  }

  lemma BaseResultFacts(p: Params)
    ensures var b := BaseResult(p);
      && Lookup(b, "name") == Some(Str(p.name))
      && Lookup(b, "vlan_id") == None && Lookup(b, "changed") == None
      && Lookup(b, "stdout") == None && Lookup(b, "stderr") == None
  {
    var b := BaseResult(p);
    var tail := b[1..];
    assert tail[1..][1..][1..] == [];
    assert Lookup(tail, "vlan_id") == None && Lookup(tail, "changed") == None;
    assert Lookup(tail, "stdout") == None && Lookup(tail, "stderr") == None;
  }

  /** Each entry of the exit result: the last assignment to its key, or the
      starting entry. */
  lemma ExitResultEntry(p: Params, showId: bool, changed: bool, out: string, err: string, key: string)
    ensures Lookup(ExitResult(p, showId, changed, out, err), key) ==
      if key == "stderr" && err != "" then Some(Str(err))
      else if key == "stdout" && out != "" then Some(Str(out))
      else if key == "changed" then Some(Bool(changed))
      else if key == "vlan_id" && showId then Some(Str(p.vlanId))
      else Lookup(BaseResult(p), key)
  {
    var b := BaseResult(p);
    var r1 := if showId then Put(b, "vlan_id", Str(p.vlanId)) else b;
    if showId {
      PutLookup(b, "vlan_id", Str(p.vlanId), key);
    }
    var r2 := Put(r1, "changed", Bool(changed));
    PutLookup(r1, "changed", Bool(changed), key);
    var r3 := if out != "" then Put(r2, "stdout", Str(out)) else r2;
    if out != "" {
      PutLookup(r2, "stdout", Str(out), key);
    }
    if err != "" {
      PutLookup(r3, "stderr", Str(err), key);
    }
  }

  function CreateArgv(dladm: string, p: Params): seq<string>
    requires p.link.Some?
  {
    [dladm, "create-vlan"] + (if p.temporary then ["-t"] else []) + ["-l", p.link.value, "-v", p.vlanId, p.name]
  }

  function DeleteArgv(dladm: string, p: Params): seq<string> {
    [dladm, "delete-vlan"] + (if p.temporary then ["-t"] else []) + [p.name]
  }
}
