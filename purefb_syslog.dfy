/** The Pure Storage FlashBlade "purefb_syslog" module: the syslog server
    URI it composes, how it decides to add, update or delete a server, and
    what each of those reports. Calls to the array are replaced by their
    answers as inputs. */
module PurefbSyslog {
  import opened Common

  const MinRequiredApiVersion := "1.10"
  const SyslogServicesApi := "2.14"

  /** The module parameters; an unset address, protocol or port is "". */
  datatype Params = Params(address: string, protocol: string, port: string, name: string,
                           services: seq<string>, state: string)

  /** The server URI: protocol "://" address, then ":" port when a port is
      given. */
  function FullAddress(p: Params): (uri: string)
    ensures p.port == "" ==> uri == p.protocol + "://" + p.address
    ensures p.port != "" ==> uri == p.protocol + "://" + p.address + ":" + p.port
  {
    var noportAddress := p.protocol + "://" + p.address;
    if p.port != "" then noportAddress + ":" + p.port else noportAddress
  }

  /** With a port, the URI ends in ":" and the port; the text before it is
      the port-less URI. */
  lemma FullAddressPort(p: Params)
    requires p.port != ""
    ensures var uri := FullAddress(p); var n := |uri| - |p.port|;
      n >= 1 && uri[n..] == p.port && uri[n - 1] == ':' && uri[..n - 1] == p.protocol + "://" + p.address
  {
  }

  /** How a module function ends. */
  datatype Exit = ExitJson(changed: bool) | FailJson(msg: string)

  /** A syslog server as the array stores it. */
  datatype Server = Server(uri: string, services: seq<string>)

  /** A reply of the v2 REST client: status code and first error message. */
  datatype Reply = Reply(status: int, errMessage: string)

  // -------------------------------------------------------------- update

  /** The server as a patch from these parameters leaves it. */
  function Patched(p: Params): Server {
    Server(FullAddress(p), p.services)
  }

  /** Whether update_syslog finds the stored server different from the
      parameters: its URI or its services. */
  predicate Differs(p: Params, stored: Server) {
    FullAddress(p) != stored.uri || p.services != stored.services
  }

  /** update_syslog. `versions` are the array's API versions, `stored` the
      server as configured, `patchReply` the answer to the patch if one is
      sent. Returns the patch sent, if any, and how it exits. */
  method UpdateSyslog(p: Params, versions: seq<string>, stored: Server, checkMode: bool, patchReply: Reply)
    returns (patch: Option<Server>, exit: Exit)
    ensures SyslogServicesApi !in versions ==> patch == None && exit == ExitJson(false)
    ensures SyslogServicesApi in versions ==>
      var changed := Differs(p, stored);
      && (patch.Some? <==> changed && !checkMode)
      && (patch.Some? ==> patch.value == Patched(p))
      && (exit == ExitJson(changed) <==> !(patch.Some? && patchReply.status != 200))
      && (patch.Some? && patchReply.status != 200 ==>
            exit == FailJson("Updating syslog server " + p.name + " failed. Error: " + patchReply.errMessage))
  {
    var changed := false;
    patch := None;
    if SyslogServicesApi !in versions {
      return None, ExitJson(changed);
    }
    var fullAddress := FullAddress(p);
    var newUri := stored.uri;
    if fullAddress != newUri {
      changed := true;
      newUri := fullAddress;
    }
    var newServices := stored.services;
    if p.services != newServices {
      changed := true;
      newServices := p.services;
    }
    if changed && !checkMode {
      patch := Some(Server(newUri, newServices));
      if patchReply.status != 200 {
        return patch, FailJson("Updating syslog server " + p.name + " failed. Error: " + patchReply.errMessage);
      }
    }
    exit := ExitJson(changed);
  }

  /** An update reports a change exactly when the stored server is not
      the one its patch writes; so once the patch is applied, running the
      update again with the same parameters changes nothing and, by
      UpdateSyslog's contract, sends no patch. */
  lemma UpdateSettles(p: Params, stored: Server)
    ensures Differs(p, stored) <==> stored != Patched(p)
    ensures !Differs(p, Patched(p))
  {
  }

  // -------------------------------------------------------------- delete

  /** delete_syslog. `found` is whether listing the server by name gave a
      non-empty answer (a failed listing counts as not found), `deleteOk`
      whether the delete call succeeds. Returns whether the delete call is
      made, and how it exits. */
  function DeleteSyslog(p: Params, found: bool, checkMode: bool, deleteOk: bool): (r: (bool, Exit))
    ensures r.0 <==> found && !checkMode
    ensures r.1 == ExitJson(found) <==> !(r.0 && !deleteOk)
    ensures r.0 && !deleteOk ==> r.1 == FailJson("Failed to remove syslog server: " + p.name)
  {
    if found then
      if !checkMode then
        if deleteOk then (true, ExitJson(true))
        else (true, FailJson("Failed to remove syslog server: " + p.name))
      else (false, ExitJson(true))
    else (false, ExitJson(false))
  }

  // ----------------------------------------------------------------- add

  /** The call add_syslog makes: the v2 post with services, or the v1 create
      without them. */
  datatype AddCall = PostV2(name: string, server: Server) | CreateV1(name: string, uri: string)

  /** add_syslog: always reports a change; outside check mode it posts
      through the v2 API when the array has it, else creates through v1. */
  function AddSyslog(p: Params, versions: seq<string>, checkMode: bool, postReply: Reply, createOk: bool)
    : (r: (Option<AddCall>, Exit))
    ensures r.0.None? <==> checkMode
    ensures r.0.Some? ==> (r.0.value.PostV2? <==> SyslogServicesApi in versions)
    ensures r.0.Some? && r.0.value.PostV2? ==> r.0.value == PostV2(p.name, Server(FullAddress(p), p.services))
    ensures r.0.Some? && r.0.value.CreateV1? ==> r.0.value == CreateV1(p.name, FullAddress(p))
    ensures r.1.ExitJson? ==> r.1.changed
    ensures r.1.FailJson? <==>
      !checkMode && (if SyslogServicesApi in versions then postReply.status != 200 else !createOk)
  {
    var fullAddress := FullAddress(p);
    if checkMode then (None, ExitJson(true))
    else if SyslogServicesApi in versions then
      var call := PostV2(p.name, Server(fullAddress, p.services));
      if postReply.status != 200 then
        (Some(call), FailJson("Failed to add syslog server. Error: " + postReply.errMessage))
      else (Some(call), ExitJson(true))
    else
      var call := CreateV1(p.name, fullAddress);
      if !createOk then
        (Some(call), FailJson("Failed to add syslog server " + p.name + " - " + fullAddress))
      else (Some(call), ExitJson(true))
  }

  // ---------------------------------------------------------------- main

  /** Which function main hands over to, or the fail_json it stops with. */
  datatype Dispatch = Delete | Add | Update | Stop(msg: string)

  /** The scan of the configured servers for the requested name. */
  method FindServer(names: seq<string>, name: string) returns (exists_: bool)
    ensures exists_ <==> name in names
  {
    exists_ := false;
    var address := 0;
    while address < |names|
      invariant 0 <= address <= |names|
      invariant name !in names[..address]
    {
      if names[address] == name {
        exists_ := true;
        break;
      }
      address := address + 1;
    }
    if !exists_ {
      assert names[..address] == names;
    }
  }

  /** main with the server limit applied to adding only (see Dispatched
      for the code as written): after the SDK and API-version checks,
      "absent" deletes, a new name is added unless three servers are
      configured, and a known name is updated. `hasPurityFb` and
      `hasPureStorage` say which SDKs are installed; `names` are the
      configured servers. */
  method RunModule(p: Params, hasPurityFb: bool, hasPureStorage: bool, versions: seq<string>, names: seq<string>)
    returns (d: Dispatch)
    ensures d == DispatchedWithLimitOnAdd(p, hasPurityFb, hasPureStorage, versions, names)
  {
    if !hasPurityFb {
      return Stop("purity_fb sdk is required for this module");
    }
    if MinRequiredApiVersion !in versions {
      return Stop("Purity//FB must be upgraded to support this module.");
    }
    if !hasPureStorage && SyslogServicesApi in versions {
      return Stop("py-pure-client sdk is required for to set quotas");
    }
    var exists_ := FindServer(names, p.name);
    if p.state == "absent" {
      d := Delete;
    } else if !exists_ {
      if |names| >= 3 {
        return Stop("Maximum number of syslog servers (3) already configured.");
      }
      d := Add;
    } else {
      d := Update;
    }
  }

  /** The SDK and API-version conditions main checks before dispatching. */
  predicate Preconditions(hasPurityFb: bool, hasPureStorage: bool, versions: seq<string>) {
    hasPurityFb && MinRequiredApiVersion in versions && !(!hasPureStorage && SyslogServicesApi in versions)
  }

  /** The dispatch rule: "absent" deletes, a name not configured is added,
      a configured one is updated. */
  function Choose(p: Params, names: seq<string>): (d: Dispatch)
    ensures d == Delete <==> p.state == "absent"
    ensures d == Add <==> p.state != "absent" && p.name !in names
    ensures d == Update <==> p.state != "absent" && p.name in names
  {
    if p.state == "absent" then Delete else if p.name !in names then Add else Update
  }

  /** As written, a server cannot be removed while three are configured. */
  lemma DeleteBlockedAtLimit(p: Params, versions: seq<string>, names: seq<string>)
    requires p.state == "absent" && |names| == 3 && p.name in names
    requires MinRequiredApiVersion in versions
    ensures Dispatched(p, true, true, versions, names) == Stop("Maximum number of syslog servers (3) already configured.")
  {
  }

  /** main's decision as written, as a function of its inputs: the limit
      check comes before the state is looked at. */
  function Dispatched(p: Params, hasPurityFb: bool, hasPureStorage: bool, versions: seq<string>, names: seq<string>): (d: Dispatch)
    ensures !d.Stop? <==> Preconditions(hasPurityFb, hasPureStorage, versions) && |names| != 3
  {
    if !hasPurityFb then Stop("purity_fb sdk is required for this module")
    else if MinRequiredApiVersion !in versions then Stop("Purity//FB must be upgraded to support this module.")
    else if |names| == 3 then Stop("Maximum number of syslog servers (3) already configured.")
    else if !hasPureStorage && SyslogServicesApi in versions then Stop("py-pure-client sdk is required for to set quotas")
    else Choose(p, names)
  }

  /** The evidently intended rule: the three-server limit only stops adding
      a new server; deleting and updating go ahead at the limit. */
  function DispatchedWithLimitOnAdd(p: Params, hasPurityFb: bool, hasPureStorage: bool, versions: seq<string>, names: seq<string>): (d: Dispatch)
    ensures Preconditions(hasPurityFb, hasPureStorage, versions) ==>
      (d.Stop? <==> Choose(p, names) == Add && |names| >= 3)
    ensures Preconditions(hasPurityFb, hasPureStorage, versions) && !d.Stop? ==> d == Choose(p, names)
  {
    if !hasPurityFb then Stop("purity_fb sdk is required for this module")
    else if MinRequiredApiVersion !in versions then Stop("Purity//FB must be upgraded to support this module.")
    else if !hasPureStorage && SyslogServicesApi in versions then Stop("py-pure-client sdk is required for to set quotas")
    else
      var d := Choose(p, names);
      if d == Add && |names| >= 3 then Stop("Maximum number of syslog servers (3) already configured.") else d
  }

  /** With the limit on adding only, a configured server can always be
      deleted or updated, and a fourth server is still refused. */
  lemma LimitOnlyBlocksAdd(p: Params, versions: seq<string>, names: seq<string>)
    requires Preconditions(true, true, versions)
    ensures p.state == "absent" ==> DispatchedWithLimitOnAdd(p, true, true, versions, names) == Delete
    ensures p.state != "absent" && p.name in names ==> DispatchedWithLimitOnAdd(p, true, true, versions, names) == Update
    ensures p.state != "absent" && p.name !in names && |names| >= 3 ==> DispatchedWithLimitOnAdd(p, true, true, versions, names).Stop?
  {
  }
}
