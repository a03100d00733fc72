/** The FortiOS "system replacemsg mm7" module: the whitelist of accepted
    options, the recursive rewriting of option names into the FortiOS
    spelling (underscores become hyphens, `fos_message` becomes `message`),
    the request it makes outside check mode, and how it reads the device's
    reply. Calls to the device are replaced by the call they would make and
    by the reply as an input. */
module FortiosReplacemsgMm7 {
  import opened Common
  import opened JsonValues

  /** The options the module accepts, in the order it copies them. */
  const OptionList: seq<string> := [
    "add_smil", "addr_type", "allow_content_adaptation", "charset", "class",
    "format", "fos_message", "from", "from_sender", "header", "image",
    "msg_type", "priority", "rsp_status", "smil_part", "subject"
  ]

  // ---------------------------------------------------------------- filter

  /** The (option, value) assignments the filter makes, in list order: one
      per option whose value is present and not None. */
  function Selected(opts: seq<string>, json: seq<Member>): seq<Member> {
    if opts == [] then []
    else
      var a := opts[|opts| - 1];
      Selected(opts[..|opts| - 1], json) + (if Get(json, a) != Null then [Member(a, Get(json, a))] else [])
  }

  /** The dict filter_system_replacemsg_mm7_data builds from `json`. */
  function Whitelist(opts: seq<string>, json: seq<Member>): seq<Member> {
    PutAll([], Selected(opts, json))
  }

  /** filter_system_replacemsg_mm7_data: copies each listed option whose
      value is present and not None, in list order. `removeInvalid` stands
      for the collection's remove_invalid_fields helper, applied first. */
  method FilterData(json: seq<Member>, removeInvalid: seq<Member> -> seq<Member>)
    returns (dictionary: seq<Member>)
    ensures dictionary == Whitelist(OptionList, removeInvalid(json))
  {
    dictionary := CopyOptions(OptionList, removeInvalid(json));
  }

  /** The loop of filter_system_replacemsg_mm7_data over the option list. */
  method CopyOptions(optionList: seq<string>, input: seq<Member>) returns (dictionary: seq<Member>)
    ensures dictionary == Whitelist(optionList, input)
  {
    dictionary := [];
    var n := 0;
    while n < |optionList|
      invariant 0 <= n <= |optionList|
      invariant dictionary == Whitelist(optionList[..n], input)
    {
      var attribute := optionList[n];
      WhitelistStep(optionList, n, input);
      if Get(input, attribute) != Null {
        dictionary := Put(dictionary, attribute, Get(input, attribute));
      }
      n := n + 1;
    }
    assert optionList[..n] == optionList;
  }

  /** One more option either adds its assignment or leaves the dict alone. */
  lemma WhitelistStep(opts: seq<string>, n: nat, json: seq<Member>)
    requires n < |opts|
    ensures Whitelist(opts[..n + 1], json) ==
      if Get(json, opts[n]) != Null then Put(Whitelist(opts[..n], json), opts[n], Get(json, opts[n]))
      else Whitelist(opts[..n], json)
  {
    var s := Selected(opts[..n], json);
    assert opts[..n + 1][..n] == opts[..n];
    if Get(json, opts[n]) != Null {
      var m := Member(opts[n], Get(json, opts[n]));
      assert Selected(opts[..n + 1], json) == s + [m];
      assert (s + [m])[..|s|] == s;
    } else {
      assert Selected(opts[..n + 1], json) == s + [];
      assert s + [] == s;
    }
  }

  /** Every assignment the filter makes is a listed option with the input's
      non-None value, and every listed option with a non-None value is
      assigned. */
  lemma {:induction false} SelectedFacts(opts: seq<string>, json: seq<Member>)
    ensures var s := Selected(opts, json);
      && (forall i :: 0 <= i < |s| ==> s[i].key in opts && s[i].value != Null && s[i].value == Get(json, s[i].key))
      && (forall a :: a in opts && Get(json, a) != Null ==> a in Keys(s))
  {
    if opts != [] {
      var front := opts[..|opts| - 1];
      SelectedFacts(front, json);
      var s := Selected(opts, json);
      var s' := Selected(front, json);
      forall i | 0 <= i < |s|
        ensures s[i].key in opts && s[i].value != Null && s[i].value == Get(json, s[i].key)
      {
        if i < |s'| {
          assert s[i] == s'[i];
          assert s'[i].key in front;
        }
      }
      forall a | a in opts && Get(json, a) != Null ensures a in Keys(s) {
        if a in front {
          var i :| 0 <= i < |s'| && s'[i].key == a;
          assert s[i] == s'[i];
        } else {
          assert a == opts[|opts| - 1];
          assert s[|s| - 1].key == a;
        }
      }
    }
  }

  /** Every entry of the filtered dict is a listed option with the input's
      non-None value. */
  lemma WhitelistEntries(opts: seq<string>, json: seq<Member>)
    ensures var d := Whitelist(opts, json);
      forall i :: 0 <= i < |d| ==> d[i].key in opts && d[i].value != Null && d[i].value == Get(json, d[i].key)
  {
    var s := Selected(opts, json);
    var d := Whitelist(opts, json);
    forall i | 0 <= i < |d|
      ensures d[i].key in opts && d[i].value != Null && d[i].value == Get(json, d[i].key)
    {
      PutAllMembers([], s, i);
      var j :| 0 <= j < |s| && s[j] == d[i];
      SelectedAt(opts, json, j);
    }
  }

  /** One assignment of the filter: a listed option with the input's
      non-None value. */
  lemma SelectedAt(opts: seq<string>, json: seq<Member>, j: nat)
    requires j < |Selected(opts, json)|
    ensures var m := Selected(opts, json)[j];
      m.key in opts && m.value != Null && m.value == Get(json, m.key)
  {
    SelectedFacts(opts, json);
  }

  /** A listed option is in the filtered dict, with the input's value,
      exactly when the input has it with a non-None value. */
  lemma WhitelistLookup(opts: seq<string>, json: seq<Member>, a: string)
    requires a in opts
    ensures Get(json, a) != Null <==> Lookup(Whitelist(opts, json), a) == Some(Get(json, a))
    ensures Get(json, a) == Null ==> Lookup(Whitelist(opts, json), a) == None
  {
    var s := Selected(opts, json);
    SelectedFacts(opts, json);
    if Get(json, a) != Null {
      PutAllAssigned([], s, a, Get(json, a));
    } else {
      assert a !in Keys(s);
      PutAllAbsent([], s, a);
    }
  }

  /** What the filtered dict holds: only listed options, no None value,
      every listed option the input has with a non-None value, unchanged,
      and no key twice. */
  lemma WhitelistFacts(opts: seq<string>, json: seq<Member>)
    ensures var d := Whitelist(opts, json);
      && (forall i :: 0 <= i < |d| ==> d[i].key in opts && d[i].value != Null && d[i].value == Get(json, d[i].key))
      && (forall a :: a in opts && Get(json, a) != Null <==> Lookup(d, a) == Some(Get(json, a)))
      && (forall a :: a in opts && Get(json, a) == Null ==> Lookup(d, a) == None)
      && UniqueKeys(d)
  {
    WhitelistEntries(opts, json);
    PutAllUnique([], Selected(opts, json));
    forall a | a in opts
      ensures Get(json, a) != Null <==> Lookup(Whitelist(opts, json), a) == Some(Get(json, a))
      ensures Get(json, a) == Null ==> Lookup(Whitelist(opts, json), a) == None
    {
      WhitelistLookup(opts, json, a);
    }
  }

  // ----------------------------------------------------- underscore_to_hyphen

  function Hyphenate(k: string): (r: string)
    ensures |r| == |k| && '_' !in r
    ensures forall i :: 0 <= i < |k| ==> r[i] == (if k[i] == '_' then '-' else k[i])
  {
    seq(|k|, i requires 0 <= i < |k| => if k[i] == '_' then '-' else k[i])
  }

  /** underscore_to_hyphen: every dict key at every depth has its
      underscores replaced by hyphens; lists are rewritten element by
      element; anything else is returned as it is. The rewritten members are
      assigned in order into a new dict, so when two keys collide the later
      value wins at the earlier position, as Python's dict assignment does. */
  function UnderscoreToHyphen(v: Value): (r: Value)
    ensures !v.List? && !v.Object? ==> r == v
    ensures v.List? ==> r.List? && |r.items| == |v.items|
    ensures v.Object? ==> r.Object?
    decreases v
  {
    match v
    case List(xs) => List(seq(|xs|, i requires 0 <= i < |xs| => UnderscoreToHyphen(xs[i])))
    case Object(ms) =>
      Object(PutAll([], seq(|ms|, i requires 0 <= i < |ms| =>
        Member(Hyphenate(ms[i].key), UnderscoreToHyphen(ms[i].value)))))
    case _ => v
  }

  /** The members of a dict with keys hyphenated and values rewritten, before
      they are assigned into the new dict. */
  function HyphenMembers(ms: seq<Member>): (r: seq<Member>)
    ensures |r| == |ms|
    ensures forall i :: 0 <= i < |ms| ==> r[i] == Member(Hyphenate(ms[i].key), UnderscoreToHyphen(ms[i].value))
  {
    seq(|ms|, i requires 0 <= i < |ms| => Member(Hyphenate(ms[i].key), UnderscoreToHyphen(ms[i].value)))
  }

  lemma HyphenObject(ms: seq<Member>)
    ensures UnderscoreToHyphen(Object(ms)) == Object(PutAll([], HyphenMembers(ms)))
  {
  }

  /** No dict key at any depth contains an underscore. */
  predicate NoUnderscoreKeys(v: Value)
    decreases v
  {
    match v
    case List(xs) => forall i :: 0 <= i < |xs| ==> NoUnderscoreKeys(xs[i])
    case Object(ms) => forall i :: 0 <= i < |ms| ==> '_' !in ms[i].key && NoUnderscoreKeys(ms[i].value)
    case _ => true
  }

  /** The rewrite leaves no underscore in any key, and every dict it builds
      has distinct keys. */
  lemma {:induction false} HyphenClean(v: Value)
    ensures NoUnderscoreKeys(UnderscoreToHyphen(v)) && WellFormed(UnderscoreToHyphen(v))
    decreases v
  {
    match v
    case List(xs) =>
      var ys := UnderscoreToHyphen(v).items;
      forall i | 0 <= i < |ys| ensures NoUnderscoreKeys(ys[i]) && WellFormed(ys[i]) {
        HyphenClean(xs[i]);
      }
    case Object(ms) =>
      var hs := HyphenMembers(ms);
      var r := PutAll([], hs);
      HyphenObject(ms);
      PutAllUnique([], hs);
      forall i | 0 <= i < |r| ensures '_' !in r[i].key && NoUnderscoreKeys(r[i].value) && WellFormed(r[i].value) {
        PutAllMembers([], hs, i);
        var j :| 0 <= j < |hs| && hs[j] == r[i];
        HyphenClean(ms[j].value);
      }
    case _ =>
  }

  /** A value whose keys are already hyphenated and distinct is left as it is. */
  lemma {:induction false} HyphenFixed(v: Value)
    requires NoUnderscoreKeys(v) && WellFormed(v)
    ensures UnderscoreToHyphen(v) == v
    decreases v
  {
    match v
    case List(xs) =>
      forall i | 0 <= i < |xs| ensures UnderscoreToHyphen(xs[i]) == xs[i] {
        HyphenFixed(xs[i]);
      }
      assert UnderscoreToHyphen(v).items == xs;
    case Object(ms) =>
      var hs := HyphenMembers(ms);
      HyphenObject(ms);
      forall i | 0 <= i < |ms| ensures hs[i] == ms[i] {
        HyphenFixed(ms[i].value);
        assert Hyphenate(ms[i].key) == ms[i].key;
      }
      assert hs == ms;
      assert [] + ms == ms;
      PutAllFresh([], ms);
    case _ =>
  }

  /** Rewriting twice is the same as rewriting once. */
  lemma UnderscoreToHyphenIdempotent(v: Value)
    ensures UnderscoreToHyphen(UnderscoreToHyphen(v)) == UnderscoreToHyphen(v)
  {
    HyphenClean(v);
    HyphenFixed(UnderscoreToHyphen(v));
  }

  // ----------------------------------------------- valid_attr_to_invalid_attr(s)

  /** valid_attr_to_invalid_attr on a dict key: only "fos_message" changes. */
  function RenameKey(k: string): (r: string)
    ensures k == "fos_message" ==> r == "message"
    ensures k != "fos_message" ==> r == k
  {
    if k == "fos_message" then "message" else k
  }

  /** valid_attr_to_invalid_attr on any value: only the string
      "fos_message" changes. */
  function RenameValue(v: Value): (r: Value)
    ensures v == Str("fos_message") ==> r == Str("message")
    ensures v != Str("fos_message") ==> r == v
  {
    if v == Str("fos_message") then Str("message") else v
  }

  /** valid_attr_to_invalid_attrs: renames the key "fos_message" to
      "message" in every dict at every depth, and a scalar equal to
      "fos_message" to "message"; the renamed members are assigned in order
      into a new dict. */
  function RenameAttrs(v: Value): Value
    decreases v
  {
    match v
    case List(xs) => List(seq(|xs|, i requires 0 <= i < |xs| => RenameAttrs(xs[i])))
    case Object(ms) =>
      Object(PutAll([], seq(|ms|, i requires 0 <= i < |ms| =>
        Member(RenameKey(ms[i].key), RenameAttrs(ms[i].value)))))
    case _ => RenameValue(v)
  }

  /** The members of a dict with keys and values renamed, before they are
      assigned into the new dict. */
  function RenameMembers(ms: seq<Member>): (r: seq<Member>)
    ensures |r| == |ms|
    ensures forall i :: 0 <= i < |ms| ==> r[i] == Member(RenameKey(ms[i].key), RenameAttrs(ms[i].value))
  {
    seq(|ms|, i requires 0 <= i < |ms| => Member(RenameKey(ms[i].key), RenameAttrs(ms[i].value)))
  }

  lemma RenameObject(ms: seq<Member>)
    ensures RenameAttrs(Object(ms)) == Object(PutAll([], RenameMembers(ms)))
  {
  }

  /** No dict at any depth has the key `k`. */
  predicate WithoutKey(v: Value, k: string)
    decreases v
  {
    match v
    case List(xs) => forall i :: 0 <= i < |xs| ==> WithoutKey(xs[i], k)
    case Object(ms) => forall i :: 0 <= i < |ms| ==> ms[i].key != k && WithoutKey(ms[i].value, k)
    case _ => true
  }

  /** After the rename no dict at any depth has a "fos_message" key and the
      value itself is not the string "fos_message". */
  lemma {:induction false} RenameAttrsClean(v: Value)
    ensures WithoutKey(RenameAttrs(v), "fos_message")
    ensures RenameAttrs(v) != Str("fos_message")
    decreases v
  {
    match v
    case List(xs) =>
      var ys := RenameAttrs(v).items;
      forall i | 0 <= i < |ys| ensures WithoutKey(ys[i], "fos_message") {
        RenameAttrsClean(xs[i]);
      }
    case Object(ms) =>
      var rs := RenameMembers(ms);
      var r := PutAll([], rs);
      RenameObject(ms);
      forall i | 0 <= i < |r| ensures r[i].key != "fos_message" && WithoutKey(r[i].value, "fos_message") {
        PutAllMembers([], rs, i);
        var j :| 0 <= j < |rs| && rs[j] == r[i];
        RenameAttrsClean(ms[j].value);
      }
    case _ =>
  }

  // ------------------------------------------------------- device replies

  /** is_successful_status. `None` stands for the KeyError Python raises
      when a DELETE reply carries no http_status. */
  function IsSuccessfulStatus(resp: seq<Member>): (r: Option<bool>)
    ensures r == Some(true) <==>
      || Lookup(resp, "status") == Some(Str("success"))
      || Lookup(resp, "http_status") == Some(Int(200))
      || (Lookup(resp, "http_method") == Some(Str("DELETE")) && Lookup(resp, "http_status") == Some(Int(404)))
    ensures r == None <==>
      && Lookup(resp, "status") != Some(Str("success"))
      && Lookup(resp, "http_method") == Some(Str("DELETE"))
      && Lookup(resp, "http_status") == None
  {
    if Lookup(resp, "status") == Some(Str("success")) then Some(true)
    else if Lookup(resp, "http_status") == Some(Int(200)) then Some(true)
    else if Lookup(resp, "http_method") == Some(Str("DELETE")) then
      match Lookup(resp, "http_status")
      case None => None
      case Some(s) => Some(s == Int(404))
    else Some(false)
  }

  /** The (is_error, changed, meta, diff) tuple the module reports. */
  datatype Report = Report(isError: bool, changed: Value, meta: Value, diff: Value)

  /** fortios_system_replacemsg for a reply that is not already a tuple:
      an error iff the reply is not successful; `changed` is False on
      failure and otherwise the reply's revision_changed, or True when the
      reply has none; the diff is empty. `None` when the status test raises. */
  function ReportReply(resp: seq<Member>): (r: Option<Report>)
    ensures r.None? <==> IsSuccessfulStatus(resp).None?
    ensures r.Some? ==>
      && r.value.isError == !IsSuccessfulStatus(resp).value
      && (Truthy(r.value.changed) <==>
            IsSuccessfulStatus(resp).value
            && (Lookup(resp, "revision_changed").None? || Truthy(Get(resp, "revision_changed"))))
      && r.value.meta == Object(resp)
      && r.value.diff == Object([])
  {
    match IsSuccessfulStatus(resp)
    case None => None
    case Some(ok) =>
      var changed :=
        if !ok then Bool(false)
        else match Lookup(resp, "revision_changed")
          case Some(rc) => rc
          case None => Bool(true);
      Some(Report(!ok, changed, Object(resp), Object([])))
  }

  // --------------------------------------------------- request outside check mode

  /** The call made to the device: set the converted record, or delete the
      record with the given key. */
  datatype FosCall = SetCall(data: Value) | DeleteCall(mkey: Value)

  /** How the non-check-mode branch ends: a device call, a fail_json, or a
      Python exception (a KeyError). */
  datatype Step = Call(call: FosCall) | FailJson(msg: string) | Crash(reason: string)

  /** The data sent to the device: whitelisted, then renamed, then hyphenated. */
  function Converted(mm7: seq<Member>, removeInvalid: seq<Member> -> seq<Member>): Value {
    UnderscoreToHyphen(RenameAttrs(Object(Whitelist(OptionList, removeInvalid(mm7)))))
  }

  /** fortios_system_replacemsg and system_replacemsg_mm7 outside check mode:
      a missing task body fails; "present" sets the converted record;
      "absent" deletes by the converted "msg-type"; any other state fails. */
  function Mm7Request(state: string, mm7: Value, removeInvalid: seq<Member> -> seq<Member>): (r: Step)
    ensures !Truthy(mm7) ==> r == FailJson("missing task body: system_replacemsg_mm7")
    ensures Truthy(mm7) && state == "present" ==> r == Call(SetCall(Converted(AsDict(mm7), removeInvalid)))
    ensures Truthy(mm7) && state != "present" && state != "absent" ==> r == FailJson("state must be present or absent!")
  {
    if !Truthy(mm7) then FailJson("missing task body: system_replacemsg_mm7")
    else
      var converted := Converted(AsDict(mm7), removeInvalid);
      if state == "present" then Call(SetCall(converted))
      else if state == "absent" then
        match Lookup(AsDict(converted), "msg-type")
        case Some(key) => Call(DeleteCall(key))
        case None => Crash("KeyError: 'msg-type'")
      else FailJson("state must be present or absent!")
  }

  /** With state "absent" the delete key is the whitelisted msg_type value
      after the rename and hyphen steps: for a string, the msg_type itself
      unless it is "fos_message", which the rename turns into "message".
      Without a msg_type the lookup raises. */
  lemma DeleteKeyIsMsgType(mm7: Value, removeInvalid: seq<Member> -> seq<Member>)
    requires Truthy(mm7)
    ensures var mt := Get(removeInvalid(AsDict(mm7)), "msg_type");
      Mm7Request("absent", mm7, removeInvalid) ==
        if mt == Null then Crash("KeyError: 'msg-type'") else Call(DeleteCall(UnderscoreToHyphen(RenameAttrs(mt))))
  {
    ConvertedMsgType(OptionList, removeInvalid(AsDict(mm7)));
  }

  /** For a string msg_type the delete key is that string with its
      underscores turned into hyphens. */
  lemma DeleteKeyOfString(mm7: Value, removeInvalid: seq<Member> -> seq<Member>)
    requires Truthy(mm7)
    ensures var mt := Get(removeInvalid(AsDict(mm7)), "msg_type");
      mt.Str? ==> Mm7Request("absent", mm7, removeInvalid) == Call(DeleteCall(RenameValue(mt)))
  {
    var mt := Get(removeInvalid(AsDict(mm7)), "msg_type");
    DeleteKeyIsMsgType(mm7, removeInvalid);
    if mt.Str? {
      assert RenameAttrs(mt) == RenameValue(mt);
    }
  }

  /** The "msg-type" entry of the converted dict, for any option list that
      has "msg_type" and neither "message" nor "msg-type". */
  lemma ConvertedMsgType(opts: seq<string>, input: seq<Member>)
    requires "msg_type" in opts && "message" !in opts && "msg-type" !in opts
    ensures var mt := Get(input, "msg_type");
      Lookup(AsDict(UnderscoreToHyphen(RenameAttrs(Object(Whitelist(opts, input))))), "msg-type") ==
        if mt == Null then None else Some(UnderscoreToHyphen(RenameAttrs(mt)))
  {
    var mt := Get(input, "msg_type");
    var w := Whitelist(opts, input);
    RenamedWhitelist(opts, input);
    var hs := HyphenMembers(RenameMembers(w));
    HyphenObject(RenameMembers(w));
    forall i | 0 <= i < |hs|
      ensures hs[i].key == "msg-type" <==> w[i].key == "msg_type"
      ensures hs[i].key == "msg-type" ==> mt != Null && hs[i].value == UnderscoreToHyphen(RenameAttrs(mt))
    {
      WhitelistAt(opts, input, i);
      RenamedMsgType(opts, w[i].key);
    }
    if mt != Null {
      var i := WhitelistHas(opts, input, "msg_type");
      assert hs[i].key == "msg-type";
      PutAllAssigned([], hs, "msg-type", UnderscoreToHyphen(RenameAttrs(mt)));
    } else {
      PutAllAbsent([], hs, "msg-type");
    }
  }

  /** One member of the filtered dict: a listed option with the input's
      non-None value. */
  lemma WhitelistAt(opts: seq<string>, input: seq<Member>, i: nat)
    requires i < |Whitelist(opts, input)|
    ensures var m := Whitelist(opts, input)[i];
      m.key in opts && m.value != Null && m.value == Get(input, m.key)
  {
    WhitelistFacts(opts, input);
  }

  /** Where a listed option with a non-None value sits in the filtered dict. */
  lemma WhitelistHas(opts: seq<string>, input: seq<Member>, a: string) returns (i: nat)
    requires a in opts && Get(input, a) != Null
    ensures i < |Whitelist(opts, input)| && Whitelist(opts, input)[i].key == a
  {
    WhitelistFacts(opts, input);
    var w := Whitelist(opts, input);
    assert Lookup(w, a).Some?;
    i :| 0 <= i < |w| && w[i].key == a;
  }

  /** Renaming a filtered dict whose options do not include "message" maps
      it member by member. */
  lemma RenamedWhitelist(opts: seq<string>, input: seq<Member>)
    requires "message" !in opts
    ensures RenameAttrs(Object(Whitelist(opts, input))) == Object(RenameMembers(Whitelist(opts, input)))
  {
    var w := Whitelist(opts, input);
    var rs := RenameMembers(w);
    RenameObject(w);
    assert [] + rs == rs;
    assert UniqueKeys(rs) by {
      forall i, j | 0 <= i < j < |rs| ensures rs[i].key != rs[j].key {
        WhitelistFacts(opts, input);
        RenameKeyInjective(opts, w[i].key, w[j].key);
      }
    }
    PutAllFresh([], rs);
  }

  /** Renaming keeps distinct options distinct when "message" is not one. */
  lemma RenameKeyInjective(opts: seq<string>, a: string, b: string)
    requires a in opts && b in opts && a != b && "message" !in opts
    ensures RenameKey(a) != RenameKey(b)
  {
  }

  /** Among options other than "message" and "msg-type", only "msg_type"
      becomes "msg-type" after renaming and hyphenating. */
  lemma RenamedMsgType(opts: seq<string>, k: string)
    requires k in opts && "message" !in opts && "msg-type" !in opts
    ensures Hyphenate(RenameKey(k)) == "msg-type" <==> k == "msg_type"
  {
    if k == "msg_type" {
      assert Hyphenate(RenameKey(k)) == "msg-type";
    } else if Hyphenate(RenameKey(k)) == "msg-type" {
      HyphenToMsgType(RenameKey(k));
    }
  }

  /** Only "msg_type" and "msg-type" hyphenate to "msg-type". */
  lemma HyphenToMsgType(x: string)
    requires Hyphenate(x) == "msg-type"
    ensures x == "msg_type" || x == "msg-type"
  {
    var h := Hyphenate(x);
    assert |x| == 8;
    forall i | 0 <= i < 8 && i != 3 ensures x[i] == "msg-type"[i] {
      assert h[i] == "msg-type"[i];
    }
    if x[3] == '_' {
      assert x == "msg_type";
    } else {
      assert h[3] == '-';
      assert x == "msg-type";
    }
  }
}
