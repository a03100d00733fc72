/** The GCP "compute target pool info" module: how a list of filter
    expressions becomes one query string, and how an HTTP reply is read. */
module GcpTargetPoolInfo {
  import opened Common
  import opened JsonValues

  /** One filter of several: wrapped in parentheses unless it already
      starts with "(" or ends with ")". */
  function Bracket(f: string): (r: string)
    requires f != ""
    ensures f[0] != '(' && f[|f| - 1] != ')' ==> r == "(" + f + ")"
    ensures f[0] == '(' || f[|f| - 1] == ')' ==> r == f
  {
    if f[0] != '(' && f[|f| - 1] != ')' then "(" + f + ")" else f
  }

  /** The pieces of a multi-filter query, one per filter, in order. */
  function Bracketed(filters: seq<string>): (r: seq<string>)
    requires forall i :: 0 <= i < |filters| ==> filters[i] != ""
    ensures |r| == |filters|
    ensures forall i :: 0 <= i < |filters| ==> r[i] == Bracket(filters[i])
  {
    seq(|filters|, i requires 0 <= i < |filters| => Bracket(filters[i]))
  }

  /** Every piece of a multi-filter query starts with "(" or ends with ")". */
  lemma BracketShape(f: string)
    requires f != ""
    ensures Bracket(f) != "" && (Bracket(f)[0] == '(' || Bracket(f)[|Bracket(f)| - 1] == ')')
  {
  }

  /** Bracketing an already bracketed piece changes nothing. */
  lemma BracketIdempotent(f: string)
    requires f != ""
    ensures Bracket(Bracket(f)) == Bracket(f)
  {
    BracketShape(f);
  }

  /** query_options: no filters give "", one filter is passed through, and
      several are bracketed one by one and joined by single spaces. An
      empty filter among several makes Python index an empty string and
      raise; the model returns None there. */
  method QueryOptions(filters: seq<string>) returns (r: Option<string>)
    ensures |filters| == 0 ==> r == Some("")
    ensures |filters| == 1 ==> r == Some(filters[0])
    ensures |filters| >= 2 ==> (r.None? <==> exists i :: 0 <= i < |filters| && filters[i] == "")
    ensures |filters| >= 2 && r.Some? ==>
      (forall i :: 0 <= i < |filters| ==> filters[i] != "") && r.value == Join(" ", Bracketed(filters))
  {
    if |filters| == 0 {
      return Some("");
    }
    if |filters| == 1 {
      return Some(filters[0]);
    }
    var queries: seq<string> := [];
    var n := 0;
    while n < |filters|
      invariant 0 <= n <= |filters| && |queries| == n
      invariant forall i :: 0 <= i < n ==> filters[i] != "" && queries[i] == Bracket(filters[i])
    {
      var f := filters[n];
      if f == "" {
        return None;
      }
      if f[0] != '(' && f[|f| - 1] != ')' {
        queries := queries + ["(" + f + ")"];
      } else {
        queries := queries + [f];
      }
      n := n + 1;
    }
    assert queries == Bracketed(filters);
    r := Some(Join(" ", queries));
  }

  /** A reply body: parsed JSON, or text that is not JSON together with the
      message of the decoder's exception. */
  datatype Body = Json(v: Value) | BadJson(text: string, err: string)

  /** What return_if_object gives back: nothing, the parsed object, or a
      fail_json with the given message. */
  datatype Fetched = NoObject | Found(v: Value) | FailJson(msg: Value)

  /** return_if_object: 404 and 204 give nothing whatever the body. Any
      other reply first goes through `module.raise_for_status`, whose
      fail_json message on an error status is `raised` (None when the
      status is not an error); then a body that is not JSON fails with the
      decoder's message, one that carries a truthy error.errors fails with
      it, and any other body is the result. */
  function ReturnIfObject(status: int, raised: Option<Value>, body: Body): (r: Fetched)
    ensures status == 404 || status == 204 ==> r == NoObject
    ensures status != 404 && status != 204 && raised.Some? ==> r == FailJson(raised.value)
    ensures status != 404 && status != 204 && raised.None? && body.BadJson? ==>
      r == FailJson(Str("Invalid JSON response with error: " + body.err))
    ensures status != 404 && status != 204 && raised.None? && body.Json? ==>
      if Truthy(GetPath(body.v, ["error", "errors"])) then r == FailJson(GetPath(body.v, ["error", "errors"]))
      else r == Found(body.v)
  {
    if status == 404 then NoObject
    else if status == 204 then NoObject
    else if raised.Some? then FailJson(raised.value)
    else match body
      case BadJson(_, err) => FailJson(Str("Invalid JSON response with error: " + err))
      case Json(result) =>
        var errors := GetPath(result, ["error", "errors"]);
        if Truthy(errors) then FailJson(errors) else Found(result)
  }
}
