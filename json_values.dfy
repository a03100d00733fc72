/** The JSON-shaped values the modules pass around: Python's None, bool,
    int, str, list and dict. A dict is an ordered list of members, because
    Python dicts keep insertion order and several results here (patch
    payloads, rewritten keys) depend on it. Floats are not represented:
    the float fields of the autoscaler (its utilization targets) are only
    copied from one dict to another unchanged, and any Value stands for
    them there. */
module JsonValues {
  import opened Common

  datatype Value =
    | Null
    | Bool(b: bool)
    | Int(i: int)
    | Str(s: string)
    | List(items: seq<Value>)
    | Object(members: seq<Member>)

  datatype Member = Member(key: string, value: Value)

  /** Python truthiness: None, False, 0, "", [] and {} are false. */
  predicate Truthy(v: Value) {
    match v
    case Null => false
    case Bool(b) => b
    case Int(i) => i != 0
    case Str(s) => s != ""
    case List(xs) => xs != []
    case Object(ms) => ms != []
  }

  /** The keys of a dict, in insertion order. */
  function Keys(ms: seq<Member>): (ks: seq<string>)
    ensures |ks| == |ms|
    ensures forall i :: 0 <= i < |ms| ==> ks[i] == ms[i].key
  {
    seq(|ms|, i requires 0 <= i < |ms| => ms[i].key)
  }

  /** A well-formed dict: no key occurs twice. */
  predicate UniqueKeys(ms: seq<Member>) {
    forall i, j :: 0 <= i < j < |ms| ==> ms[i].key != ms[j].key
  }

  /** `d[k]` when `k in d`, as an Option. */
  function Lookup(ms: seq<Member>, k: string): (r: Option<Value>)
    ensures r.None? <==> k !in Keys(ms)
    ensures r.Some? ==> exists i :: 0 <= i < |ms| && ms[i] == Member(k, r.value)
  {
    if ms == [] then None
    else if ms[0].key == k then Some(ms[0].value)
    else Lookup(ms[1..], k)
  }

  /** Python's `d.get(k)`: None when the key is absent. */
  function Get(ms: seq<Member>, k: string): Value {
    match Lookup(ms, k)
    case Some(v) => v
    case None => Null
  }

  /** A string parameter that may be None, as a JSON value. */
  function OptStr(o: Option<string>): Value {
    if o.Some? then Str(o.value) else Null
  }

  /** A bool parameter that may be None, as a JSON value. */
  function OptBool(o: Option<bool>): Value {
    if o.Some? then Bool(o.value) else Null
  }

  /** The dict a value stands for when code treats a falsy or non-dict value
      as `{}` (the `if request: ... else: {}` guards). */
  function AsDict(v: Value): seq<Member> {
    if v.Object? then v.members else []
  }

  /** Python's `del d[k]`: the member with that key is dropped, the others
      keep their order. */
  function Delete(ms: seq<Member>, k: string): (r: seq<Member>)
    ensures Lookup(r, k) == None
    ensures |r| <= |ms|
  {
    if ms == [] then []
    else if ms[0].key == k then Delete(ms[1..], k)
    else [ms[0]] + Delete(ms[1..], k)
  }

  /** Deleting one key leaves every other key's entry as it was. */
  lemma {:induction false} DeleteOthers(ms: seq<Member>, k: string, k': string)
    requires k' != k
    ensures Lookup(Delete(ms, k), k') == Lookup(ms, k')
  {
    if ms != [] {
      DeleteOthers(ms[1..], k, k');
    }
  }

  /** Python's `d[k] = v`: an existing key keeps its position and takes the
      new value, a new key is appended. */
  function Put(ms: seq<Member>, k: string, v: Value): (r: seq<Member>)
    ensures Lookup(r, k) == Some(v)
  {
    if ms == [] then [Member(k, v)]
    else if ms[0].key == k then [Member(k, v)] + ms[1..]
    else [ms[0]] + Put(ms[1..], k, v)
  }

  /** Reassigning a key leaves every position's key where it was. */
  lemma {:induction false} PutSameKeys(ms: seq<Member>, k: string, v: Value)
    requires k in Keys(ms)
    ensures |Put(ms, k, v)| == |ms|
    ensures forall i :: 0 <= i < |ms| ==> Put(ms, k, v)[i].key == ms[i].key
  {
    if ms[0].key != k {
      assert k in Keys(ms[1..]) by {
        var j :| 0 <= j < |ms| && ms[j].key == k;
        assert ms[1..][j - 1].key == k;
      }
      PutSameKeys(ms[1..], k, v);
    }
  }

  /** An existing key keeps its position; a new key is appended. */
  lemma PutKeys(ms: seq<Member>, k: string, v: Value)
    ensures k in Keys(ms) ==> Keys(Put(ms, k, v)) == Keys(ms)
    ensures k !in Keys(ms) ==> Keys(Put(ms, k, v)) == Keys(ms) + [k]
  {
    if k in Keys(ms) {
      PutSameKeys(ms, k, v);
    } else {
      PutNew(ms, k, v);
    }
  }

  /** Assigning one key leaves every other key's entry as it was. */
  lemma {:induction false} PutOthers(ms: seq<Member>, k: string, v: Value, k': string)
    requires k' != k
    ensures Lookup(Put(ms, k, v), k') == Lookup(ms, k')
  {
    if ms != [] && ms[0].key != k {
      PutOthers(ms[1..], k, v, k');
    }
  }

  /** Looking any key up after an assignment. */
  lemma PutLookup(ms: seq<Member>, k: string, v: Value, k': string)
    ensures Lookup(Put(ms, k, v), k') == if k' == k then Some(v) else Lookup(ms, k')
  {
    if k' != k {
      PutOthers(ms, k, v, k');
    }
  }

  /** Assignment keeps a dict free of repeated keys. */
  lemma PutUnique(ms: seq<Member>, k: string, v: Value)
    requires UniqueKeys(ms)
    ensures UniqueKeys(Put(ms, k, v))
  {
    var r := Put(ms, k, v);
    if k in Keys(ms) {
      PutSameKeys(ms, k, v);
    } else {
      PutNew(ms, k, v);
      forall i, j | 0 <= i < j < |r| ensures r[i].key != r[j].key {
        if j == |ms| {
          assert Keys(ms)[i] == r[i].key;
        }
      }
    }
  }


  /** The numeric value of a bool or an int (Python: True == 1). */
  function Number(v: Value): int
    requires v.Bool? || v.Int?
  {
    if v.Bool? then (if v.b then 1 else 0) else v.i
  }

  /** Python's `==` on these values: bools compare equal to the ints 0 and 1,
      lists element by element, dicts by key set and value per key, whatever
      the insertion order. */
  predicate PyEq(a: Value, b: Value)
    decreases a
  {
    match a
    case Null => b.Null?
    case Bool(_) => (b.Bool? || b.Int?) && Number(a) == Number(b)
    case Int(_) => (b.Bool? || b.Int?) && Number(a) == Number(b)
    case Str(x) => b.Str? && b.s == x
    case List(xs) =>
      && b.List? && |xs| == |b.items|
      && forall i :: 0 <= i < |xs| ==> PyEq(xs[i], b.items[i])
    case Object(ms) =>
      && b.Object?
      && (set k | k in Keys(ms)) == (set k | k in Keys(b.members))
      && forall i :: 0 <= i < |ms| ==> PyEq(ms[i].value, Get(b.members, ms[i].key))
  }

  /** Every well-formed value is equal to itself under Python's `==`. */
  lemma {:induction false} PyEqReflexive(a: Value)
    requires WellFormed(a)
    ensures PyEq(a, a)
  {
    match a
    case List(xs) =>
      forall i | 0 <= i < |xs| ensures PyEq(xs[i], xs[i]) {
        PyEqReflexive(xs[i]);
      }
    case Object(ms) =>
      forall i | 0 <= i < |ms| ensures PyEq(ms[i].value, Get(ms, ms[i].key)) {
        LookupUnique(ms, i);
        PyEqReflexive(ms[i].value);
      }
    case _ =>
  }

  /** In a dict without repeated keys, looking up a member's key finds it. */
  lemma {:induction false} LookupUnique(ms: seq<Member>, i: nat)
    requires UniqueKeys(ms) && i < |ms|
    ensures Lookup(ms, ms[i].key) == Some(ms[i].value)
  {
    if i > 0 {
      LookupUnique(ms[1..], i - 1);
    }
  }

  /** A prefix of a dict with no repeated key has none either. */
  lemma UniquePrefix(ms: seq<Member>, n: nat)
    requires UniqueKeys(ms) && n <= |ms|
    ensures UniqueKeys(ms[..n])
  {
    forall i, j | 0 <= i < j < n ensures ms[..n][i].key != ms[..n][j].key {
      assert ms[..n][i] == ms[i] && ms[..n][j] == ms[j];
    }
  }

  /** Looking a key up in a dict with one more member at the end. */
  lemma {:induction false} LookupSnoc(ms: seq<Member>, m: Member, k: string)
    ensures Lookup(ms + [m], k) ==
      if Lookup(ms, k).Some? then Lookup(ms, k) else if m.key == k then Some(m.value) else None
  {
    if ms != [] {
      assert (ms + [m])[0] == ms[0];
      if ms[0].key != k {
        assert (ms + [m])[1..] == ms[1..] + [m];
        LookupSnoc(ms[1..], m, k);
      }
    }
  }

  /** In a dict with no repeated key, the last key occurs nowhere before. */
  lemma LastKeyFresh(ms: seq<Member>)
    requires ms != [] && UniqueKeys(ms)
    ensures ms[|ms| - 1].key !in Keys(ms[..|ms| - 1])
  {
    var front := ms[..|ms| - 1];
    forall j | 0 <= j < |front| ensures Keys(front)[j] != ms[|ms| - 1].key {
      assert front[j] == ms[j];
    }
  }

  /** Dicts at every depth have unique keys, as Python dicts do. */
  predicate WellFormed(a: Value)
    decreases a
  {
    match a
    case List(xs) => forall i :: 0 <= i < |xs| ==> WellFormed(xs[i])
    case Object(ms) => UniqueKeys(ms) && forall i :: 0 <= i < |ms| ==> WellFormed(ms[i].value)
    case _ => true
  }

  /** Assigning a key the dict does not have yet appends it. */
  lemma {:induction false} PutNew(ms: seq<Member>, k: string, v: Value)
    requires k !in Keys(ms)
    ensures Put(ms, k, v) == ms + [Member(k, v)]
  {
    if ms != [] {
      NotInTail(ms, k);
      PutNew(ms[1..], k, v);
      AppendAfterHead(ms, Member(k, v));
    }
  }

  /** Appending to the tail of a non-empty sequence appends to the whole. */
  lemma AppendAfterHead(ms: seq<Member>, m: Member)
    requires ms != []
    ensures [ms[0]] + (ms[1..] + [m]) == ms + [m]
  {
    assert ms == [ms[0]] + ms[1..];
  }

  /** A key missing from a dict is missing from its first entry and from the rest. */
  lemma NotInTail(ms: seq<Member>, k: string)
    requires ms != [] && k !in Keys(ms)
    ensures ms[0].key != k && k !in Keys(ms[1..])
  {
    assert Keys(ms)[0] == ms[0].key;
    forall i | 0 <= i < |ms| - 1 ensures Keys(ms[1..])[i] != k {
      assert Keys(ms[1..])[i] == Keys(ms)[i + 1];
    }
  }

  /** Each member of `Put(acc, k, w)` is either the new one or an old one. */
  lemma {:induction false} PutMembers(acc: seq<Member>, k: string, w: Value, i: nat)
    requires i < |Put(acc, k, w)|
    ensures Put(acc, k, w)[i] == Member(k, w) || Put(acc, k, w)[i] in acc
  {
    if acc != [] && acc[0].key != k && i > 0 {
      PutMembers(acc[1..], k, w, i - 1);
    }
  }

  /** The members assigned one after another, as a loop of `d[k] = v` does. */
  function PutAll(acc: seq<Member>, ms: seq<Member>): seq<Member> {
    if ms == [] then acc
    else Put(PutAll(acc, ms[..|ms| - 1]), ms[|ms| - 1].key, ms[|ms| - 1].value)
  }

  /** One more assignment at the end of the loop. */
  lemma PutAllSnoc(acc: seq<Member>, ms: seq<Member>, m: Member)
    ensures PutAll(acc, ms + [m]) == Put(PutAll(acc, ms), m.key, m.value)
  {
    assert (ms + [m])[..|ms|] == ms;
  }

  /** Assignments keep a dict free of repeated keys. */
  lemma {:induction false} PutAllUnique(acc: seq<Member>, ms: seq<Member>)
    requires UniqueKeys(acc)
    ensures UniqueKeys(PutAll(acc, ms))
  {
    if ms != [] {
      PutAllUnique(acc, ms[..|ms| - 1]);
      PutUnique(PutAll(acc, ms[..|ms| - 1]), ms[|ms| - 1].key, ms[|ms| - 1].value);
    }
  }

  /** Every member after the assignments was in the dict or was assigned. */
  lemma {:induction false} PutAllMembers(acc: seq<Member>, ms: seq<Member>, i: nat)
    requires i < |PutAll(acc, ms)|
    ensures PutAll(acc, ms)[i] in acc || PutAll(acc, ms)[i] in ms
  {
    if ms != [] {
      var front := ms[..|ms| - 1];
      var m := ms[|ms| - 1];
      PutMembers(PutAll(acc, front), m.key, m.value, i);
      if PutAll(acc, ms)[i] != Member(m.key, m.value) {
        var j :| 0 <= j < |PutAll(acc, front)| && PutAll(acc, front)[j] == PutAll(acc, ms)[i];
        PutAllMembers(acc, front, j);
      }
    }
  }

  /** A key that is never assigned keeps its old entry. */
  lemma {:induction false} PutAllAbsent(acc: seq<Member>, ms: seq<Member>, k: string)
    requires k !in Keys(ms)
    ensures Lookup(PutAll(acc, ms), k) == Lookup(acc, k)
  {
    if ms != [] {
      assert Keys(ms[..|ms| - 1]) == Keys(ms)[..|ms| - 1];
      PutAllAbsent(acc, ms[..|ms| - 1], k);
      PutOthers(PutAll(acc, ms[..|ms| - 1]), ms[|ms| - 1].key, ms[|ms| - 1].value, k);
    }
  }

  /** A key assigned at least once, always with the same value, ends up
      with that value. */
  lemma {:induction false} PutAllAssigned(acc: seq<Member>, ms: seq<Member>, k: string, v: Value)
    requires k in Keys(ms)
    requires forall i :: 0 <= i < |ms| && ms[i].key == k ==> ms[i].value == v
    ensures Lookup(PutAll(acc, ms), k) == Some(v)
  {
    var front := ms[..|ms| - 1];
    var m := ms[|ms| - 1];
    if m.key != k {
      assert k in Keys(front) by {
        var i :| 0 <= i < |ms| && ms[i].key == k;
        assert front[i].key == k;
      }
      PutAllAssigned(acc, front, k, v);
      PutOthers(PutAll(acc, front), m.key, m.value, k);
    }
  }

  /** Assigning distinct new keys appends them in order. */
  lemma {:induction false} PutAllFresh(acc: seq<Member>, ms: seq<Member>)
    requires UniqueKeys(acc + ms)
    ensures PutAll(acc, ms) == acc + ms
  {
    if ms != [] {
      var front := ms[..|ms| - 1];
      var m := ms[|ms| - 1];
      assert acc + ms == (acc + front) + [m];
      assert UniqueKeys(acc + front) by {
        forall i, j | 0 <= i < j < |acc + front| ensures (acc + front)[i].key != (acc + front)[j].key {
          assert (acc + front)[i] == (acc + ms)[i] && (acc + front)[j] == (acc + ms)[j];
        }
      }
      PutAllFresh(acc, front);
      assert m.key !in Keys(acc + front) by {
        forall i | 0 <= i < |acc + front| ensures (acc + front)[i].key != m.key {
          assert (acc + front)[i] == (acc + ms)[i] && m == (acc + ms)[|acc + ms| - 1];
        }
      }
      PutNew(acc + front, m.key, m.value);
    }
  }

  /** The value at a path of dict keys, None where a key is missing (the
      reading of the GCP helper navigate_hash used here). */
  function GetPath(v: Value, path: seq<string>): (r: Value)
    ensures path == [] ==> r == v
    ensures |path| == 1 ==> r == Get(AsDict(v), path[0])
    decreases |path|
  {
    if path == [] then v else GetPath(Get(AsDict(v), path[0]), path[1..])
  }
}
