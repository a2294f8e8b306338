/**
 * Values carried by calendar event bodies and table cells, and the few
 * operations on Python dicts that the clients rely on. A dict is modelled as
 * its entries in insertion order, which is the order Python iterates it in.
 */
module Values {
  import opened Wrappers

  /** A JSON-like scalar or nested value. */
  datatype Value =
    | Null
    | Bool(b: bool)
    | Int(i: int)
    | Str(s: string)
    | List(items: seq<Value>)
    | Object(fields: seq<(string, Value)>)

  /** A Python dict: its (key, value) entries in insertion order. */
  type Dict = seq<(string, Value)>

  predicate Distinct<T(==)>(s: seq<T>) {
    forall i, j :: 0 <= i < j < |s| ==> s[i] != s[j]
  }

  /** Strictly increasing: a list of positions in their original order, none repeated. */
  predicate Increasing(s: seq<nat>) {
    forall i, j :: 0 <= i < j < |s| ==> s[i] < s[j]
  }

  /** `list(d.keys())` */
  function Keys(d: Dict): (ks: seq<string>)
    ensures |ks| == |d|
    ensures forall i :: 0 <= i < |d| ==> ks[i] == d[i].0
  {
    seq(|d|, i requires 0 <= i < |d| => d[i].0)
  }

  /** `list(d.values())` */
  function ValuesOf(d: Dict): (vs: seq<Value>)
    ensures |vs| == |d|
    ensures forall i :: 0 <= i < |d| ==> vs[i] == d[i].1
  {
    seq(|d|, i requires 0 <= i < |d| => d[i].1)
  }

  predicate HasKey(d: Dict, k: string) {
    k in Keys(d)
  }

  /** `d[k]` for a key that is present: the value of its (first) entry. */
  function Lookup(d: Dict, k: string): (v: Value)
    requires HasKey(d, k)
    ensures (k, v) in d
  {
    if d[0].0 == k then d[0].1 else Lookup(d[1..], k)
  }

  /**
   * `d[k] = v`: an existing key keeps its position and takes the new value,
   * a new key is appended.
   */
  function Set(d: Dict, k: string, v: Value): (r: Dict)
    ensures Keys(r) == if HasKey(d, k) then Keys(d) else Keys(d) + [k]
    ensures forall i :: 0 <= i < |r| ==> r[i].1 == if r[i].0 == k then v else d[i].1
  {
    if HasKey(d, k) then
      seq(|d|, i requires 0 <= i < |d| => if d[i].0 == k then (k, v) else d[i])
    else
      d + [(k, v)]
  }

  /**
   * The keys of `s` without repetitions, each at the position of its first
   * occurrence: the key order of a dict built by inserting `s` in order.
   */
  function Dedup(s: seq<string>): (r: seq<string>)
    ensures forall x :: x in r <==> x in s
    ensures Distinct(r)
  {
    if s == [] then []
    else
      var d := Dedup(s[..|s| - 1]);
      var x := s[|s| - 1];
      if x in d then d else d + [x]
  }

  /** The dict comprehension `{p: body[p] for p in props}`; `Err(p)` is Python's KeyError. */
  function Project(body: Dict, props: seq<string>): Result<Dict, string> {
    if props == [] then Ok([])
    else
      var p := props[|props| - 1];
      match Project(body, props[..|props| - 1])
      case Err(missing) => Err(missing)
      case Ok(d) => if HasKey(body, p) then Ok(Set(d, p, Lookup(body, p))) else Err(p)
  }

  /**
   * The comprehension fails exactly when `body` lacks a property, and then
   * with the first such property in `props` order.
   */
  lemma {:induction false} ProjectOkIff(body: Dict, props: seq<string>)
    ensures Project(body, props).Ok? <==> forall p :: p in props ==> HasKey(body, p)
    ensures Project(body, props).Err? ==> exists j :: (0 <= j < |props| && props[j] == Project(body, props).error
      && !HasKey(body, props[j]) && forall i :: 0 <= i < j ==> HasKey(body, props[i]))
  {
    if props != [] {
      var init := props[..|props| - 1];
      var p := props[|props| - 1];
      assert forall q :: q in props <==> q in init || q == p;
      ProjectOkIff(body, init);
      if Project(body, init).Err? {
        var j :| 0 <= j < |init| && init[j] == Project(body, init).error && !HasKey(body, init[j])
          && forall i :: 0 <= i < j ==> HasKey(body, init[i]);
        assert props[j] == init[j];
      }
    }
  }

  /** On success the keys are `props` without repetitions, in first-occurrence order. */
  lemma {:induction false} ProjectKeys(body: Dict, props: seq<string>)
    requires Project(body, props).Ok?
    ensures Keys(Project(body, props).value) == Dedup(props)
  {
    if props != [] {
      var init := props[..|props| - 1];
      var p := props[|props| - 1];
      ProjectKeys(body, init);
      var d := Project(body, init).value;
      assert HasKey(d, p) <==> p in Dedup(init);
    }
  }

  /** On success each entry holds the body's value for its key. */
  lemma {:induction false} ProjectValues(body: Dict, props: seq<string>)
    requires Project(body, props).Ok?
    ensures forall i :: 0 <= i < |Project(body, props).value| ==>
      var (k, v) := Project(body, props).value[i]; HasKey(body, k) && v == Lookup(body, k)
  {
    if props != [] {
      ProjectValues(body, props[..|props| - 1]);
    }
  }

  /** Without repeated keys, the dict's key order is the order given. */
  lemma {:induction false} DedupOfDistinct(s: seq<string>)
    requires Distinct(s)
    ensures Dedup(s) == s
  {
    if s != [] {
      var init := s[..|s| - 1];
      DedupOfDistinct(init);
      assert s[|s| - 1] !in init;
      assert init + [s[|s| - 1]] == s;
    }
  }
}
