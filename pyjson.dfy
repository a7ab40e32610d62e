/** Python's view of a decoded JSON document: the values `json.loads`
    produces and the few built-in operations the extractor applies to them
    (truthiness, `dict.get`, `d[key]`, `v[0]`, iteration, item assignment). */
module PyJson {
  import opened Wrappers

  /** A JSON value as Python holds it. An object is a `dict`, kept as its
      member list in insertion order; the keys of a real `dict` are distinct
      (see `IsDict`). */
  datatype Json =
    | JNull
    | JBool(b: bool)
    | JInt(i: int)
    | JString(s: string)
    | JArray(items: seq<Json>)
    | JObject(members: seq<(string, Json)>)

  type Dict = seq<(string, Json)>

  /** The built-in exceptions that field access and iteration can raise. */
  datatype PyExc = KeyError | IndexError | TypeError | AttributeError | ValueError

  /** Python's `bool(v)`: None, False, 0 and empty containers are false. */
  predicate Truthy(j: Json): (t: bool)
    ensures !t <==> (j == JNull || j == JBool(false) || j == JInt(0)
                     || j == JString("") || j == JArray([]) || j == JObject([]))
  {
    match j
    case JNull => false
    case JBool(b) => b
    case JInt(i) => i != 0
    case JString(s) => s != ""
    case JArray(items) => items != []
    case JObject(members) => members != []
  }

  /** Whether `k` is a key of `d`. */
  predicate HasKey(d: Dict, k: string) {
    d != [] && (d[0].0 == k || HasKey(d[1..], k))
  }

  /** A member list that a Python dict can have: no key twice. */
  predicate IsDict(d: Dict) {
    d == [] || (!HasKey(d[1..], d[0].0) && IsDict(d[1..]))
  }

  /** The value stored under `k`, if any (the first member with that key). */
  function Lookup(d: Dict, k: string): (r: Option<Json>)
    ensures r.None? <==> !HasKey(d, k)
  {
    if d == [] then None
    else if d[0].0 == k then Some(d[0].1)
    else Lookup(d[1..], k)
  }

  /** `d.get(k)`: the stored value, or None when the key is absent. */
  function Get(d: Dict, k: string): (v: Json)
    ensures !HasKey(d, k) ==> v == JNull
    ensures HasKey(d, k) ==> Lookup(d, k) == Some(v)
  {
    match Lookup(d, k)
    case Some(v) => v
    case None => JNull
  }

  /** `v[key]` for a string key: a dict lookup; any other value is not
      subscriptable by a string. */
  function Subscript(j: Json, key: string): (r: Result<Json, PyExc>)
    ensures r.Success? <==> j.JObject? && HasKey(j.members, key)
    ensures r.Success? ==> Lookup(j.members, key) == Some(r.value)
    ensures r.Failure? ==> r.error == (if j.JObject? then KeyError else TypeError)
  {
    match j
    case JObject(members) =>
      (match Lookup(members, key)
       case Some(v) => Success(v)
       case None => Failure(KeyError))
    case _ => Failure(TypeError)
  }

  /** `v[0]`: the first item of a list or the first character of a string;
      a dict has no integer key (JSON keys are strings), and None, booleans
      and numbers are not subscriptable. */
  function First(j: Json): (r: Result<Json, PyExc>)
    ensures r.Success? <==> (j.JArray? && j.items != []) || (j.JString? && j.s != "")
    ensures j.JArray? && j.items != [] ==> r == Success(j.items[0])
    ensures j.JString? && j.s != "" ==> r == Success(JString([j.s[0]]))
    ensures (j.JArray? || j.JString?) && r.Failure? ==> r.error == IndexError
    ensures j.JObject? ==> r == Failure(KeyError)
    ensures !(j.JArray? || j.JString? || j.JObject?) ==> r == Failure(TypeError)
  {
    match j
    case JArray(items) => if items == [] then Failure(IndexError) else Success(items[0])
    case JString(s) => if s == "" then Failure(IndexError) else Success(JString([s[0]]))
    case JObject(_) => Failure(KeyError)
    case _ => Failure(TypeError)
  }

  /** The strings `for c in s` yields: one-character strings. */
  function Chars(s: string): (r: seq<Json>)
    ensures |r| == |s|
    ensures forall i :: 0 <= i < |s| ==> r[i] == JString([s[i]])
  {
    if s == "" then [] else [JString([s[0]])] + Chars(s[1..])
  }

  /** The values `for x in v` yields: the items of a list, the keys of a
      dict, the characters of a string; other values are not iterable. */
  function Iterate(j: Json): (r: Result<seq<Json>, PyExc>)
    ensures r.Failure? <==> !(j.JArray? || j.JObject? || j.JString?)
    ensures r.Failure? ==> r.error == TypeError
    ensures j.JArray? ==> r == Success(j.items)
    ensures j.JObject? ==> (r.Success? && |r.value| == |j.members|
      && forall i :: 0 <= i < |j.members| ==> r.value[i] == JString(j.members[i].0))
    ensures j.JString? ==> r == Success(Chars(j.s))
  {
    match j
    case JArray(items) => Success(items)
    case JObject(members) =>
      Success(seq(|members|, i requires 0 <= i < |members| => JString(members[i].0)))
    case JString(s) => Success(Chars(s))
    case _ => Failure(TypeError)
  }

  /** `d[k] = v`: an existing key keeps its position and takes the new
      value; a new key is appended. */
  function SetItem(d: Dict, k: string, v: Json): (r: Dict)
    ensures Lookup(r, k) == Some(v)
    ensures !HasKey(d, k) ==> r == d + [(k, v)]
  {
    if d == [] then [(k, v)]
    else if d[0].0 == k then [(k, v)] + d[1..]
    else
      var tail := SetItem(d[1..], k, v);
      assert !HasKey(d, k) ==> [d[0]] + tail == d + [(k, v)] by {
        if !HasKey(d, k) {
          assert [d[0]] + (d[1..] + [(k, v)]) == d + [(k, v)];
        }
      }
      [d[0]] + tail
  }

  /** Appending a member adds exactly its key. */
  lemma {:induction false} HasKeyAppend(d: Dict, k: string, v: Json, k': string)
    ensures HasKey(d + [(k, v)], k') <==> HasKey(d, k') || k' == k
  {
    if d != [] {
      assert (d + [(k, v)])[1..] == d[1..] + [(k, v)];
      HasKeyAppend(d[1..], k, v, k');
    }
  }

  /** Assigning two new keys in turn appends them in that order. */
  lemma SetTwoNewItems(d: Dict, k1: string, v1: Json, k2: string, v2: Json)
    requires !HasKey(d, k1) && !HasKey(d, k2) && k1 != k2
    ensures SetItem(SetItem(d, k1, v1), k2, v2) == d + [(k1, v1), (k2, v2)]
  {
    var w := SetItem(d, k1, v1);
    assert w == d + [(k1, v1)];
    assert !HasKey(w, k2) by {
      HasKeyAppend(d, k1, v1, k2);
    }
    assert d + [(k1, v1)] + [(k2, v2)] == d + [(k1, v1), (k2, v2)];
  }

  /** A dict stays a dict when a new key is appended. */
  lemma {:induction false} IsDictAppend(d: Dict, k: string, v: Json)
    requires IsDict(d) && !HasKey(d, k)
    ensures IsDict(d + [(k, v)])
  {
    if d != [] {
      assert (d + [(k, v)])[1..] == d[1..] + [(k, v)];
      IsDictAppend(d[1..], k, v);
      HasKeyAppend(d[1..], k, v, d[0].0);
    }
  }

  /** In a dict, every member is what looking up its key finds. */
  lemma {:induction false} LookupMember(d: Dict, i: nat)
    requires IsDict(d) && i < |d|
    ensures Lookup(d, d[i].0) == Some(d[i].1)
  {
    if i > 0 {
      assert d[i] == d[1..][i - 1];
      HasKeyAt(d[1..], i - 1);
      LookupMember(d[1..], i - 1);
    }
  }

  /** The key of every member is a key of the dict. */
  lemma {:induction false} HasKeyAt(d: Dict, i: nat)
    requires i < |d|
    ensures HasKey(d, d[i].0)
  {
    if i > 0 {
      assert d[i] == d[1..][i - 1];
      HasKeyAt(d[1..], i - 1);
    }
  }

  /** A key that no member carries is not a key of the dict. */
  lemma {:induction false} NoKey(d: Dict, k: string)
    requires forall i :: 0 <= i < |d| ==> d[i].0 != k
    ensures !HasKey(d, k)
  {
    if d != [] {
      assert forall i :: 0 <= i < |d[1..]| ==> d[1..][i] == d[i + 1];
      NoKey(d[1..], k);
    }
  }

  /** Member lists whose keys are pairwise distinct are dicts. */
  lemma {:induction false} DistinctKeys(d: Dict)
    requires forall i, j :: 0 <= i < j < |d| ==> d[i].0 != d[j].0
    ensures IsDict(d)
  {
    if d != [] {
      assert forall i :: 0 <= i < |d[1..]| ==> d[1..][i] == d[i + 1];
      NoKey(d[1..], d[0].0);
      DistinctKeys(d[1..]);
    }
  }

  /** Members appended after a key do not change what looking it up finds. */
  lemma {:induction false} LookupPrefix(d: Dict, e: Dict, k: string)
    requires HasKey(d, k)
    ensures Lookup(d + e, k) == Lookup(d, k)
  {
    if d[0].0 != k {
      assert (d + e)[1..] == d[1..] + e;
      LookupPrefix(d[1..], e, k);
    }
  }

  /** Appending two new, distinct keys to a dict keeps it a dict and keeps
      what every earlier key finds. */
  lemma AppendTwo(d: Dict, k1: string, v1: Json, k2: string, v2: Json)
    requires IsDict(d) && !HasKey(d, k1) && !HasKey(d, k2) && k1 != k2
    ensures IsDict(d + [(k1, v1), (k2, v2)])
    ensures forall k :: HasKey(d, k) ==> Lookup(d + [(k1, v1), (k2, v2)], k) == Lookup(d, k)
  {
    var w := d + [(k1, v1)];
    assert d + [(k1, v1), (k2, v2)] == w + [(k2, v2)];
    IsDictAppend(d, k1, v1);
    HasKeyAppend(d, k1, v1, k2);
    IsDictAppend(w, k2, v2);
    forall k | HasKey(d, k)
      ensures Lookup(d + [(k1, v1), (k2, v2)], k) == Lookup(d, k)
    {
      LookupPrefix(d, [(k1, v1), (k2, v2)], k);
    }
  }

  /** Looking up a key other than the first member's skips that member. */
  lemma LookupSkip(k: string, v: Json, rest: Dict, k': string)
    requires k' != k
    ensures Lookup([(k, v)] + rest, k') == Lookup(rest, k')
  {
    assert ([(k, v)] + rest)[1..] == rest;
  }
}
