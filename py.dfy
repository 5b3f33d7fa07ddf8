/** The Python values the scripts exchange: JSON-shaped data as `json.loads` and
    `response.json()` produce it, an HTTP reply, and the built-in operators the
    scripts apply to them.  A helper returns None where Python would raise
    (TypeError, AttributeError, KeyError); the callers turn that into their own
    `except` path. */
module Py {
  import opened Wrappers
  import opened Text

  /** A JSON value; an object keeps its members in insertion order, like a dict. */
  datatype Json =
    | JNull
    | JBool(b: bool)
    | JInt(i: int)
    | JStr(s: string)
    | JList(items: seq<Json>)
    | JObj(members: seq<Member>)

  datatype Member = Member(key: string, value: Json)

  /** An HTTP reply: its status code and what `response.json()` gives (None: it raises). */
  datatype Reply = Reply(status: int, body: Option<Json>)

  /** Python truthiness. */
  predicate Truthy(j: Json) {
    match j
    case JNull => false
    case JBool(b) => b
    case JInt(i) => i != 0
    case JStr(s) => |s| > 0
    case JList(items) => |items| > 0
    case JObj(ms) => |ms| > 0
  }

  predicate IsDict(j: Json) { j.JObj? }

  function Keys(ms: seq<Member>): (r: seq<string>)
    ensures |r| == |ms| && forall i :: 0 <= i < |ms| ==> r[i] == ms[i].key
  {
    if |ms| == 0 then [] else [ms[0].key] + Keys(ms[1..])
  }

  /** The value stored under `k`, the first member with that key. */
  function Lookup(ms: seq<Member>, k: string): (r: Option<Json>)
    ensures r.None? <==> k !in Keys(ms)
  {
    if |ms| == 0 then None
    else if ms[0].key == k then Some(ms[0].value)
    else Lookup(ms[1..], k)
  }

  /** Looking up past the first member of an object. */
  lemma LookupCons(m: Member, rest: seq<Member>, k: string)
    ensures Lookup([m] + rest, k) == if m.key == k then Some(m.value) else Lookup(rest, k)
  {
    assert ([m] + rest)[1..] == rest;
  }

  /** Looking up a key in a three-member object with distinct keys finds its own value. */
  lemma LookupThree(k0: string, k1: string, k2: string, v0: Json, v1: Json, v2: Json)
    requires k0 != k1 && k0 != k2 && k1 != k2
    ensures var ms := [Member(k0, v0), Member(k1, v1), Member(k2, v2)];
      Lookup(ms, k0) == Some(v0) && Lookup(ms, k1) == Some(v1) && Lookup(ms, k2) == Some(v2)
  {
    var m0, m1, m2 := Member(k0, v0), Member(k1, v1), Member(k2, v2);
    assert [m0, m1, m2] == [m0] + ([m1] + ([m2] + []));
    LookupCons(m0, [m1] + ([m2] + []), k0);
    LookupCons(m0, [m1] + ([m2] + []), k1);
    LookupCons(m1, [m2] + [], k1);
    LookupCons(m0, [m1] + ([m2] + []), k2);
    LookupCons(m1, [m2] + [], k2);
    LookupCons(m2, [], k2);
  }

  /** Looking up a key in a four-member object with distinct keys finds its own value. */
  lemma LookupFour(k0: string, k1: string, k2: string, k3: string, v0: Json, v1: Json, v2: Json, v3: Json)
    requires k0 != k1 && k0 != k2 && k0 != k3 && k1 != k2 && k1 != k3 && k2 != k3
    ensures var ms := [Member(k0, v0), Member(k1, v1), Member(k2, v2), Member(k3, v3)];
      Lookup(ms, k0) == Some(v0) && Lookup(ms, k1) == Some(v1)
      && Lookup(ms, k2) == Some(v2) && Lookup(ms, k3) == Some(v3)
  {
    var m0, rest := Member(k0, v0), [Member(k1, v1), Member(k2, v2), Member(k3, v3)];
    assert [m0, Member(k1, v1), Member(k2, v2), Member(k3, v3)] == [m0] + rest;
    LookupThree(k1, k2, k3, v1, v2, v3);
    LookupCons(m0, rest, k0);
    LookupCons(m0, rest, k1);
    LookupCons(m0, rest, k2);
    LookupCons(m0, rest, k3);
  }

  /** `d.get(k, dflt)`; None when `d` is not a dict (AttributeError). */
  function Get(d: Json, k: string, dflt: Json): (r: Option<Json>)
    ensures r.Some? <==> d.JObj?
    ensures d.JObj? && k !in Keys(d.members) ==> r == Some(dflt)
  {
    match d
    case JObj(ms) => (match Lookup(ms, k) case Some(v) => Some(v) case None => Some(dflt))
    case _ => None
  }

  /** `d.get(k)` with Python's default None. */
  function Get0(d: Json, k: string): Option<Json> { Get(d, k, JNull) }

  /** `d[k]`; None on a missing key or a non-dict. */
  function Index(d: Json, k: string): (r: Option<Json>)
    ensures r.Some? <==> d.JObj? && k in Keys(d.members)
  {
    match d
    case JObj(ms) => Lookup(ms, k)
    case _ => None
  }

  /** `k in d` for a string `k`: key test on a dict, membership on a list,
      substring test on a string, TypeError (None) otherwise. */
  function HasKey(d: Json, k: string): (r: Option<bool>)
    ensures d.JObj? ==> r == Some(k in Keys(d.members))
    ensures d.JStr? ==> r == Some(Contains(d.s, k))
    ensures r.None? <==> !(d.JObj? || d.JList? || d.JStr?)
  {
    match d
    case JObj(ms) => Some(k in Keys(ms))
    case JList(items) => Some(JStr(k) in items)
    case JStr(s) => Some(Contains(s, k))
    case _ => None
  }

  /** `len(j)`; None when `j` has no length. */
  function Len(j: Json): Option<nat> {
    match j
    case JStr(s) => Some(|s|)
    case JList(items) => Some(|items|)
    case JObj(ms) => Some(|ms|)
    case _ => None
  }

  /** One-character strings, what iterating over a `str` yields. */
  function Chars(s: string): (r: seq<string>)
    ensures |r| == |s| && forall i :: 0 <= i < |s| ==> r[i] == [s[i]]
  {
    seq(|s|, i requires 0 <= i < |s| => [s[i]])
  }

  /** What `for x in j` visits: list items, dict keys, or the characters of a string. */
  function Iter(j: Json): (r: Option<seq<Json>>)
    ensures j.JList? ==> r == Some(j.items)
    ensures r.None? <==> !(j.JList? || j.JObj? || j.JStr?)
  {
    match j
    case JList(items) => Some(items)
    case JObj(ms) => Some(seq(|ms|, i requires 0 <= i < |ms| => JStr(ms[i].key)))
    case JStr(s) => Some(seq(|s|, i requires 0 <= i < |s| => JStr([s[i]])))
    case _ => None
  }

  /** `str(j)`: a string is itself, anything else its `repr`. */
  function PyStr(j: Json): (r: string)
    ensures j.JStr? ==> r == j.s
    ensures j.JNull? ==> r == "None"
  {
    if j.JStr? then j.s else Repr(j)
  }

  /** `repr(j)`; a string is quoted with single quotes, or double quotes when it holds a
      single quote and no double quote. */
  function Repr(j: Json): (r: string)
    ensures j.JList? ==> |r| >= 2 && r[0] == '[' && r[|r| - 1] == ']'
    ensures j.JObj? ==> |r| >= 2 && r[0] == '{' && r[|r| - 1] == '}'
    decreases j
  {
    match j
    case JNull => "None"
    case JBool(b) => if b then "True" else "False"
    case JInt(i) => IntToString(i)
    case JStr(s) => Quote(s)
    case JList(items) => "[" + Join(seq(|items|, k requires 0 <= k < |items| => Repr(items[k])), ", ") + "]"
    case JObj(ms) =>
      "{" + Join(seq(|ms|, k requires 0 <= k < |ms| => Quote(ms[k].key) + ": " + Repr(ms[k].value)), ", ") + "}"
  }

  function Quote(s: string): string {
    if '\'' in s && '"' !in s then "\"" + s + "\"" else "'" + s + "'"
  }

  /** Iterating a dict or a string never yields a dict. */
  lemma IterNonListHasNoDicts(j: Json)
    requires !j.JList? && Iter(j).Some?
    ensures forall x :: x in Iter(j).value ==> !x.JObj?
  {
  }
}
