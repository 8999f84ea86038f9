/** The Python objects that `json.loads` produces, and the few pieces of Python's object
    semantics the enricher applies to them: truthiness, `str()`, `dict.get`, `d[key]`
    and the exceptions those raise. `json.loads` itself is not modelled: it is the
    abstract `Parser`, a total function that answers `None` where Python raises
    `JSONDecodeError`. */
module Json {
  import opened Wrappers
  import opened Text

  /** A decoded JSON value. A number keeps the text Python's `str()` gives for it
      (`"3"`, `"1.5"`, `"-0.0"`, `"inf"`); an object keeps its members in insertion
      order. A Python `dict` has distinct keys; this type does not enforce that, and
      lookups answer the first member with a key. */
  datatype Json =
    | JNull
    | JBool(b: bool)
    | JNum(repr: string)
    | JStr(s: string)
    | JArr(items: seq<Json>)
    | JObj(members: seq<(string, Json)>)

  /** `json.loads` on a `str`: `Some(value)`, or `None` where it raises `JSONDecodeError`. */
  type Parser = string -> Option<Json>

  /** The Python exceptions that cross the modelled code. */
  datatype Exception =
    | ValueError(message: string)
    | RuntimeError(message: string)
    | TypeError(message: string)
    | KeyError(key: string)
    | AttributeError(message: string)
    | TransportError(message: string)  // raised by httpx or the Anthropic SDK, outside the model
    | OSError(message: string)  // `FileNotFoundError`, `PermissionError` and the other failures to start a process

  /** Python's `bool(v)`. */
  predicate Truthy(v: Json) {
    match v
    case JNull => false
    case JBool(b) => b
    case JNum(r) => r != "0" && r != "0.0" && r != "-0.0"
    case JStr(s) => s != ""
    case JArr(items) => items != []
    case JObj(members) => members != []
  }

  /** `type(v).__name__`. */
  function TypeName(v: Json): string {
    match v
    case JNull => "NoneType"
    case JBool(_) => "bool"
    case JNum(r) => if ParseInt(r).Some? then "int" else "float"
    case JStr(_) => "str"
    case JArr(_) => "list"
    case JObj(_) => "dict"
  }

  /** The value stored under `key`, if any. */
  function Lookup(members: seq<(string, Json)>, key: string): (r: Option<Json>)
    ensures r.Some? <==> exists i :: 0 <= i < |members| && members[i].0 == key
    ensures r.Some? ==> exists i :: 0 <= i < |members| && members[i] == (key, r.value)
  {
    if members == [] then None
    else if members[0].0 == key then Some(members[0].1)
    else
      var r := Lookup(members[1..], key);
      assert forall i :: 1 <= i < |members| ==> members[i] == members[1..][i - 1];
      r
  }

  /** Looking a key up in two member lists placed one after the other finds it in the
      first list when it is there. */
  lemma {:induction false} LookupAppend(a: seq<(string, Json)>, b: seq<(string, Json)>, key: string)
    ensures Lookup(a + b, key) == if Lookup(a, key).Some? then Lookup(a, key) else Lookup(b, key)
  {
    if a == [] {
      assert a + b == b;
    } else {
      assert (a + b)[0] == a[0] && (a + b)[1..] == a[1..] + b;
      LookupAppend(a[1..], b, key);
    }
  }

  /** A key in first place is found there. */
  lemma LookupFirst(rest: seq<(string, Json)>, key: string, value: Json)
    ensures Lookup([(key, value)] + rest, key) == Some(value)
  {
    assert ([(key, value)] + rest)[0] == (key, value);
  }

  /** A key that is not in first place is looked up in the rest. */
  lemma LookupSkip(members: seq<(string, Json)>, key: string)
    requires members != [] && members[0].0 != key
    ensures Lookup(members, key) == Lookup(members[1..], key)
  {
  }

  /** `key in d` for a dict `d`. */
  predicate HasKey(v: Json, key: string) {
    v.JObj? && Lookup(v.members, key).Some?
  }

  /** `d.get(key, default)` on a member list. */
  function GetOr(members: seq<(string, Json)>, key: string, default: Json): Json {
    match Lookup(members, key)
    case Some(x) => x
    case None => default
  }

  /** `v.get(key, default)`: only a `dict` has `get`. */
  function Get(v: Json, key: string, default: Json): (r: Result<Json, Exception>)
    ensures r.Ok? <==> v.JObj?
  {
    match v
    case JObj(members) => Ok(GetOr(members, key, default))
    case _ => Err(AttributeError("'" + TypeName(v) + "' object has no attribute 'get'"))
  }

  /** The messages of the `TypeError`s a `str` index raises on a list and on a string. */
  const ListIndexMessage := "list indices must be integers or slices, not str"
  const StrIndexMessage := "string indices must be integers, not 'str'"

  /** `v[key]` with a `str` key. */
  function Index(v: Json, key: string): (r: Result<Json, Exception>)
    ensures r.Ok? <==> HasKey(v, key)
  {
    match v
    case JObj(members) =>
      (match Lookup(members, key)
       case Some(x) => Ok(x)
       case None => Err(KeyError(key)))
    case JArr(_) => Err(TypeError(ListIndexMessage))
    case JStr(_) => Err(TypeError(StrIndexMessage))
    case _ => Err(TypeError("'" + TypeName(v) + "' object is not subscriptable"))
  }

  /** `for item in v`: a list yields its items, a dict its keys, a string its
      one-character strings; any other value raises `TypeError`. */
  function Iterate(v: Json): (r: Result<seq<Json>, Exception>)
    ensures r.Ok? <==> v.JArr? || v.JObj? || v.JStr?
    ensures r.Err? ==> r.error.TypeError?
    ensures v.JArr? ==> r == Ok(v.items)
    ensures v.JObj? ==> r.Ok? && |r.value| == |v.members| && forall i :: 0 <= i < |v.members| ==> r.value[i] == JStr(v.members[i].0)
    ensures v.JStr? ==> r.Ok? && |r.value| == |v.s| && forall i :: 0 <= i < |v.s| ==> r.value[i] == JStr([v.s[i]])
  {
    match v
    case JArr(items) => Ok(items)
    case JObj(members) => Ok(seq(|members|, i requires 0 <= i < |members| => JStr(members[i].0)))
    case JStr(s) => Ok(seq(|s|, i requires 0 <= i < |s| => JStr([s[i]])))
    case _ => Err(TypeError("'" + TypeName(v) + "' object is not iterable"))
  }

  /** Python's `str(v)`, which is also what an f-string placeholder prints. A string
      prints as itself; containers print their `Repr`. */
  function Str(v: Json): string {
    match v
    case JNull => "None"
    case JBool(b) => if b then "True" else "False"
    case JNum(r) => r
    case JStr(s) => s
    case _ => Repr(v)
  }

  /** Python's `repr(v)` for the values inside a container (strings quoted with `'`). */
  function Repr(v: Json): string
    decreases v, 1
  {
    match v
    case JStr(s) => "'" + s + "'"
    case JArr(items) => "[" + Join(ReprItems(items), ", ") + "]"
    case JObj(members) => "{" + Join(ReprMembers(members), ", ") + "}"
    case JNull => "None"
    case JBool(b) => if b then "True" else "False"
    case JNum(r) => r
  }

  function ReprItems(items: seq<Json>): seq<string>
    decreases items
  {
    if items == [] then [] else [Repr(items[0])] + ReprItems(items[1..])
  }

  function ReprMembers(members: seq<(string, Json)>): seq<string>
    decreases members
  {
    if members == [] then []
    else
      var (key, value) := members[0];
      assert value < members[0];
      ["'" + key + "': " + Repr(value)] + ReprMembers(members[1..])
  }
}
