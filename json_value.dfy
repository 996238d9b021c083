/**
 * JSON-like values as the pipeline receives them from its host framework.
 * Dicts and lists are objects with an identity: the media scan remembers them
 * by identity, and a dict may hold itself. Strings, numbers, booleans and
 * None are plain values.
 */
module JsonValue {

  datatype Option<+T> = None | Some(value: T)

  /** A value as the pipeline sees it: a dict or list by reference, or a scalar. */
  datatype Value =
    | Ref(c: Container)   // a dict or a list object
    | Str(s: string)
    | Num(x: real)        // an int or a float
    | Bool(b: bool)
    | Null

  /** What a container holds: a dict's (key, value) entries in insertion order, or a list's items. */
  datatype Shape =
    | Dict(entries: seq<(string, Value)>)
    | List(items: seq<Value>)

  /** A dict or list object. Its contents can be replaced, so it can be made to contain itself. */
  class Container {
    var shape: Shape

    constructor (shape: Shape)
      ensures this.shape == shape
    {
      this.shape := shape;
    }
  }

  /** The values a scan descends into: a dict's values in order, or a list's items. */
  function Children(shape: Shape): seq<Value>
  {
    match shape
    case Dict(entries) => seq(|entries|, i requires 0 <= i < |entries| => entries[i].1)
    case List(items) => items
  }

  /** The position of the entry stored under `key`, the one `dict.get` finds. */
  function Find(entries: seq<(string, Value)>, key: string): (r: Option<nat>)
    ensures r.Some? ==> r.value < |entries| && entries[r.value].0 == key
    ensures r.Some? ==> forall j :: 0 <= j < r.value ==> entries[j].0 != key
    ensures r.None? <==> forall j :: 0 <= j < |entries| ==> entries[j].0 != key
  {
    if |entries| == 0 then None
    else if entries[0].0 == key then Some(0)
    else match Find(entries[1..], key)
      case None => None
      case Some(j) => Some(j + 1)
  }

  /** `dict.get(key)`: the value stored under `key`, or None when the key is absent. */
  function Get(entries: seq<(string, Value)>, key: string): (r: Option<Value>)
    ensures r.None? <==> forall j :: 0 <= j < |entries| ==> entries[j].0 != key
    ensures r.Some? ==> exists j :: 0 <= j < |entries| && entries[j] == (key, r.value)
  {
    match Find(entries, key)
    case None => None
    case Some(j) => Some(entries[j].1)
  }

  /** The containers a value refers to directly. */
  function Refs(v: Value): set<Container>
  {
    if v.Ref? then {v.c} else {}
  }

  /** Python truthiness: an empty str, list or dict, zero, False and None are false. */
  predicate Truthy(v: Value)
    reads Refs(v)
  {
    match v
    case Ref(c) => |Children(c.shape)| > 0
    case Str(s) => s != ""
    case Num(x) => x != 0.0
    case Bool(b) => b
    case Null => false
  }
}
