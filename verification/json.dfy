/** The conventional Some/None datatype, standing in for JavaScript's null and undefined. */
module Wrappers {
  datatype Option<+T> = None | Some(value: T)
}

/**
 * Parsed JSON values as the signaling code sees them after `JSON.parse`.
 * Both the relay and the viewer only read a few fields (`type`, `target`,
 * `clientId`, `answer`, `candidate`) and copy everything else untouched.
 */
module Json {
  import opened Wrappers

  datatype Value =
    | Null
    | Bool(b: bool)
    | Num(n: real)
    | Str(s: string)
    | Arr(items: seq<Value>)
    | Obj(fields: map<string, Value>)

  /** `v.key`: a field of an object; anything else reads as undefined (None). */
  function Get(v: Value, key: string): Option<Value>
  {
    if v.Obj? && key in v.fields then Some(v.fields[key]) else None
  }

  /** JavaScript truthiness of a possibly undefined value. */
  predicate Truthy(v: Option<Value>)
    ensures Truthy(v) ==> v.Some? && v.value != Null
    ensures v.Some? && (v.value.Obj? || v.value.Arr?) ==> Truthy(v)
    ensures v == Some(Bool(false)) || v == Some(Num(0.0)) || v == Some(Str("")) ==> !Truthy(v)
  {
    match v
    case None => false
    case Some(Null) => false
    case Some(Bool(b)) => b
    case Some(Num(n)) => n != 0.0
    case Some(Str(s)) => s != ""
    case Some(_) => true
  }

  /** The message kind a `switch (message.type)` compares against string literals. */
  function TypeOf(v: Value): Option<string>
  {
    match Get(v, "type")
    case Some(Str(t)) => Some(t)
    case _ => None
  }

  /** A message object with only a `type` field, as in `{ type: 'streamer-available' }`. */
  function Message(kind: string): (m: Value)
    ensures TypeOf(m) == Some(kind) && m.fields.Keys == {"type"}
  {
    Obj(map["type" := Str(kind)])
  }
}
