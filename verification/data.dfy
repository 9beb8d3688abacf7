/** The JSON-like values that `to_data` produces and `from_data` consumes when
    the controller hands action items and validation errors to a UI living in
    another process. */
module Data {
  import opened Base

  datatype Value =
    | Null
    | Bool(b: bool)
    | Str(s: string)
    | List(items: seq<Value>)
    | Dict(entries: map<string, Value>)

  /** A Python `Union[str, None]` field. */
  function OfOptStr(o: Option<string>): (v: Value)
    ensures AsOptStr(v) == Some(o)
  {
    match o
    case None => Null
    case Some(s) => Str(s)
  }

  /** Reads back a `Union[str, None]` field; `None` when the value has another shape. */
  function AsOptStr(v: Value): Option<Option<string>>
  {
    match v
    case Null => Some(None)
    case Str(s) => Some(Some(s))
    case _ => None
  }

  /** Reading a `Union[str, None]` field back and writing it again changes nothing. */
  lemma OptStrBack(v: Value)
    requires AsOptStr(v).Some?
    ensures OfOptStr(AsOptStr(v).value) == v
  {
  }
}
