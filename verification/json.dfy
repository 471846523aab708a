/** JSON values as the source sees them after parsing. */
module Json {
  import opened Wrappers

  /** The integers `as_u64` accepts. */
  newtype U64 = n: int | 0 <= n < 0x1_0000_0000_0000_0000

  datatype Value =
    | Null
    | Bool(flag: bool)
    | Whole(count: U64)
    | OtherNumber
    | Str(text: string)
    | Array(items: seq<Value>)
    | Object(fields: map<string, Value>)

  function Get(v: Value, key: string): Option<Value> {
    if v.Object? && key in v.fields then Some(v.fields[key]) else None
  }

  function GetStr(v: Value, key: string): Option<string> {
    match Get(v, key)
    case Some(Str(text)) => Some(text)
    case _ => None
  }

  function GetCount(v: Value, key: string): Option<nat> {
    match Get(v, key)
    case Some(Whole(count)) => Some(count as nat)
    case _ => None
  }

  function CountOrZero(v: Value, key: string): nat {
    match GetCount(v, key)
    case Some(n) => n
    case None => 0
  }

  function GetArray(v: Value, key: string): Option<seq<Value>> {
    match Get(v, key)
    case Some(Array(items)) => Some(items)
    case _ => None
  }

  /** The strings among the items, in order. */
  function Strings(items: seq<Value>): seq<string> {
    if items == [] then []
    else (if items[0].Str? then [items[0].text] else []) + Strings(items[1..])
  }
}
