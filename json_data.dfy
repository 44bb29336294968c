/** JSON values, used where the source stores or returns free-form dictionaries. */
module JsonData {

  import opened Wrappers

  datatype Json =
    | JNull
    | JBool(b: bool)
    | JNum(n: real)
    | JStr(s: string)
    | JArr(items: seq<Json>)
    | JObj(fields: map<string, Json>)

  /** The JSON value of an optional string: `null` for None. */
  function OptStr(o: Option<string>): Json {
    match o
    case None => JNull
    case Some(s) => JStr(s)
  }

  /** The JSON value of an optional number: `null` for None. */
  function OptNum(o: Option<real>): Json {
    match o
    case None => JNull
    case Some(n) => JNum(n)
  }

  /** A JSON array of strings. */
  function StrList(ss: seq<string>): (j: Json)
    ensures j.JArr? && |j.items| == |ss|
  {
    JArr(seq(|ss|, i requires 0 <= i < |ss| => JStr(ss[i])))
  }

}
