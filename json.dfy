/** JSON documents at the level the configuration code works with them: a tree
    of values whose objects are maps. Byte encoding, indentation and number
    formatting are below this level. */
module Json {

  datatype Value =
    | Null
    | Bool(b: bool)
    | Num(n: int)
    | Str(s: string)
    | Arr(items: seq<Value>)
    | Obj(fields: map<string, Value>)

  /** A top-level JSON object. */
  type Doc = map<string, Value>

  /** What reading and decoding a settings file yields. A file holding `null`
      reads like `{}` everywhere in the modelled code and is `Parsed(map[])`. */
  datatype FileState =
    | Missing                    // the file does not exist
    | Unreadable(reason: string) // it exists but cannot be read
    | Invalid(reason: string)    // not JSON, or JSON whose top level is not an object
    | Parsed(doc: Doc)

  /** A `[]string` as a JSON array of strings. */
  function StrArray(ss: seq<string>): (v: Value)
    ensures v.Arr? && |v.items| == |ss|
    ensures forall i :: 0 <= i < |ss| ==> v.items[i] == Str(ss[i])
  {
    Arr(seq(|ss|, i requires 0 <= i < |ss| => Str(ss[i])))
  }

  /** A `map[string]string` as a JSON object of strings. */
  function StrObject(m: map<string, string>): (v: Value)
    ensures v.Obj? && v.fields.Keys == m.Keys
    ensures forall k :: k in m ==> v.fields[k] == Str(m[k])
  {
    Obj(map k | k in m :: Str(m[k]))
  }
}
