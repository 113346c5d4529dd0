/** JSON values as both sides of the host see them: after parsing, before printing. */
module JsonTree {

  /** Object members keep their order; a number is the text it prints as. */
  datatype Json =
    | Null
    | Bool(b: bool)
    | Num(text: string)
    | Str(s: string)
    | Arr(items: seq<Json>)
    | Obj(members: seq<(string, Json)>)
}
