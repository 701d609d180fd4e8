/** Data shown on screen: parsed JSON, plus the values JSON has no text for. */
module Json {

  /** `Obj` lists the own enumerable members in property order. `Opaque` is a function, symbol or bigint;
      `text` is what `String(value)` prints for it. */
  datatype Json =
    | Null
    | Undefined
    | Bool(b: bool)
    | Num(n: real)
    | Str(s: string)
    | Arr(items: seq<Json>)
    | Obj(members: seq<(string, Json)>)
    | Opaque(text: string)

  /** The keys of a member list, in order. */
  function Keys(members: seq<(string, Json)>): seq<string> {
    seq(|members|, i requires 0 <= i < |members| => members[i].0)
  }

  predicate Distinct(keys: seq<string>) {
    forall i, j :: 0 <= i < j < |keys| ==> keys[i] != keys[j]
  }
}
