/**
 * A parsed JSON value, and the property access the source performs on values of
 * unknown shape (`x?.key`, `x?.[0]`, `typeof`, `Array.isArray`).
 */
module Json {
  import opened Common

  /** A JSON value. An object keeps its members in text order, duplicates included. */
  datatype Json =
    | JNull
    | JBool(b: bool)
    | JNum(n: real)
    | JStr(s: string)
    | JArr(items: seq<Json>)
    | JObj(fields: seq<(string, Json)>)

  /** The value of the last member named `key` (the one `JSON.parse` keeps), if any. */
  function Lookup(fields: seq<(string, Json)>, key: string): (r: Option<Json>)
    ensures r.Some? <==> exists i :: 0 <= i < |fields| && fields[i].0 == key
    ensures r.Some? ==> exists i :: 0 <= i < |fields| && fields[i] == (key, r.value)
  {
    if fields == [] then None
    else if fields[|fields| - 1].0 == key then Some(fields[|fields| - 1].1)
    else
      var r := Lookup(fields[..|fields| - 1], key);
      assert forall i :: 0 <= i < |fields| - 1 ==> fields[..|fields| - 1][i] == fields[i];
      r
  }

  /**
   * `x?.key`: the member of an object, and `undefined` (`None`) for anything else.
   * Arrays and strings have no members with the names the source reads.
   */
  function Get(x: Option<Json>, key: string): (r: Option<Json>)
    ensures r.Some? ==> x.Some? && x.value.JObj?
  {
    match x
    case Some(JObj(fields)) => Lookup(fields, key)
    case _ => None
  }

  /** `x?.[0]`: the first element of an array, the member "0" of an object, otherwise `undefined`. */
  function First(x: Option<Json>): (r: Option<Json>)
    ensures x.Some? && x.value.JArr? && x.value.items != [] ==> r == Some(x.value.items[0])
    ensures r.Some? ==> x.Some? && (x.value.JArr? || x.value.JObj?)
  {
    match x
    case Some(JArr(items)) => if items == [] then None else Some(items[0])
    case Some(JObj(fields)) => Lookup(fields, "0")
    case _ => None
  }

  /** A later member with the same name hides an earlier one. */
  lemma LookupLastWins(fields: seq<(string, Json)>, key: string, v: Json)
    ensures Lookup(fields + [(key, v)], key) == Some(v)
  {
  }

  /** A member named `key` followed only by members with other names is the one `Lookup` finds. */
  lemma {:induction false} LookupLastMember(before: seq<(string, Json)>, key: string, v: Json, after: seq<(string, Json)>)
    requires forall i :: 0 <= i < |after| ==> after[i].0 != key
    ensures Lookup(before + [(key, v)] + after, key) == Some(v)
    decreases |after|
  {
    var fs := before + [(key, v)] + after;
    if after == [] {
      assert fs == before + [(key, v)];
      LookupLastWins(before, key, v);
    } else {
      var rest := after[..|after| - 1];
      assert fs[..|fs| - 1] == before + [(key, v)] + rest;
      assert fs[|fs| - 1] == after[|after| - 1];
      LookupLastMember(before, key, v, rest);
    }
  }

  /** `String(v)` of a parsed JSON value; how a number is written is given. */
  function Text(v: Json, numberText: real -> string): string
    decreases v
  {
    match v
    case JNull => "null"
    case JBool(b) => if b then "true" else "false"
    case JNum(n) => numberText(n)
    case JStr(s) => s
    case JArr(items) => ArrayText(items, numberText)
    case JObj(_) => "[object Object]"
  }

  /** `Array.prototype.join(",")`: null elements are written as nothing. */
  function ArrayText(items: seq<Json>, numberText: real -> string): string
    decreases items
  {
    if items == [] then ""
    else
      (if items[0].JNull? then "" else Text(items[0], numberText))
      + (if |items| > 1 then "," + ArrayText(items[1..], numberText) else "")
  }
}
