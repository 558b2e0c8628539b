/** JSON values (RFC 8259) as the application sees them after JSON.parse, and the handful of
    JavaScript idioms it applies to them (property access, optional chaining, truthiness). */
module Json {
  import opened Wrappers

  /** A JSON value. Numbers are exact rationals; object members keep their textual order. */
  datatype Json =
    | JNull
    | JBool(b: bool)
    | JNumber(n: real)
    | JString(s: string)
    | JArray(items: seq<Json>)
    | JObject(fields: seq<(string, Json)>)

  /** The value of the first member called key. */
  function Lookup(fields: seq<(string, Json)>, key: string): (r: Option<Json>)
    ensures r.None? <==> forall i :: 0 <= i < |fields| ==> fields[i].0 != key
    ensures r.Some? ==> (key, r.value) in fields
  {
    if fields == [] then None
    else if fields[0].0 == key then Some(fields[0].1)
    else Lookup(fields[1..], key)
  }

  lemma LookupAt(fields: seq<(string, Json)>, i: nat)
    requires DistinctKeys(fields) && i < |fields|
    ensures Lookup(fields, fields[i].0) == Some(fields[i].1)
  {
    var r := Lookup(fields, fields[i].0);
    assert r.Some?;
    var j :| 0 <= j < |fields| && fields[j] == (fields[i].0, r.value);
    assert j == i;
  }

  /** Distinctness of three or four names, case by case. */
  lemma Distinct3(fields: seq<(string, Json)>)
    requires |fields| == 3 && fields[0].0 != fields[1].0 && fields[0].0 != fields[2].0 && fields[1].0 != fields[2].0
    ensures DistinctKeys(fields)
  {
    forall i, j | 0 <= i < j < |fields| ensures fields[i].0 != fields[j].0 {
      assert i == 0 || i == 1;
      assert j == 1 || j == 2;
    }
  }

  lemma Distinct4(fields: seq<(string, Json)>)
    requires |fields| == 4 && fields[0].0 != fields[1].0 && fields[0].0 != fields[2].0 && fields[0].0 != fields[3].0
    requires fields[1].0 != fields[2].0 && fields[1].0 != fields[3].0 && fields[2].0 != fields[3].0
    ensures DistinctKeys(fields)
  {
    forall i, j | 0 <= i < j < |fields| ensures fields[i].0 != fields[j].0 {
      assert i == 0 || i == 1 || i == 2;
      assert j == 1 || j == 2 || j == 3;
    }
  }

  lemma Members3(fields: seq<(string, Json)>)
    requires |fields| == 3 && WellFormed(fields[0].1) && WellFormed(fields[1].1) && WellFormed(fields[2].1)
    ensures forall i :: 0 <= i < |fields| ==> WellFormed(fields[i].1)
  {
    forall i | 0 <= i < |fields| ensures WellFormed(fields[i].1) {
      assert i == 0 || i == 1 || i == 2;
    }
  }

  lemma Members4(fields: seq<(string, Json)>)
    requires |fields| == 4 && WellFormed(fields[0].1) && WellFormed(fields[1].1) && WellFormed(fields[2].1)
    requires WellFormed(fields[3].1)
    ensures forall i :: 0 <= i < |fields| ==> WellFormed(fields[i].1)
  {
    forall i | 0 <= i < |fields| ensures WellFormed(fields[i].1) {
      assert i == 0 || i == 1 || i == 2 || i == 3;
    }
  }

  /** Members appended after the one found do not change what is found. */
  lemma {:induction false} LookupPrefix(fields: seq<(string, Json)>, more: seq<(string, Json)>, key: string)
    requires Lookup(fields, key).Some?
    ensures Lookup(fields + more, key) == Lookup(fields, key)
  {
    if fields[0].0 != key {
      assert (fields + more)[1..] == fields[1..] + more;
      LookupPrefix(fields[1..], more, key);
    }
  }

  /** Members appended after a list without the name are searched next. */
  lemma {:induction false} LookupAfter(fields: seq<(string, Json)>, more: seq<(string, Json)>, key: string)
    requires Lookup(fields, key).None?
    ensures Lookup(fields + more, key) == Lookup(more, key)
  {
    if fields == [] {
      assert fields + more == more;
    } else {
      assert (fields + more)[1..] == fields[1..] + more;
      LookupAfter(fields[1..], more, key);
    }
  }

  /** A member whose name no earlier member has is the one found. */
  lemma {:induction false} LookupFirst(fields: seq<(string, Json)>, i: nat)
    requires i < |fields| && forall k :: 0 <= k < i ==> fields[k].0 != fields[i].0
    ensures Lookup(fields, fields[i].0) == Some(fields[i].1)
  {
    if i > 0 {
      assert fields[1..][i - 1] == fields[i];
      assert forall k :: 0 <= k < i - 1 ==> fields[1..][k] == fields[k + 1];
      LookupFirst(fields[1..], i - 1);
    }
  }

  /** Property access `j.key`: undefined (None) unless j is an object with that member. */
  function Get(j: Json, key: string): Option<Json> {
    if j.JObject? then Lookup(j.fields, key) else None
  }

  /** Optional chaining `j?.key`. */
  function GetOpt(j: Option<Json>, key: string): Option<Json> {
    if j.Some? then Get(j.value, key) else None
  }

  /** Property access `j.length`: an array's element count, a string's length, an object's
      "length" member; undefined (None) for every other value. */
  function LengthOf(j: Json): Option<Json> {
    match j
    case JArray(items) => Some(JNumber(|items| as real))
    case JString(s) => Some(JNumber(|s| as real))
    case JObject(_) => Get(j, "length")
    case _ => None
  }

  /** Element access `j[0]`: an array's first element, a string's first character, an object's
      "0" member; undefined (None) otherwise. */
  function ItemZero(j: Json): Option<Json> {
    match j
    case JArray(items) => if items == [] then None else Some(items[0])
    case JString(s) => if s == "" then None else Some(JString([s[0]]))
    case JObject(_) => Get(j, "0")
    case _ => None
  }

  /** JavaScript truthiness of a JSON value. */
  predicate Truthy(j: Json) {
    match j
    case JNull => false
    case JBool(b) => b
    case JNumber(n) => n != 0.0
    case JString(s) => s != ""
    case _ => true
  }

  /** The idiom `x || fallback` where x is used only when it is a non-empty string. */
  function StringOr(j: Option<Json>, fallback: string): (r: string)
    ensures r == fallback || (j.Some? && j.value == JString(r) && r != "")
    ensures (j.Some? && j.value.JString? && j.value.s != "") ==> r == j.value.s
  {
    if j.Some? && j.value.JString? && j.value.s != "" then j.value.s else fallback
  }

  predicate IsInteger(n: real) {
    n.Floor as real == n
  }

  predicate DistinctKeys(fields: seq<(string, Json)>) {
    forall i, j :: 0 <= i < j < |fields| ==> fields[i].0 != fields[j].0
  }

  /** The values JSON.parse can produce: no object has two members with the same name. */
  predicate WellFormed(j: Json) {
    match j
    case JArray(items) => forall i :: 0 <= i < |items| ==> WellFormed(items[i])
    case JObject(fields) =>
      DistinctKeys(fields) && forall i :: 0 <= i < |fields| ==> WellFormed(fields[i].1)
    case _ => true
  }

  /** JSON.stringify and JSON.parse, left abstract. */
  datatype Codec = Codec(stringify: Json -> string, parse: string -> Option<Json>)

  /** The one law the model relies on: parsing what was stringified gives the value back. */
  ghost predicate RoundTrips(c: Codec) {
    forall j :: WellFormed(j) ==> c.parse(c.stringify(j)) == Some(j)
  }

  /** An array of strings. */
  function StringArray(ss: seq<string>): (j: Json)
    ensures j.JArray? && |j.items| == |ss|
    ensures forall i :: 0 <= i < |ss| ==> j.items[i] == JString(ss[i])
  {
    JArray(seq(|ss|, i requires 0 <= i < |ss| => JString(ss[i])))
  }
}
