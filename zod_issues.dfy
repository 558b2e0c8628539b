/** Validation issues as the zod schemas report them, and ZodError.format(), which nests them
    into `{ _errors: [...], <field>: { _errors: [...] }, ... }`. Every schema of the application
    is a flat object, so an issue's path is empty or a single member name. */
module ZodIssues {
  import opened Wrappers
  import opened Json

  datatype Issue = Issue(path: Option<string>, message: string)

  /** Stand-ins for zod's built-in messages; their exact wording belongs to the library. */
  const Required := "Required"
  const ExpectedString := "Expected string"
  const ExpectedNumber := "Expected number"
  const ExpectedObject := "Expected object"
  const ExpectedInteger := "Expected integer, received float"
  const NotNegative := "Number must be greater than or equal to 0"
  const InvalidDiscriminator := "Invalid discriminator value. Expected 'manual' | 'ai_full' | 'ai_edited'"

  /** The issues reported for member key, one per message. */
  function At(key: string, messages: seq<string>): (r: seq<Issue>)
    ensures |r| == |messages|
    ensures forall i :: 0 <= i < |r| ==> r[i] == Issue(Some(key), messages[i])
  {
    seq(|messages|, i requires 0 <= i < |messages| => Issue(Some(key), messages[i]))
  }

  /** The length checks `.min(min, tooShort).max(max, tooLong)` of a zod string; both run. */
  function LengthChecks(s: string, min: nat, max: nat, tooShort: string, tooLong: string): (ms: seq<string>)
    ensures ms == [] <==> min <= |s| <= max
    ensures |s| < min ==> ms[0] == tooShort
    ensures |s| > max ==> ms[|ms| - 1] == tooLong
    ensures min <= max ==> |ms| <= 1
  {
    (if |s| < min then [tooShort] else []) + (if |s| > max then [tooLong] else [])
  }

  /** A required string member of an object, refined by check. */
  function StringMember(body: Json, key: string, check: string -> seq<string>): (r: seq<Issue>)
    ensures r == [] <==> (Get(body, key).Some? && Get(body, key).value.JString? && check(Get(body, key).value.s) == [])
    ensures forall i :: 0 <= i < |r| ==> r[i].path == Some(key)
    ensures Get(body, key).None? ==> r == [Issue(Some(key), Required)]
  {
    match Get(body, key)
    case None => [Issue(Some(key), Required)]
    case Some(JString(s)) => At(key, check(s))
    case Some(_) => [Issue(Some(key), ExpectedString)]
  }

  /** The messages of the issues at path p, in order. */
  function Messages(issues: seq<Issue>, p: Option<string>): (ms: seq<string>)
    ensures |ms| <= |issues|
    ensures (exists i :: 0 <= i < |issues| && issues[i].path == p) <==> |ms| > 0
    ensures |ms| > 0 ==> exists i :: 0 <= i < |issues| && issues[i].path == p && issues[i].message == ms[0]
  {
    if issues == [] then []
    else
      var rest := Messages(issues[1..], p);
      assert forall i :: 0 < i < |issues| ==> issues[i] == issues[1..][i - 1];
      if issues[0].path == p then [issues[0].message] + rest else rest
  }

  /** The first message at path p, when there is one. */
  lemma {:induction false} FirstMessage(issues: seq<Issue>, p: Option<string>, k: nat)
    requires k < |issues| && issues[k].path == p
    requires forall i :: 0 <= i < k ==> issues[i].path != p
    ensures Messages(issues, p) != [] && Messages(issues, p)[0] == issues[k].message
  {
    if k > 0 {
      FirstMessage(issues[1..], p, k - 1);
    }
  }

  ghost function FieldsOf(issues: seq<Issue>): set<string> {
    set i | 0 <= i < |issues| && issues[i].path.Some? :: issues[i].path.value
  }

  /** The member names that carry issues, without repetition, in order of first appearance. */
  function FieldOrder(issues: seq<Issue>): (fs: seq<string>)
    ensures forall a, b :: 0 <= a < b < |fs| ==> fs[a] != fs[b]
    ensures forall f :: f in fs <==> f in FieldsOf(issues)
  {
    if issues == [] then []
    else
      var n := |issues| - 1;
      var fs := FieldOrder(issues[..n]);
      assert forall i :: 0 <= i < n ==> issues[..n][i] == issues[i];
      assert FieldsOf(issues) == FieldsOf(issues[..n]) + (if issues[n].path.Some? then {issues[n].path.value} else {});
      if issues[n].path.Some? && issues[n].path.value !in fs then fs + [issues[n].path.value] else fs
  }

  /** The node format() builds for one member. */
  function FieldNode(issues: seq<Issue>, f: string): Json {
    JObject([("_errors", StringArray(Messages(issues, Some(f))))])
  }

  predicate NoReservedPath(issues: seq<Issue>) {
    forall i :: 0 <= i < |issues| ==> issues[i].path != Some("_errors")
  }

  function Nodes(issues: seq<Issue>, fs: seq<string>): (ns: seq<(string, Json)>)
    ensures |ns| == |fs|
    ensures forall i :: 0 <= i < |fs| ==> ns[i] == (fs[i], FieldNode(issues, fs[i]))
  {
    seq(|fs|, i requires 0 <= i < |fs| => (fs[i], FieldNode(issues, fs[i])))
  }

  /** ZodError.format(): the top-level messages first, then one node per member with issues,
      in order of the member's first issue. */
  function Format(issues: seq<Issue>): (j: Json)
    ensures j.JObject? && |j.fields| == 1 + |FieldOrder(issues)|
    ensures j.fields[0] == ("_errors", StringArray(Messages(issues, None)))
    ensures forall k :: 1 <= k < |j.fields| ==> j.fields[k].0 == FieldOrder(issues)[k - 1]
    ensures forall k :: 1 <= k < |j.fields| ==> j.fields[k].0 in FieldsOf(issues)
    ensures forall k :: 1 <= k < |j.fields| ==> j.fields[k].1 == FieldNode(issues, j.fields[k].0)
  {
    var fs := FieldOrder(issues);
    var fields := [("_errors", StringArray(Messages(issues, None)))] + Nodes(issues, fs);
    assert forall k :: 1 <= k < |fields| ==> fields[k] == Nodes(issues, fs)[k - 1];
    JObject(fields)
  }

  /** Without an issue at a member called "_errors", the formatted object has distinct member
      names. */
  lemma FormatDistinct(issues: seq<Issue>)
    requires NoReservedPath(issues)
    ensures DistinctKeys(Format(issues).fields)
  {
    var fields := Format(issues).fields;
    forall a, b | 0 <= a < b < |fields| ensures fields[a].0 != fields[b].0 {
      if a == 0 {
        assert fields[b].0 in FieldsOf(issues);
        var i :| 0 <= i < |issues| && issues[i].path.Some? && issues[i].path.value == fields[b].0;
        assert issues[i].path != Some("_errors");
      }
    }
  }

  /** Every member with issues can be looked up in the formatted object. */
  lemma FormatGet(issues: seq<Issue>, f: string)
    requires NoReservedPath(issues) && f in FieldsOf(issues)
    ensures Get(Format(issues), f) == Some(FieldNode(issues, f))
  {
    FormatDistinct(issues);
    var fs := FieldOrder(issues);
    var i :| 0 <= i < |fs| && fs[i] == f;
    LookupAt(Format(issues).fields, i + 1);
  }

  /** The formatted object is a value JSON.parse can produce. */
  lemma FormatWellFormed(issues: seq<Issue>)
    requires NoReservedPath(issues)
    ensures WellFormed(Format(issues))
  {
    FormatDistinct(issues);
    var fields := Format(issues).fields;
    forall k | 0 <= k < |fields| ensures WellFormed(fields[k].1) {
      var ms := if k == 0 then Messages(issues, None) else Messages(issues, Some(fields[k].0));
      var arr := StringArray(ms);
      assert forall i :: 0 <= i < |arr.items| ==> WellFormed(arr.items[i]);
      if k > 0 {
        var node := FieldNode(issues, fields[k].0);
        assert node.fields == [("_errors", arr)];
        assert DistinctKeys(node.fields);
      }
    }
  }

  /** A failed parse has at least one issue, so its format carries a top-level message or at
      least one member node. */
  lemma FormatOfFailure(issues: seq<Issue>)
    requires NoReservedPath(issues) && |issues| > 0
    ensures Messages(issues, None) != [] || |Format(issues).fields| > 1
  {
    if Messages(issues, None) == [] {
      assert issues[0].path.Some?;
      assert issues[0].path.value in FieldsOf(issues);
      assert issues[0].path.value in FieldOrder(issues);
    }
  }
}
