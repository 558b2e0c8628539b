/** FlashcardForm (src/components/add/FlashcardForm.tsx): the add-card form. A submit that passes
    the form schema sends a manual command through the client service; a rejection is decoded
    back into field errors when its message is a JSON object with details, and toasted otherwise. */
module FlashcardForm {
  import opened Wrappers
  import opened Json
  import opened Strings
  import opened Types
  import opened Http
  import opened ZodIssues
  import opened FormSchema
  import ClientService
  import FlashcardsRoute
  import FlashcardSchema
  import KeyboardShortcuts

  const Created := "Flashcard created successfully!"
  const CreateFailed := "Failed to create flashcard"

  /** onSubmit's command: the form data with creation_method "manual". */
  function ManualCommandOf(d: FormData): (c: CreateCommand)
    ensures c.ManualCommand? && c.Method() == Manual
    ensures c.frontContent == d.frontContent && c.backContent == d.backContent
  {
    ManualCommand(d.frontContent, d.backContent)
  }

  /** What the form lets through is accepted by the server's create schema. */
  lemma SubmittedCommandAccepted(d: FormData)
    requires FormIssues(d) == []
    ensures FlashcardSchema.ParseCreate(CommandToJson(ManualCommandOf(d))) == Success(ManualCommandOf(d))
  {
    FlashcardSchema.CommandRoundTrip(ManualCommandOf(d));
  }

  /** onKeyDown: Ctrl+Enter submits. */
  predicate SubmitsOnKey(e: KeyboardShortcuts.KeyEvent) {
    e.key == "Enter" && e.ctrlKey
  }

  lemma EnterNeedsCtrl(metaKey: bool)
    ensures !SubmitsOnKey(KeyboardShortcuts.KeyEvent("Enter", false, metaKey))
    ensures SubmitsOnKey(KeyboardShortcuts.KeyEvent("Enter", true, metaKey))
  {
  }

  /** The submit button is disabled while the form is invalid or submitting. */
  predicate SubmitDisabled(d: FormData, isSubmitting: bool) {
    FormIssues(d) != [] || isSubmitting
  }

  /** `Object.entries`: an object's members; an array's or a string's positions; nothing for
      other values. */
  function Entries(v: Json): (es: seq<(string, Json)>)
    ensures v.JObject? ==> es == v.fields
    ensures !(v.JObject? || v.JArray? || v.JString?) ==> es == []
  {
    match v
    case JObject(fields) => fields
    case JArray(items) => seq(|items|, i requires 0 <= i < |items| => (NatToString(i), items[i]))
    case JString(s) => seq(|s|, i requires 0 <= i < |s| => (NatToString(i), JString([s[i]])))
    case _ => []
  }

  /** `errors._errors[0]` for one entry's value: None when it throws a TypeError (the value, or
      its `_errors`, is not an object or string); otherwise what is read, where None stands for
      undefined. */
  function FirstErrorOf(v: Json): (r: Option<Option<Json>>)
    ensures r.None? <==> !v.JObject? || Get(v, "_errors").None? || Get(v, "_errors").value.JNull?
    ensures v.JObject? && Get(v, "_errors").Some? && Get(v, "_errors").value.JArray? ==>
              var items := Get(v, "_errors").value.items;
              r == Some(if items == [] then None else Some(items[0]))
  {
    if !v.JObject? then None
    else match Get(v, "_errors")
      case None => None
      case Some(JNull) => None
      case Some(JArray(items)) => Some(if items == [] then None else Some(items[0]))
      case Some(JString(s)) => Some(if s == "" then None else Some(JString([s[0]])))
      case Some(JObject(fields)) => Some(Lookup(fields, "0"))
      case Some(_) => Some(None)
  }

  /** The forEach calling setError(field, message) entry by entry, until one throws. With
      skipTop the top-level "_errors" entry of zod's format() is passed over. The result is the
      field errors and whether a TypeError escaped. */
  function SetErrors(errors: map<string, Option<Json>>, entries: seq<(string, Json)>, skipTop: bool): (r: (map<string, Option<Json>>, bool))
    ensures errors.Keys <= r.0.Keys
    decreases |entries|
  {
    if entries == [] then (errors, false)
    else if skipTop && entries[0].0 == "_errors" then SetErrors(errors, entries[1..], skipTop)
    else match FirstErrorOf(entries[0].1)
      case None => (errors, true)
      case Some(m) => SetErrors(errors[entries[0].0 := m], entries[1..], skipTop)
  }

  /** The form's values and the field errors setError has put on it. */
  datatype FormState = FormState(values: FormData, fieldErrors: map<string, Option<Json>>)

  const Empty := FormState(FormData("", ""), map[])

  /** One submit: the command sent (none when the form schema fails), the toast shown, whether
      onSubmit rejected, and the new form state. */
  datatype Submission = Submission(sent: Option<CreateCommand>, toast: Option<Toast>, threw: bool, after: FormState)

  /** handleSubmit(onSubmit) with `reply` as the answer to the POST. */
  function Submit(codec: Codec, reply: Reply, s: FormState, skipTop: bool): (r: Submission)
    ensures r.sent.Some? <==> FormIssues(s.values) == []
    ensures r.sent.Some? ==> r.sent.value == ManualCommandOf(s.values)
    ensures r.threw ==> r.toast.None?
    ensures r.after.values == s.values || r.after == Empty
  {
    if FormIssues(s.values) != [] then Submission(None, None, false, s)
    else
      var cmd := ManualCommandOf(s.values);
      match ClientService.Create(codec, reply)
      case Success(_) => Submission(Some(cmd), Some(SuccessToast(Created)), false, Empty)
      case Failure(ValueThrown) => Submission(Some(cmd), Some(ErrorToast(CreateFailed)), false, s)
      case Failure(ErrorThrown(m)) =>
        var details := GetOpt(codec.parse(m), "details");
        if details.Some? && Truthy(details.value) then
          var (errors, threw) := SetErrors(s.fieldErrors, Entries(details.value), skipTop);
          Submission(Some(cmd), None, threw, FormState(s.values, errors))
        else Submission(Some(cmd), Some(ErrorToast(m)), false, s)
  }

  /** A successful create toasts and resets the form. */
  lemma SuccessResets(codec: Codec, reply: Reply, s: FormState, skipTop: bool)
    requires FormIssues(s.values) == [] && reply.Replied? && Ok(reply.status) && reply.body.Success?
    ensures Submit(codec, reply, s, skipTop) == Submission(Some(ManualCommandOf(s.values)), Some(SuccessToast(Created)), false, Empty)
  {
  }

  /** An error message that is not JSON is toasted as it is and the form is left alone. */
  lemma PlainErrorToasted(codec: Codec, s: FormState, status: int, body: Json, skipTop: bool)
    requires FormIssues(s.values) == [] && !Ok(status)
    requires ClientService.Create(codec, Replied(status, Success(body))).Failure?
    requires codec.parse(ClientService.Create(codec, Replied(status, Success(body))).error.message).None?
    ensures var m := ClientService.Create(codec, Replied(status, Success(body))).error.message;
            Submit(codec, Replied(status, Success(body)), s, skipTop) ==
              Submission(Some(ManualCommandOf(s.values)), Some(ErrorToast(m)), false, s)
  {
  }

  /** The mapping as written: the first entry of format()'s output is its top-level "_errors"
      array, whose `._errors` is undefined, so the forEach throws before setting anything. */
  lemma FormatDetailsThrow(errors: map<string, Option<Json>>, issues: seq<Issue>)
    ensures SetErrors(errors, Format(issues).fields, false) == (errors, true)
  {
  }

  /** So a validation failure from the route is neither shown on the fields nor toasted:
      onSubmit rejects with the form unchanged. */
  lemma ValidationErrorLost(codec: Codec, s: FormState, issues: seq<Issue>)
    requires RoundTrips(codec) && NoReservedPath(issues) && FormIssues(s.values) == []
    ensures var r := Submit(codec, Replied(400, Success(FlashcardsRoute.ValidationFailed(issues))), s, false);
            r.threw && r.toast.None? && r.after == s
  {
    var reply := Replied(400, Success(FlashcardsRoute.ValidationFailed(issues)));
    ClientService.ValidationRoundTrip(codec, issues);
    var m := ClientService.Create(codec, reply).error.message;
    DetailsApplied(codec, reply, s, false, m, Format(issues));
    FormatDetailsThrow(s.fieldErrors, issues);
  }

  /** A rejection whose message parses to an object with object details goes to the forEach
      over those details, and nothing is toasted. */
  lemma DetailsApplied(codec: Codec, reply: Reply, s: FormState, skipTop: bool, m: string, d: Json)
    requires FormIssues(s.values) == [] && ClientService.Create(codec, reply) == Failure(ErrorThrown(m))
    requires GetOpt(codec.parse(m), "details") == Some(d) && d.JObject?
    ensures var (errors, threw) := SetErrors(s.fieldErrors, d.fields, skipTop);
            Submit(codec, reply, s, skipTop) == Submission(Some(ManualCommandOf(s.values)), None, threw, FormState(s.values, errors))
  {
    assert Truthy(d);
    assert Entries(d) == d.fields;
  }

  /** The members of the node list after the top-level entry. */
  ghost function KeysOf(entries: seq<(string, Json)>): set<string> {
    set i | 0 <= i < |entries| :: entries[i].0
  }

  /** The message the field node of f yields: its first message, or undefined. */
  function FirstFieldMessage(issues: seq<Issue>, f: string): (m: Option<Json>)
    ensures f in FieldsOf(issues) ==> Messages(issues, Some(f)) != [] && m == Some(JString(Messages(issues, Some(f))[0]))
  {
    var ms := Messages(issues, Some(f));
    assert f in FieldsOf(issues) ==> ms != [] by {
      if f in FieldsOf(issues) {
        var i :| 0 <= i < |issues| && issues[i].path.Some? && issues[i].path.value == f;
        assert issues[i].path == Some(f);
      }
    }
    if ms == [] then None else Some(JString(ms[0]))
  }

  ghost predicate FieldNodes(issues: seq<Issue>, entries: seq<(string, Json)>) {
    forall k :: 0 <= k < |entries| ==> entries[k].0 != "_errors" && entries[k].1 == FieldNode(issues, entries[k].0)
  }

  /** Reading `_errors[0]` from a member's node yields its first message. */
  lemma NodeFirstError(issues: seq<Issue>, f: string)
    ensures FirstErrorOf(FieldNode(issues, f)) == Some(FirstFieldMessage(issues, f))
  {
    var arr := StringArray(Messages(issues, Some(f)));
    assert FieldNode(issues, f).fields == [("_errors", arr)];
    assert Get(FieldNode(issues, f), "_errors") == Some(arr);
  }

  lemma KeysOfTail(entries: seq<(string, Json)>)
    requires entries != []
    ensures KeysOf(entries) == {entries[0].0} + KeysOf(entries[1..])
  {
    var rest := entries[1..];
    forall g | g in KeysOf(entries) ensures g in {entries[0].0} + KeysOf(rest) {
      var i :| 0 <= i < |entries| && entries[i].0 == g;
      if i > 0 {
        assert rest[i - 1] == entries[i];
      }
    }
    forall g | g in KeysOf(rest) ensures g in KeysOf(entries) {
      var i :| 0 <= i < |rest| && rest[i].0 == g;
      assert entries[i + 1] == rest[i];
    }
  }

  /** Over field nodes alone, every member gets its first message and nothing throws. */
  lemma {:induction false} SetErrorsOverNodes(errors: map<string, Option<Json>>, issues: seq<Issue>, entries: seq<(string, Json)>)
    requires FieldNodes(issues, entries)
    ensures var (r, threw) := SetErrors(errors, entries, true);
            !threw && r.Keys == errors.Keys + KeysOf(entries) &&
            forall f :: f in r ==> r[f] == if f in KeysOf(entries) then FirstFieldMessage(issues, f) else errors[f]
    decreases |entries|
  {
    if entries != [] {
      var f := entries[0].0;
      var rest := entries[1..];
      assert entries[0].1 == FieldNode(issues, f);
      NodeFirstError(issues, f);
      assert SetErrors(errors, entries, true) == SetErrors(errors[f := FirstFieldMessage(issues, f)], rest, true);
      assert FieldNodes(issues, rest) by {
        forall k | 0 <= k < |rest| ensures rest[k].0 != "_errors" && rest[k].1 == FieldNode(issues, rest[k].0) {
          assert rest[k] == entries[k + 1];
        }
      }
      KeysOfTail(entries);
      SetErrorsOverNodes(errors[f := FirstFieldMessage(issues, f)], issues, rest);
    }
  }

  /** The members after format()'s top-level entry are the nodes of the members with issues. */
  lemma FormatNodes(issues: seq<Issue>)
    requires NoReservedPath(issues)
    ensures FieldNodes(issues, Format(issues).fields[1..])
  {
    var fields := Format(issues).fields;
    var nodes := fields[1..];
    forall k | 0 <= k < |nodes| ensures nodes[k].0 != "_errors" && nodes[k].1 == FieldNode(issues, nodes[k].0) {
      assert nodes[k] == fields[k + 1];
      var g := nodes[k].0;
      assert g in FieldsOf(issues);
      var i :| 0 <= i < |issues| && issues[i].path.Some? && issues[i].path.value == g;
      assert issues[i].path != Some("_errors");
    }
  }

  /** ... and they are exactly the members with issues. */
  lemma FormatNodeKeys(issues: seq<Issue>)
    ensures KeysOf(Format(issues).fields[1..]) == FieldsOf(issues)
  {
    var fields := Format(issues).fields;
    var nodes := fields[1..];
    var fs := FieldOrder(issues);
    forall g | g in FieldsOf(issues) ensures g in KeysOf(nodes) {
      assert g in fs;
      var i :| 0 <= i < |fs| && fs[i] == g;
      assert nodes[i] == fields[i + 1];
    }
    forall g | g in KeysOf(nodes) ensures g in FieldsOf(issues) {
      var k :| 0 <= k < |nodes| && nodes[k].0 == g;
      assert nodes[k] == fields[k + 1];
    }
  }

  /** The corrected mapping over format()'s output: exactly the members with issues get their
      first message, the other field errors are kept, and nothing throws. */
  lemma FormatDetailsMapped(errors: map<string, Option<Json>>, issues: seq<Issue>)
    requires NoReservedPath(issues)
    ensures var (r, threw) := SetErrors(errors, Format(issues).fields, true);
            !threw && r.Keys == errors.Keys + FieldsOf(issues) &&
            (forall f :: f in FieldsOf(issues) ==>
               Messages(issues, Some(f)) != [] && r[f] == Some(JString(Messages(issues, Some(f))[0]))) &&
            forall f :: f in errors && f !in FieldsOf(issues) ==> r[f] == errors[f]
  {
    var fields := Format(issues).fields;
    var nodes := fields[1..];
    FormatNodes(issues);
    FormatNodeKeys(issues);
    assert SetErrors(errors, fields, true) == SetErrors(errors, nodes, true);
    SetErrorsOverNodes(errors, issues, nodes);
  }

  /** The intended round trip: the route's validation failure, encoded by the client service and
      decoded by the corrected form, puts each failing field's first message on that field and
      shows no toast. */
  lemma ValidationErrorShown(codec: Codec, s: FormState, issues: seq<Issue>)
    requires RoundTrips(codec) && NoReservedPath(issues) && FormIssues(s.values) == []
    ensures var r := Submit(codec, Replied(400, Success(FlashcardsRoute.ValidationFailed(issues))), s, true);
            !r.threw && r.toast.None? && r.after.values == s.values &&
            r.after.fieldErrors.Keys == s.fieldErrors.Keys + FieldsOf(issues) &&
            (forall f :: f in FieldsOf(issues) ==>
               Messages(issues, Some(f)) != [] && r.after.fieldErrors[f] == Some(JString(Messages(issues, Some(f))[0]))) &&
            forall f :: f in s.fieldErrors && f !in FieldsOf(issues) ==> r.after.fieldErrors[f] == s.fieldErrors[f]
  {
    var reply := Replied(400, Success(FlashcardsRoute.ValidationFailed(issues)));
    ClientService.ValidationRoundTrip(codec, issues);
    var m := ClientService.Create(codec, reply).error.message;
    DetailsApplied(codec, reply, s, true, m, Format(issues));
    FormatDetailsMapped(s.fieldErrors, issues);
  }

  class Form {
    var values: FormData
    var fieldErrors: map<string, Option<Json>>

    function State(): FormState
      reads this
    {
      FormState(values, fieldErrors)
    }

    constructor()
      ensures State() == Empty
    {
      values, fieldErrors := FormData("", ""), map[];
    }

    method SetValues(d: FormData)
      modifies this
      ensures values == d && fieldErrors == old(fieldErrors)
    {
      values := d;
    }

    /** The forEach over the entries of the details. */
    method ApplyDetails(entries: seq<(string, Json)>, skipTop: bool) returns (threw: bool)
      modifies this
      ensures (fieldErrors, threw) == SetErrors(old(fieldErrors), entries, skipTop)
      ensures values == old(values)
    {
      var i := 0;
      while i < |entries|
        invariant 0 <= i <= |entries|
        invariant SetErrors(fieldErrors, entries[i..], skipTop) == SetErrors(old(fieldErrors), entries, skipTop)
        invariant values == old(values)
      {
        assert entries[i..][1..] == entries[i + 1..];
        var (field, errors) := entries[i];
        if !(skipTop && field == "_errors") {
          var message := FirstErrorOf(errors);
          if message.None? {
            return true;
          }
          fieldErrors := fieldErrors[field := message.value];
        }
        i := i + 1;
      }
      return false;
    }

    /** handleSubmit(onSubmit). With skipTop false this is the code as written; true passes over
        the top-level "_errors" entry of the details. */
    method OnSubmit(codec: Codec, reply: Reply, skipTop: bool) returns (sent: Option<CreateCommand>, toast: Option<Toast>, threw: bool)
      modifies this
      ensures Submission(sent, toast, threw, State()) == Submit(codec, reply, old(State()), skipTop)
    {
      sent, toast, threw := None, None, false;
      if FormIssues(values) != [] {
        return;
      }
      var command := ManualCommandOf(values);
      sent := Some(command);
      var created := ClientService.Create(codec, reply);
      match created {
        case Success(_) =>
          toast := Some(SuccessToast(Created));
          values, fieldErrors := FormData("", ""), map[];
        case Failure(ValueThrown) =>
          toast := Some(ErrorToast(CreateFailed));
        case Failure(ErrorThrown(message)) =>
          var details := GetOpt(codec.parse(message), "details");
          if details.Some? && Truthy(details.value) {
            threw := ApplyDetails(Entries(details.value), skipTop);
          } else {
            toast := Some(ErrorToast(message));
          }
      }
    }
  }
}
