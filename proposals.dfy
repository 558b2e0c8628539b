/** useFlashcardProposals (src/hooks/useFlashcardProposals.ts): the list of proposals under review
    and the generation they came from. Each handler's update is a function of the old list; the
    hook's two state cells are the fields of ProposalReview. */
module Proposals {
  import opened Wrappers
  import opened Strings
  import opened Types
  import opened Http
  import Uuid
  import FlashcardSchema

  const TooShort := "Enter at least 2 characters"
  const TooLong := "Text cannot exceed 200 characters"

  /** The errors object: a message per failing field. */
  datatype ProposalErrors = ProposalErrors(front: Option<string>, back: Option<string>)

  datatype ViewModel = ViewModel(
    frontContent: string,
    backContent: string,
    id: string,
    isEdited: bool,
    isSaving: bool,
    errors: Option<ProposalErrors>)

  /** The check of one field. */
  function FieldError(s: string): (r: Option<string>)
    ensures r.None? <==> 2 <= |s| <= 200
    ensures |s| < 2 ==> r == Some(TooShort)
    ensures |s| > 200 ==> r == Some(TooLong)
  {
    if |s| < 2 then Some(TooShort) else if |s| > 200 then Some(TooLong) else None
  }

  /** validateProposal: undefined when both fields pass, else the failing fields' messages. */
  function ValidateProposal(front: string, back: string): (r: Option<ProposalErrors>)
    ensures r.None? <==> 2 <= |front| <= 200 && 2 <= |back| <= 200
    ensures r.Some? ==> r.value == ProposalErrors(FieldError(front), FieldError(back))
  {
    if FieldError(front).None? && FieldError(back).None? then None
    else Some(ProposalErrors(FieldError(front), FieldError(back)))
  }

  /** The proposal check accepts what the server's content rule accepts. */
  lemma ValidateAgreesWithServer(front: string, back: string)
    ensures ValidateProposal(front, back).None? <==>
              FlashcardSchema.ContentMessages(front) == [] && FlashcardSchema.ContentMessages(back) == []
  {
  }

  function ProposalId(i: nat): string {
    "proposal-" + NatToString(i)
  }

  lemma ProposalIdInjective(i: nat, j: nat)
    requires ProposalId(i) == ProposalId(j)
    ensures i == j
  {
    assert ProposalId(i)[9..] == NatToString(i);
    assert ProposalId(j)[9..] == NatToString(j);
    NatToStringInjective(i, j);
  }

  /** initializeProposals' map: same order and content, id "proposal-i", nothing edited or saving. */
  function Initialize(ps: seq<ProposalDTO>): (r: seq<ViewModel>)
    ensures |r| == |ps|
    ensures forall i :: 0 <= i < |ps| ==>
              r[i] == ViewModel(ps[i].frontContent, ps[i].backContent, ProposalId(i), false, false, None)
  {
    seq(|ps|, i requires 0 <= i < |ps| => ViewModel(ps[i].frontContent, ps[i].backContent, ProposalId(i), false, false, None))
  }

  predicate UniqueIds(l: seq<ViewModel>) {
    forall i, j :: 0 <= i < j < |l| ==> l[i].id != l[j].id
  }

  lemma InitializedIdsUnique(ps: seq<ProposalDTO>)
    ensures UniqueIds(Initialize(ps))
  {
    var r := Initialize(ps);
    forall i, j | 0 <= i < j < |r| ensures r[i].id != r[j].id {
      if r[i].id == r[j].id {
        ProposalIdInjective(i, j);
      }
    }
  }

  /** Partial<FlashcardProposalDTO>: the fields an edit supplies. */
  datatype ProposalUpdate = ProposalUpdate(frontContent: Option<string>, backContent: Option<string>)

  /** One item after `{...p, ...updates, isEdited: true, errors}`. */
  function Edited(p: ViewModel, u: ProposalUpdate): (q: ViewModel)
    ensures q.frontContent == u.frontContent.GetOr(p.frontContent) && q.backContent == u.backContent.GetOr(p.backContent)
    ensures q.id == p.id && q.isEdited && q.isSaving == p.isSaving
    ensures q.errors == ValidateProposal(q.frontContent, q.backContent)
  {
    var front := u.frontContent.GetOr(p.frontContent);
    var back := u.backContent.GetOr(p.backContent);
    p.(frontContent := front, backContent := back, isEdited := true, errors := ValidateProposal(front, back))
  }

  /** updateProposal's map. */
  function UpdateItems(l: seq<ViewModel>, id: string, u: ProposalUpdate): (r: seq<ViewModel>)
    ensures |r| == |l|
    ensures forall i :: 0 <= i < |l| ==> r[i].id == l[i].id
    ensures forall i :: 0 <= i < |l| ==> r[i] == if l[i].id == id then Edited(l[i], u) else l[i]
  {
    seq(|l|, i requires 0 <= i < |l| => if l[i].id == id then Edited(l[i], u) else l[i])
  }

  function SetErrors(l: seq<ViewModel>, id: string, e: ProposalErrors): (r: seq<ViewModel>)
    ensures |r| == |l|
    ensures forall i :: 0 <= i < |l| ==> r[i].id == l[i].id
    ensures forall i :: 0 <= i < |l| ==> r[i] == if l[i].id == id then l[i].(errors := Some(e)) else l[i]
  {
    seq(|l|, i requires 0 <= i < |l| => if l[i].id == id then l[i].(errors := Some(e)) else l[i])
  }

  function SetSaving(l: seq<ViewModel>, id: string, saving: bool): (r: seq<ViewModel>)
    ensures |r| == |l|
    ensures forall i :: 0 <= i < |l| ==> r[i].id == l[i].id
    ensures forall i :: 0 <= i < |l| ==> r[i] == if l[i].id == id then l[i].(isSaving := saving) else l[i]
  {
    seq(|l|, i requires 0 <= i < |l| => if l[i].id == id then l[i].(isSaving := saving) else l[i])
  }

  /** `filter((p) => p.id !== id)`. */
  function Without(l: seq<ViewModel>, id: string): (r: seq<ViewModel>)
    ensures forall x :: x in r <==> x in l && x.id != id
    ensures |r| <= |l|
    ensures (forall i :: 0 <= i < |l| ==> l[i].id != id) ==> r == l
  {
    if l == [] then []
    else if l[0].id == id then Without(l[1..], id)
    else [l[0]] + Without(l[1..], id)
  }

  /** The filter keeps order: filtering a concatenation filters each part in place. With
      WithoutSingle this determines the filtered list completely. */
  lemma {:induction false} WithoutAppend(a: seq<ViewModel>, b: seq<ViewModel>, id: string)
    ensures Without(a + b, id) == Without(a, id) + Without(b, id)
  {
    if a == [] {
      assert a + b == b;
    } else {
      WithoutAppend(a[1..], b, id);
      WithoutConsAppend(a[0], a[1..], b, id);
      assert a == [a[0]] + a[1..];
    }
  }

  lemma WithoutConsAppend(h: ViewModel, t: seq<ViewModel>, b: seq<ViewModel>, id: string)
    requires Without(t + b, id) == Without(t, id) + Without(b, id)
    ensures Without([h] + t + b, id) == Without([h] + t, id) + Without(b, id)
  {
    WithoutConsConcat(h, t, b, id);
    WithoutCons(h, t, id);
    SeqAssoc(Kept(h, id), Without(t, id), Without(b, id));
  }

  lemma WithoutConsConcat(h: ViewModel, t: seq<ViewModel>, b: seq<ViewModel>, id: string)
    ensures Without([h] + t + b, id) == Kept(h, id) + Without(t + b, id)
  {
    assert [h] + t + b == [h] + (t + b);
    WithoutCons(h, t + b, id);
  }

  lemma SeqAssoc(x: seq<ViewModel>, y: seq<ViewModel>, z: seq<ViewModel>)
    ensures x + (y + z) == (x + y) + z
  {
  }

  /** What the filter keeps of one item. */
  function Kept(h: ViewModel, id: string): seq<ViewModel> {
    if h.id == id then [] else [h]
  }

  lemma WithoutCons(h: ViewModel, t: seq<ViewModel>, id: string)
    ensures Without([h] + t, id) == Kept(h, id) + Without(t, id)
  {
    assert ([h] + t)[0] == h;
    assert ([h] + t)[1..] == t;
  }

  lemma WithoutSingle(x: ViewModel, id: string)
    ensures Without([x], id) == Kept(x, id)
  {
    WithoutCons(x, [], id);
    assert [x] + [] == [x];
  }

  /** The filter keeps every copy of an item with another id and drops every copy with that id. */
  lemma {:induction false} WithoutCounts(l: seq<ViewModel>, id: string, x: ViewModel)
    ensures multiset(Without(l, id))[x] == if x.id == id then 0 else multiset(l)[x]
  {
    if l != [] {
      var h, t := l[0], l[1..];
      WithoutCounts(t, id, x);
      assert l == [h] + t;
      WithoutCons(h, t, id);
      assert multiset(Without(l, id)) == multiset(Kept(h, id)) + multiset(Without(t, id));
      assert multiset(l) == multiset{h} + multiset(t);
    }
  }

  /** Rejecting twice is rejecting once. */
  lemma WithoutIdempotent(l: seq<ViewModel>, id: string)
    ensures Without(Without(l, id), id) == Without(l, id)
  {
  }

  /** With unique ids, removing one that is present shortens the list by exactly one. */
  lemma {:induction false} WithoutRemovesOne(l: seq<ViewModel>, k: nat)
    requires UniqueIds(l) && k < |l|
    ensures |Without(l, l[k].id)| == |l| - 1
  {
    if k == 0 {
      assert forall i :: 0 <= i < |l[1..]| ==> l[1..][i].id != l[0].id by {
        forall i | 0 <= i < |l[1..]| ensures l[1..][i].id != l[0].id {
          assert l[1..][i] == l[i + 1];
        }
      }
    } else {
      assert UniqueIds(l[1..]) by {
        forall i, j | 0 <= i < j < |l[1..]| ensures l[1..][i].id != l[1..][j].id {
          assert l[1..][i] == l[i + 1] && l[1..][j] == l[j + 1];
        }
      }
      assert l[1..][k - 1] == l[k];
      WithoutRemovesOne(l[1..], k - 1);
    }
  }

  /** `find((p) => p.id === id)`: the first position with that id. */
  function Find(l: seq<ViewModel>, id: string): (r: Option<nat>)
    ensures r.None? <==> forall i :: 0 <= i < |l| ==> l[i].id != id
    ensures r.Some? ==> r.value < |l| && l[r.value].id == id && forall i :: 0 <= i < r.value ==> l[i].id != id
  {
    if l == [] then None
    else if l[0].id == id then Some(0)
    else
      var r := Find(l[1..], id);
      if r.Some? then Some(r.value + 1) else None
  }

  /** The command an accepted proposal is saved with. */
  function AcceptCommand(p: ViewModel, generationId: string): (c: CreateCommand)
    ensures c.AcceptAiCommand? && c.frontContent == p.frontContent && c.backContent == p.backContent
    ensures c.generationId == generationId
    ensures c.Method() == AiEdited <==> p.isEdited
  {
    AcceptAiCommand(p.frontContent, p.backContent, if p.isEdited then AiEdited else AiFull, generationId)
  }

  /** acceptProposal as one step: the new list and the command sent, if any. `!generationId` also
      holds for the empty string. */
  function Accept(l: seq<ViewModel>, generationId: Option<string>, id: string, reply: Reply): (seq<ViewModel>, Option<CreateCommand>)
  {
    if generationId.None? || generationId.value == "" then (l, None)
    else match Find(l, id)
      case None => (l, None)
      case Some(k) =>
        match ValidateProposal(l[k].frontContent, l[k].backContent)
        case Some(e) => (SetErrors(l, id, e), None)
        case None =>
          var saving := SetSaving(l, id, true);
          var cmd := AcceptCommand(l[k], generationId.value);
          if reply.Replied? && Ok(reply.status) then (Without(saving, id), Some(cmd))
          else (SetSaving(saving, id, false), Some(cmd))
  }

  /** Without a generation, or for an unknown id, acceptProposal does nothing. */
  lemma AcceptNoOp(l: seq<ViewModel>, generationId: Option<string>, id: string, reply: Reply)
    requires generationId.None? || (forall i :: 0 <= i < |l| ==> l[i].id != id)
    ensures Accept(l, generationId, id, reply) == (l, None)
  {
  }

  /** An invalid proposal only gets its errors: nothing is sent and the list keeps its length. */
  lemma AcceptInvalid(l: seq<ViewModel>, g: string, k: nat, reply: Reply)
    requires UniqueIds(l) && k < |l| && g != ""
    requires ValidateProposal(l[k].frontContent, l[k].backContent).Some?
    ensures var (r, sent) := Accept(l, Some(g), l[k].id, reply);
            sent.None? && |r| == |l| && r[k] == l[k].(errors := ValidateProposal(l[k].frontContent, l[k].backContent)) &&
            forall i :: 0 <= i < |l| && i != k ==> r[i] == l[i]
  {
  }

  /** A valid proposal is sent as ai_edited exactly when it was edited, with the generation id
      and its content; a successful save removes exactly it, a failed one keeps it, not saving. */
  lemma AcceptValid(l: seq<ViewModel>, g: string, k: nat, reply: Reply)
    requires UniqueIds(l) && k < |l| && g != ""
    requires ValidateProposal(l[k].frontContent, l[k].backContent).None?
    ensures var (r, sent) := Accept(l, Some(g), l[k].id, reply);
            sent == Some(AcceptCommand(l[k], g)) &&
            (reply.Replied? && Ok(reply.status) ==> |r| == |l| - 1 && forall x :: x in r <==> x in l && x != l[k]) &&
            (!(reply.Replied? && Ok(reply.status)) ==>
               |r| == |l| && r[k] == l[k].(isSaving := false) && forall i :: 0 <= i < |l| && i != k ==> r[i] == l[i])
  {
    var id := l[k].id;
    var saving := SetSaving(l, id, true);
    AcceptValidUnfolds(l, g, k, reply);
    if reply.Replied? && Ok(reply.status) {
      SavedRemoved(l, k);
    } else {
      SavingCleared(l, k);
    }
  }

  lemma AcceptValidUnfolds(l: seq<ViewModel>, g: string, k: nat, reply: Reply)
    requires UniqueIds(l) && k < |l| && g != ""
    requires ValidateProposal(l[k].frontContent, l[k].backContent).None?
    ensures var saving := SetSaving(l, l[k].id, true);
            Accept(l, Some(g), l[k].id, reply) ==
              (if reply.Replied? && Ok(reply.status) then Without(saving, l[k].id) else SetSaving(saving, l[k].id, false),
               Some(AcceptCommand(l[k], g)))
  {
    assert Find(l, l[k].id) == Some(k);
  }

  /** Marking the proposal as saving and then filtering it out leaves exactly the others. */
  lemma SavedRemoved(l: seq<ViewModel>, k: nat)
    requires UniqueIds(l) && k < |l|
    ensures var r := Without(SetSaving(l, l[k].id, true), l[k].id);
            |r| == |l| - 1 && forall x :: x in r <==> x in l && x != l[k]
  {
    var id := l[k].id;
    var saving := SetSaving(l, id, true);
    SameIdsKeepUnique(l, saving);
    WithoutRemovesOne(saving, k);
    SavingKeepsOthers(l, id);
    OthersByIndex(l, k);
  }

  lemma SavingKeepsOthers(l: seq<ViewModel>, id: string)
    ensures forall x :: x in SetSaving(l, id, true) && x.id != id <==> x in l && x.id != id
  {
    var saving := SetSaving(l, id, true);
    forall x ensures x in saving && x.id != id <==> x in l && x.id != id {
      if x in l && x.id != id {
        var i :| 0 <= i < |l| && l[i] == x;
        assert saving[i] == x;
      }
      if x in saving && x.id != id {
        var i :| 0 <= i < |saving| && saving[i] == x;
        assert l[i] == x;
      }
    }
  }

  /** With unique ids, the elements with another id are the elements other than l[k]. */
  lemma OthersByIndex(l: seq<ViewModel>, k: nat)
    requires UniqueIds(l) && k < |l|
    ensures forall x :: x in l && x.id != l[k].id <==> x in l && x != l[k]
  {
    forall x | x in l && x != l[k] ensures x.id != l[k].id {
      var i :| 0 <= i < |l| && l[i] == x;
      assert i != k;
    }
  }

  /** Marking the proposal as saving and back leaves it not saving and the others unchanged. */
  lemma SavingCleared(l: seq<ViewModel>, k: nat)
    requires UniqueIds(l) && k < |l|
    ensures var r := SetSaving(SetSaving(l, l[k].id, true), l[k].id, false);
            |r| == |l| && r[k] == l[k].(isSaving := false) && forall i :: 0 <= i < |l| && i != k ==> r[i] == l[i]
  {
  }

  /** A command sent for a valid proposal with a UUID generation passes the server's schema. */
  lemma SentCommandAccepted(p: ViewModel, g: string)
    requires ValidateProposal(p.frontContent, p.backContent).None? && Uuid.IsUuid(g)
    ensures FlashcardSchema.ParseCreate(CommandToJson(AcceptCommand(p, g))) == Success(AcceptCommand(p, g))
  {
    FlashcardSchema.CommandRoundTrip(AcceptCommand(p, g));
  }

  /** Every handler keeps the ids unique. */
  lemma ListUpdatesKeepUnique(l: seq<ViewModel>, id: string, u: ProposalUpdate, g: Option<string>, reply: Reply)
    requires UniqueIds(l)
    ensures UniqueIds(UpdateItems(l, id, u)) && UniqueIds(Without(l, id)) && UniqueIds(Accept(l, g, id, reply).0)
  {
    var edited := UpdateItems(l, id, u);
    SameIdsKeepUnique(l, edited);
    WithoutKeepsUnique(l, id);
    AcceptKeepsUnique(l, g, id, reply);
  }

  lemma AcceptKeepsUnique(l: seq<ViewModel>, g: Option<string>, id: string, reply: Reply)
    requires UniqueIds(l)
    ensures UniqueIds(Accept(l, g, id, reply).0)
  {
    if g.Some? && g.value != "" && Find(l, id).Some? {
      var k := Find(l, id).value;
      match ValidateProposal(l[k].frontContent, l[k].backContent)
      case Some(e) =>
        var r := SetErrors(l, id, e);
        SameIdsKeepUnique(l, r);
      case None =>
        var saving := SetSaving(l, id, true);
        SameIdsKeepUnique(l, saving);
        WithoutKeepsUnique(saving, id);
        var back := SetSaving(saving, id, false);
        SameIdsKeepUnique(saving, back);
    }
  }

  /** A list with the same ids position by position keeps them unique. */
  lemma SameIdsKeepUnique(l: seq<ViewModel>, r: seq<ViewModel>)
    requires UniqueIds(l) && |r| == |l|
    requires forall i :: 0 <= i < |l| ==> r[i].id == l[i].id
    ensures UniqueIds(r)
  {
  }

  lemma {:induction false} WithoutKeepsUnique(l: seq<ViewModel>, id: string)
    requires UniqueIds(l)
    ensures UniqueIds(Without(l, id))
  {
    if l != [] {
      assert UniqueIds(l[1..]) by {
        forall i, j | 0 <= i < j < |l[1..]| ensures l[1..][i].id != l[1..][j].id {
          assert l[1..][i] == l[i + 1] && l[1..][j] == l[j + 1];
        }
      }
      WithoutKeepsUnique(l[1..], id);
      if l[0].id != id {
        var rest := Without(l[1..], id);
        forall k | 0 <= k < |rest| ensures rest[k].id != l[0].id {
          assert rest[k] in l[1..];
          var i :| 0 <= i < |l[1..]| && l[1..][i] == rest[k];
          assert l[i + 1] == rest[k];
        }
      }
    }
  }

  class ProposalReview {
    var proposals: seq<ViewModel>
    var generationId: Option<string>

    constructor()
      ensures proposals == [] && generationId.None?
    {
      proposals, generationId := [], None;
    }

    method InitializeProposals(ps: seq<ProposalDTO>, genId: string)
      modifies this
      ensures proposals == Initialize(ps) && generationId == Some(genId)
    {
      generationId := Some(genId);
      proposals := Initialize(ps);
    }

    method UpdateProposal(id: string, u: ProposalUpdate)
      modifies this
      ensures proposals == UpdateItems(old(proposals), id, u) && generationId == old(generationId)
    {
      proposals := UpdateItems(proposals, id, u);
    }

    /** acceptProposal: the guards, the errors or the saving mark, the request, then the removal
        or the reset of the saving mark. `reply` is how the POST settles. */
    method AcceptProposal(id: string, reply: Reply) returns (sent: Option<CreateCommand>)
      modifies this
      ensures (proposals, sent) == Accept(old(proposals), old(generationId), id, reply)
      ensures generationId == old(generationId)
    {
      sent := None;
      if generationId.None? || generationId.value == "" {
        return;
      }
      var k := Find(proposals, id);
      if k.None? {
        return;
      }
      var proposal := proposals[k.value];
      var errors := ValidateProposal(proposal.frontContent, proposal.backContent);
      if errors.Some? {
        proposals := SetErrors(proposals, id, errors.value);
        return;
      }
      proposals := SetSaving(proposals, id, true);
      var command := AcceptCommand(proposal, generationId.value);
      sent := Some(command);
      if reply.Replied? && Ok(reply.status) {
        proposals := Without(proposals, id);
      } else {
        proposals := SetSaving(proposals, id, false);
      }
    }

    method RejectProposal(id: string)
      modifies this
      ensures proposals == Without(old(proposals), id) && generationId == old(generationId)
    {
      proposals := Without(proposals, id);
    }

    method Reset()
      modifies this
      ensures proposals == [] && generationId.None?
    {
      proposals := [];
      generationId := None;
    }
  }
}
