/** Ordering flashcards by creation time, newest or oldest first. The grid uses JavaScript's
    stable Array.prototype.sort; the model is an insertion sort that puts each later element after
    the earlier elements with the same timestamp, and SortStable proves it stable. */
module CreatedOrder {
  import opened Types

  datatype SortDirection = Newest | Oldest

  /** a may precede b. */
  predicate InOrder(a: FlashcardDTO, b: FlashcardDTO, d: SortDirection) {
    if d.Newest? then a.createdAt >= b.createdAt else a.createdAt <= b.createdAt
  }

  predicate Sorted(s: seq<FlashcardDTO>, d: SortDirection) {
    forall i, j :: 0 <= i < j < |s| ==> InOrder(s[i], s[j], d)
  }

  function Insert(s: seq<FlashcardDTO>, x: FlashcardDTO, d: SortDirection): (r: seq<FlashcardDTO>)
    requires Sorted(s, d)
    ensures Sorted(r, d)
    ensures multiset(r) == multiset(s) + multiset{x}
  {
    if s == [] then [x]
    else if !InOrder(s[0], x, d) then [x] + s
    else
      var t := Insert(s[1..], x, d);
      HeadPrecedes(s, x, t, d);
      ConsSorted(s[0], t, d);
      assert s == [s[0]] + s[1..];
      [s[0]] + t
  }

  /** The head of a sorted list precedes every element of the rest with x added, when it precedes x. */
  lemma HeadPrecedes(s: seq<FlashcardDTO>, x: FlashcardDTO, t: seq<FlashcardDTO>, d: SortDirection)
    requires s != [] && Sorted(s, d) && InOrder(s[0], x, d)
    requires multiset(t) == multiset(s[1..]) + multiset{x}
    ensures forall j :: 0 <= j < |t| ==> InOrder(s[0], t[j], d)
  {
    forall j | 0 <= j < |t| ensures InOrder(s[0], t[j], d) {
      assert t[j] in multiset(t);
      if t[j] != x {
        assert t[j] in multiset(s[1..]);
        var k :| 0 <= k < |s[1..]| && s[1..][k] == t[j];
        assert s[k + 1] == t[j];
      }
    }
  }

  lemma ConsSorted(h: FlashcardDTO, t: seq<FlashcardDTO>, d: SortDirection)
    requires Sorted(t, d)
    requires forall j :: 0 <= j < |t| ==> InOrder(h, t[j], d)
    ensures Sorted([h] + t, d)
  {
    var r := [h] + t;
    forall i, j | 0 <= i < j < |r| ensures InOrder(r[i], r[j], d) {
      assert r[j] == t[j - 1];
      if i > 0 {
        assert r[i] == t[i - 1];
      }
    }
  }

  /** Sorts by createdAt in direction d, keeping equal timestamps in their original order. */
  function SortByCreated(s: seq<FlashcardDTO>, d: SortDirection): (r: seq<FlashcardDTO>)
    ensures Sorted(r, d)
    ensures multiset(r) == multiset(s)
  {
    if s == [] then []
    else
      assert s == s[..|s| - 1] + [s[|s| - 1]];
      Insert(SortByCreated(s[..|s| - 1], d), s[|s| - 1], d)
  }

  /** The cards of s with timestamp t, in their order in s. */
  function At(s: seq<FlashcardDTO>, t: int): seq<FlashcardDTO> {
    if s == [] then []
    else if s[0].createdAt == t then [s[0]] + At(s[1..], t)
    else At(s[1..], t)
  }

  lemma {:induction false} AtAppend(a: seq<FlashcardDTO>, b: seq<FlashcardDTO>, t: int)
    ensures At(a + b, t) == At(a, t) + At(b, t)
  {
    if a == [] {
      assert a + b == b;
    } else {
      assert (a + b)[0] == a[0];
      assert (a + b)[1..] == a[1..] + b;
      AtAppend(a[1..], b, t);
    }
  }

  lemma {:induction false} AtNone(s: seq<FlashcardDTO>, t: int)
    requires forall j :: 0 <= j < |s| ==> s[j].createdAt != t
    ensures At(s, t) == []
  {
    if s != [] {
      assert forall j :: 0 <= j < |s[1..]| ==> s[1..][j] == s[j + 1];
      AtNone(s[1..], t);
    }
  }

  /** Inserting x appends it to the cards with its timestamp and leaves the other timestamps'
      runs alone: x goes after every earlier card with the same time. */
  lemma {:induction false} InsertStable(s: seq<FlashcardDTO>, x: FlashcardDTO, d: SortDirection, t: int)
    requires Sorted(s, d)
    ensures At(Insert(s, x, d), t) == At(s, t) + if x.createdAt == t then [x] else []
  {
    if s == [] {
    } else if !InOrder(s[0], x, d) {
      assert Insert(s, x, d) == [x] + s;
      if x.createdAt == t {
        forall j | 0 <= j < |s| ensures s[j].createdAt != t {
          if j > 0 {
            assert InOrder(s[0], s[j], d);
          }
        }
        AtNone(s, t);
      }
    } else {
      SortedTail(s, d);
      InsertStable(s[1..], x, d, t);
      assert ([s[0]] + Insert(s[1..], x, d))[1..] == Insert(s[1..], x, d);
    }
  }

  /** The sort is stable: for every timestamp, the cards with that timestamp keep their input order. */
  lemma {:induction false} SortStable(s: seq<FlashcardDTO>, d: SortDirection, t: int)
    ensures At(SortByCreated(s, d), t) == At(s, t)
  {
    if s != [] {
      var init, last := s[..|s| - 1], s[|s| - 1];
      assert s == init + [last];
      var sorted := SortByCreated(init, d);
      assert SortByCreated(s, d) == Insert(sorted, last, d);
      var tail := if last.createdAt == t then [last] else [];
      SortStable(init, d, t);
      InsertStable(sorted, last, d, t);
      AtAppend(init, [last], t);
      assert At([last], t) == tail;
    }
  }

  /** Sorting a sorted list changes nothing when timestamps are distinct. */
  lemma {:induction false} SortedUnique(a: seq<FlashcardDTO>, b: seq<FlashcardDTO>, d: SortDirection)
    requires Sorted(a, d) && Sorted(b, d) && multiset(a) == multiset(b)
    requires forall i, j :: 0 <= i < j < |a| ==> a[i].createdAt != a[j].createdAt
    ensures a == b
  {
    if a != [] {
      SameHead(a, b, d);
      SameTail(a, b);
      SortedTail(a, d);
      SortedTail(b, d);
      assert forall i, j :: 0 <= i < j < |a[1..]| ==> a[1..][i].createdAt != a[1..][j].createdAt by {
        forall i, j | 0 <= i < j < |a[1..]| ensures a[1..][i].createdAt != a[1..][j].createdAt {
          assert a[1..][i] == a[i + 1] && a[1..][j] == a[j + 1];
        }
      }
      SortedUnique(a[1..], b[1..], d);
      assert a == [a[0]] + a[1..];
      assert b == [b[0]] + b[1..];
    }
  }

  /** Two sorted permutations of a list with distinct timestamps begin with the same card. */
  lemma SameHead(a: seq<FlashcardDTO>, b: seq<FlashcardDTO>, d: SortDirection)
    requires a != [] && Sorted(a, d) && Sorted(b, d) && multiset(a) == multiset(b)
    requires forall i, j :: 0 <= i < j < |a| ==> a[i].createdAt != a[j].createdAt
    ensures |b| == |a| && a[0] == b[0]
  {
    assert |a| == |multiset(a)| == |b|;
    assert a[0] in multiset(a);
    assert b[0] in multiset(b);
    var k :| 0 <= k < |a| && a[k] == b[0];
    var m :| 0 <= m < |b| && b[m] == a[0];
    if k != 0 {
      assert false;
    }
  }

  lemma SameTail(a: seq<FlashcardDTO>, b: seq<FlashcardDTO>)
    requires a != [] && b != [] && a[0] == b[0] && multiset(a) == multiset(b)
    ensures multiset(a[1..]) == multiset(b[1..])
  {
    assert a == [a[0]] + a[1..];
    assert b == [b[0]] + b[1..];
    assert multiset(a) == multiset{a[0]} + multiset(a[1..]);
    assert multiset(b) == multiset{b[0]} + multiset(b[1..]);
    assert multiset(a[1..]) == multiset(a) - multiset{a[0]};
    assert multiset(b[1..]) == multiset(b) - multiset{b[0]};
  }

  lemma SortedTail(s: seq<FlashcardDTO>, d: SortDirection)
    requires s != [] && Sorted(s, d)
    ensures Sorted(s[1..], d)
  {
    forall i, j | 0 <= i < j < |s[1..]| ensures InOrder(s[1..][i], s[1..][j], d) {
      assert s[1..][i] == s[i + 1] && s[1..][j] == s[j + 1];
    }
  }
}
