/**
  Ordering of domain events by sequence number: the sort the read engine applies,
  and the facts that make its result unique when sequence numbers are unique.
 */
module Ordering {
  import opened Records

  predicate SortedBySequence(s: seq<DomainEvent>) {
    forall i, j | 0 <= i < j < |s| :: s[i].sequenceNumber <= s[j].sequenceNumber
  }

  predicate StrictlyAscending(s: seq<DomainEvent>) {
    forall i, j | 0 <= i < j < |s| :: s[i].sequenceNumber < s[j].sequenceNumber
  }

  /** No two events of aggregate `id` in `s` share a sequence number. */
  predicate UniqueFor(s: seq<DomainEvent>, id: string) {
    forall i, j | 0 <= i < j < |s| && s[i].aggregateIdentifier == id && s[j].aggregateIdentifier == id ::
      s[i].sequenceNumber != s[j].sequenceNumber
  }

  /** Puts `e` in front of the first element whose sequence number is not smaller. */
  function Insert(e: DomainEvent, s: seq<DomainEvent>): (r: seq<DomainEvent>)
    requires SortedBySequence(s)
    ensures SortedBySequence(r)
    ensures multiset(r) == multiset(s) + multiset{e}
  {
    if s == [] || e.sequenceNumber <= s[0].sequenceNumber then
      PrependSorted(e, s);
      [e] + s
    else
      var rest := Insert(e, s[1..]);
      assert s == [s[0]] + s[1..];
      HeadBound(s[0], s[1..], e, rest);
      PrependSorted(s[0], rest);
      [s[0]] + rest
  }

  /** An event no greater than the head of a sorted sequence can be put in front of it. */
  lemma PrependSorted(x: DomainEvent, t: seq<DomainEvent>)
    requires SortedBySequence(t)
    requires t == [] || x.sequenceNumber <= t[0].sequenceNumber
    ensures SortedBySequence([x] + t)
  {
  }

  /**
    The first event of an arrangement of a sorted `t` and `e` is no smaller than
    an event `x` that precedes `t` and is smaller than `e`.
   */
  lemma HeadBound(x: DomainEvent, t: seq<DomainEvent>, e: DomainEvent, r: seq<DomainEvent>)
    requires SortedBySequence([x] + t)
    requires x.sequenceNumber < e.sequenceNumber
    requires multiset(r) == multiset(t) + multiset{e}
    ensures r == [] || x.sequenceNumber <= r[0].sequenceNumber
  {
    if r != [] && r[0] != e {
      assert r[0] in multiset(r);
      assert r[0] in t;
      var k :| 0 <= k < |t| && t[k] == r[0];
      assert ([x] + t)[0] == x && ([x] + t)[k + 1] == t[k];
    }
  }

  /**
    Insertion sort by sequence number. Events with equal sequence numbers keep
    their relative order, so a tie is broken by append order.
   */
  function Sort(s: seq<DomainEvent>): (r: seq<DomainEvent>)
    ensures SortedBySequence(r)
    ensures multiset(r) == multiset(s)
  {
    if s == [] then []
    else
      assert s == [s[0]] + s[1..];
      Insert(s[0], Sort(s[1..]))
  }

  /** Two strictly ascending arrangements of the same events are the same sequence. */
  lemma {:induction false} AscendingPermutationsEqual(a: seq<DomainEvent>, b: seq<DomainEvent>)
    requires StrictlyAscending(a) && StrictlyAscending(b)
    requires multiset(a) == multiset(b)
    ensures a == b
  {
    if a != [] {
      SameFirst(a, b);
      DropFirst(a, b);
      AscendingPermutationsEqual(a[1..], b[1..]);
      assert a == [a[0]] + a[1..] && b == [b[0]] + b[1..];
    } else {
      assert |b| == |multiset(b)| == 0;
    }
  }

  /** Strictly ascending arrangements of the same events start with the same event. */
  lemma SameFirst(a: seq<DomainEvent>, b: seq<DomainEvent>)
    requires StrictlyAscending(a) && StrictlyAscending(b)
    requires multiset(a) == multiset(b) && a != []
    ensures b != [] && a[0] == b[0]
  {
    assert a[0] in multiset(b);
    var j :| 0 <= j < |b| && b[j] == a[0];
    assert b[0] in multiset(a);
    var i :| 0 <= i < |a| && a[i] == b[0];
    if j != 0 {
      assert false;
    }
  }

  /** Removing the same first event from two arrangements of the same events leaves the same events. */
  lemma DropFirst(a: seq<DomainEvent>, b: seq<DomainEvent>)
    requires a != [] && b != [] && a[0] == b[0]
    requires multiset(a) == multiset(b)
    ensures multiset(a[1..]) == multiset(b[1..])
  {
    assert a == [a[0]] + a[1..];
    assert b == [b[0]] + b[1..];
    assert multiset(a) == multiset{a[0]} + multiset(a[1..]);
    assert multiset(b) == multiset{a[0]} + multiset(b[1..]);
    assert multiset(a[1..]) == multiset(a) - multiset{a[0]};
  }

  /** An event counted twice sits at two distinct positions. */
  lemma {:induction false} TwoOccurrences(s: seq<DomainEvent>, x: DomainEvent)
    requires multiset(s)[x] >= 2
    ensures exists i, j :: 0 <= i < j < |s| && s[i] == x && s[j] == x
  {
    assert s == [s[0]] + s[1..];
    if s[0] == x {
      assert x in multiset(s[1..]);
      var j :| 0 <= j < |s[1..]| && s[1..][j] == x;
      assert s[0] == x && s[j + 1] == x;
    } else {
      TwoOccurrences(s[1..], x);
      var i, j :| 0 <= i < j < |s[1..]| && s[1..][i] == x && s[1..][j] == x;
      assert s[i + 1] == x && s[j + 1] == x;
    }
  }

  /** An event at two distinct positions is counted at least twice. */
  lemma CountedTwice(s: seq<DomainEvent>, i: nat, j: nat)
    requires i < j < |s| && s[i] == s[j]
    ensures multiset(s)[s[i]] >= 2
  {
    assert s == s[..j] + s[j..];
    assert s[i] in s[..j];
    assert s[j] in s[j..];
  }

  /**
    Events of aggregate `id` drawn from `c` (no more often than they occur there)
    keep `c`'s uniqueness of sequence numbers.
   */
  lemma UniqueSurvives(c: seq<DomainEvent>, id: string, b: seq<DomainEvent>)
    requires UniqueFor(c, id)
    requires multiset(b) <= multiset(c)
    requires forall k | 0 <= k < |b| :: b[k].aggregateIdentifier == id
    ensures UniqueFor(b, id)
  {
    forall i, j | 0 <= i < j < |b| ensures b[i].sequenceNumber != b[j].sequenceNumber {
      if b[i] == b[j] {
        CountedTwice(b, i, j);
        TwoOccurrences(c, b[i]);
      } else {
        assert b[i] in multiset(c) && b[j] in multiset(c);
        DistinctMembersDiffer(c, id, b[i], b[j]);
      }
    }
  }

  /** Two different events of aggregate `id` in `c` have different sequence numbers. */
  lemma DistinctMembersDiffer(c: seq<DomainEvent>, id: string, x: DomainEvent, y: DomainEvent)
    requires UniqueFor(c, id)
    requires x in c && y in c && x != y
    requires x.aggregateIdentifier == id && y.aggregateIdentifier == id
    ensures x.sequenceNumber != y.sequenceNumber
  {
  }

  /** A sorted sequence whose sequence numbers are unique ascends strictly. */
  lemma {:induction false} SortedUniqueAscends(s: seq<DomainEvent>, id: string)
    requires SortedBySequence(s) && UniqueFor(s, id)
    requires forall k | 0 <= k < |s| :: s[k].aggregateIdentifier == id
    ensures StrictlyAscending(s)
  {
  }

  /**
    When the events of one aggregate have unique sequence numbers, sorting them
    gives the one strictly ascending arrangement of them, whatever order they came in.
   */
  lemma SortIsAscendingArrangement(s: seq<DomainEvent>, id: string, expected: seq<DomainEvent>)
    requires forall k | 0 <= k < |s| :: s[k].aggregateIdentifier == id
    requires UniqueFor(s, id)
    requires SortedBySequence(expected) && multiset(expected) == multiset(s)
    ensures Sort(s) == expected
  {
    var r := Sort(s);
    forall k | 0 <= k < |r| ensures r[k].aggregateIdentifier == id {
      assert r[k] in multiset(s);
    }
    forall k | 0 <= k < |expected| ensures expected[k].aggregateIdentifier == id {
      assert expected[k] in multiset(s);
    }
    UniqueSurvives(s, id, r);
    UniqueSurvives(s, id, expected);
    SortedUniqueAscends(r, id);
    SortedUniqueAscends(expected, id);
    AscendingPermutationsEqual(r, expected);
  }
}
