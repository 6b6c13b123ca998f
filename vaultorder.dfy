/**
 * The vault's display order: `words.sort((a, b) => new Date(b.dateAdded) - new Date(a.dateAdded))`.
 * `Array.prototype.sort` is stable, so the order is determined: newest first, and cards
 * with the same timestamp in their stored order. `NewestFirst` states that order as a
 * stable insertion sort; `SortNewestFirst` is the in-place sort the pages run.
 */
module VaultOrder {

  import opened Cards

  /** Every card is at least as new as every card after it. */
  ghost predicate IsNewestFirst(host: Host, s: seq<Card>) {
    forall p, q :: 0 <= p < q < |s| ==> Stamp(host, s[p]) >= Stamp(host, s[q])
  }

  ghost predicate AllAtLeast(host: Host, s: seq<Card>, k: int) {
    forall p :: 0 <= p < |s| ==> Stamp(host, s[p]) >= k
  }

  /**
   * Places `x`, which stood after every card of `s` in stored order, into the newest-first
   * list `s`: it moves ahead of the cards strictly older than it and no further.
   */
  function Insert(host: Host, s: seq<Card>, x: Card): seq<Card> {
    if s == [] || Stamp(host, s[|s| - 1]) >= Stamp(host, x) then s + [x]
    else Insert(host, s[..|s| - 1], x) + [s[|s| - 1]]
  }

  /** The order in which the vault shows and exports the stored cards. */
  function NewestFirst(host: Host, s: seq<Card>): seq<Card> {
    if s == [] then [] else Insert(host, NewestFirst(host, s[..|s| - 1]), s[|s| - 1])
  }

  lemma {:induction false} InsertPermutes(host: Host, s: seq<Card>, x: Card)
    ensures multiset(Insert(host, s, x)) == multiset(s) + multiset{x}
  {
    if s != [] && Stamp(host, s[|s| - 1]) < Stamp(host, x) {
      InsertPermutes(host, s[..|s| - 1], x);
      assert s == s[..|s| - 1] + [s[|s| - 1]];
    }
  }

  lemma {:induction false} InsertAtLeast(host: Host, s: seq<Card>, x: Card, k: int)
    requires AllAtLeast(host, s, k) && Stamp(host, x) >= k
    ensures AllAtLeast(host, Insert(host, s, x), k)
  {
    if s != [] && Stamp(host, s[|s| - 1]) < Stamp(host, x) {
      InsertAtLeast(host, s[..|s| - 1], x, k);
    }
  }

  lemma {:induction false} InsertKeepsOrder(host: Host, s: seq<Card>, x: Card)
    requires IsNewestFirst(host, s)
    ensures IsNewestFirst(host, Insert(host, s, x))
  {
    if s != [] {
      var n := |s|;
      var last := s[n - 1];
      if Stamp(host, last) >= Stamp(host, x) {
        assert AllAtLeast(host, s, Stamp(host, x));
      } else {
        var init := s[..n - 1];
        InsertKeepsOrder(host, init, x);
        assert AllAtLeast(host, init, Stamp(host, last));
        InsertAtLeast(host, init, x, Stamp(host, last));
      }
    }
  }

  lemma {:induction false} InsertLength(host: Host, s: seq<Card>, x: Card)
    ensures |Insert(host, s, x)| == |s| + 1
  {
    if s != [] && Stamp(host, s[|s| - 1]) < Stamp(host, x) {
      InsertLength(host, s[..|s| - 1], x);
    }
  }

  lemma {:induction false} NewestFirstSorts(host: Host, s: seq<Card>)
    ensures IsNewestFirst(host, NewestFirst(host, s))
  {
    if s != [] {
      NewestFirstSorts(host, s[..|s| - 1]);
      InsertKeepsOrder(host, NewestFirst(host, s[..|s| - 1]), s[|s| - 1]);
    }
  }

  lemma {:induction false} NewestFirstPermutes(host: Host, s: seq<Card>)
    ensures multiset(NewestFirst(host, s)) == multiset(s)
    ensures |NewestFirst(host, s)| == |s|
  {
    if s != [] {
      var init := s[..|s| - 1];
      NewestFirstPermutes(host, init);
      InsertPermutes(host, NewestFirst(host, init), s[|s| - 1]);
      InsertLength(host, NewestFirst(host, init), s[|s| - 1]);
      assert s == init + [s[|s| - 1]];
    }
  }

  /** The display order is newest first and holds exactly the stored cards. */
  lemma NewestFirstSortsAndPermutes(host: Host, s: seq<Card>)
    ensures IsNewestFirst(host, NewestFirst(host, s))
    ensures multiset(NewestFirst(host, s)) == multiset(s)
    ensures |NewestFirst(host, s)| == |s|
  {
    NewestFirstSorts(host, s);
    NewestFirstPermutes(host, s);
  }

  /** A list already newest first keeps its order: ties are never reordered. */
  lemma {:induction false} NewestFirstOfOrdered(host: Host, s: seq<Card>)
    requires IsNewestFirst(host, s)
    ensures NewestFirst(host, s) == s
  {
    if s != [] {
      var init := s[..|s| - 1];
      NewestFirstOfOrdered(host, init);
      assert s == init + [s[|s| - 1]];
    }
  }

  /** The cards of `s` whose timestamp is `k`, in their order in `s`. */
  function Ties(host: Host, s: seq<Card>, k: int): seq<Card> {
    if s == [] then []
    else Ties(host, s[..|s| - 1], k) + (if Stamp(host, s[|s| - 1]) == k then [s[|s| - 1]] else [])
  }

  lemma {:induction false} TiesAppend(host: Host, a: seq<Card>, b: seq<Card>, k: int)
    ensures Ties(host, a + b, k) == Ties(host, a, k) + Ties(host, b, k)
  {
    if b != [] {
      var init := b[..|b| - 1];
      assert (a + b)[..|a + b| - 1] == a + init;
      TiesAppend(host, a, init, k);
    } else {
      assert a + b == a;
    }
  }

  /** Inserting `x` puts it after every card of `s` with its own timestamp. */
  lemma {:induction false} TiesInsert(host: Host, s: seq<Card>, x: Card, k: int)
    ensures Ties(host, Insert(host, s, x), k) == Ties(host, s, k) + Ties(host, [x], k)
  {
    if s == [] || Stamp(host, s[|s| - 1]) >= Stamp(host, x) {
      TiesAppend(host, s, [x], k);
    } else {
      var init, last := s[..|s| - 1], s[|s| - 1];
      TiesInsert(host, init, x, k);
      TiesAppend(host, Insert(host, init, x), [last], k);
      TiesAppend(host, init, [last], k);
      assert init + [last] == s;
      assert [x][..0] == [] && [last][..0] == [];
      assert Stamp(host, last) == k ==> Ties(host, [x], k) == [];
    }
  }

  /**
   * The sort is stable: for every timestamp, the cards that carry it appear in the
   * display order exactly as they stand in storage.
   */
  lemma {:induction false} NewestFirstKeepsTies(host: Host, s: seq<Card>, k: int)
    ensures Ties(host, NewestFirst(host, s), k) == Ties(host, s, k)
  {
    if s != [] {
      var init, last := s[..|s| - 1], s[|s| - 1];
      NewestFirstKeepsTies(host, init, k);
      TiesInsert(host, NewestFirst(host, init), last, k);
      TiesAppend(host, init, [last], k);
      assert init + [last] == s;
      assert [last][..0] == [];
    }
  }

  /** Sorting the display order again changes nothing. */
  lemma NewestFirstIdempotent(host: Host, s: seq<Card>)
    ensures NewestFirst(host, NewestFirst(host, s)) == NewestFirst(host, s)
  {
    NewestFirstSortsAndPermutes(host, s);
    NewestFirstOfOrdered(host, NewestFirst(host, s));
  }

  /** Cards dated January, March and February are shown March, February, January. */
  lemma ThreeMonthsExample(host: Host, jan: Card, feb: Card, mar: Card)
    requires Stamp(host, jan) < Stamp(host, feb) < Stamp(host, mar)
    ensures NewestFirst(host, [jan, mar, feb]) == [mar, feb, jan]
  {
    NewestFirstStep(host, [jan, mar, feb]);
    assert [jan, mar, feb][..2] == [jan, mar];
    NewestFirstStep(host, [jan, mar]);
    assert [jan, mar][..1] == [jan];
    NewestFirstStep(host, [jan]);
    assert [jan][..0] == [];
    assert NewestFirst(host, [jan]) == [jan];
    assert Insert(host, [jan], mar) == Insert(host, [], mar) + [jan];
    assert NewestFirst(host, [jan, mar]) == [mar, jan];
    assert Insert(host, [mar, jan], feb) == Insert(host, [mar], feb) + [jan] by {
      assert [mar, jan][..1] == [mar];
    }
    assert Insert(host, [mar], feb) == [mar, feb];
  }

  /** `NewestFirst` of a non-empty list inserts its last card into the order of the rest. */
  lemma NewestFirstStep(host: Host, s: seq<Card>)
    requires s != []
    ensures NewestFirst(host, s) == Insert(host, NewestFirst(host, s[..|s| - 1]), s[|s| - 1])
  {
  }

  /** One step of moving `x` ahead: it passes the strictly older card at position `j - 1`. */
  lemma InsertPasses(host: Host, s: seq<Card>, j: nat, x: Card)
    requires 0 < j <= |s| && Stamp(host, s[j - 1]) < Stamp(host, x)
    ensures Insert(host, s[..j], x) == Insert(host, s[..j - 1], x) + [s[j - 1]]
  {
    assert s[..j][..j - 1] == s[..j - 1];
  }

  /**
   * The state of the array while `x` moves ahead: `x` stands at index `j` between the
   * first `j` cards of the newest-first prefix `sorted` and the rest of it, and inserting `x`
   * into `sorted` is inserting it into the part before it.
   */
  ghost predicate Moving(host: Host, sorted: seq<Card>, rest: seq<Card>, x: Card, j: nat, cur: seq<Card>) {
    && j <= |sorted|
    && cur == sorted[..j] + [x] + sorted[j..] + rest
    && Insert(host, sorted, x) == Insert(host, sorted[..j], x) + sorted[j..]
  }

  lemma MovingStep(host: Host, sorted: seq<Card>, rest: seq<Card>, x: Card, j: nat, cur: seq<Card>)
    requires Moving(host, sorted, rest, x, j, cur)
    requires 0 < j && Stamp(host, cur[j - 1]) < Stamp(host, x)
    ensures cur[j] == x && cur[j - 1] == sorted[j - 1]
    ensures Moving(host, sorted, rest, x, j - 1, cur[j - 1 := x][j := sorted[j - 1]])
  {
    assert cur[j - 1] == sorted[j - 1];
    assert sorted[..j][..j - 1] == sorted[..j - 1];
    assert sorted[j - 1..] == [sorted[j - 1]] + sorted[j..];
    assert cur[j - 1 := x][j := sorted[j - 1]] == sorted[..j - 1] + [x] + sorted[j - 1..] + rest;
  }

  lemma MovingDone(host: Host, sorted: seq<Card>, rest: seq<Card>, x: Card, j: nat, cur: seq<Card>)
    requires Moving(host, sorted, rest, x, j, cur)
    requires j == 0 || Stamp(host, cur[j - 1]) >= Stamp(host, x)
    ensures cur[..|sorted| + 1] == Insert(host, sorted, x)
    ensures cur[|sorted| + 1..] == rest
  {
    assert j > 0 ==> cur[j - 1] == sorted[j - 1];
    assert sorted[..j] + sorted[j..] == sorted;
    var front := sorted[..j] + [x] + sorted[j..];
    assert cur == front + rest;
    assert cur[..|front|] == front;
  }

  /** Moves the card at index `i` ahead of the strictly older cards of the prefix before it. */
  method InsertAt(host: Host, a: array<Card>, i: nat)
    requires i < a.Length
    modifies a
    ensures a[..i + 1] == Insert(host, old(a[..i]), old(a[i]))
    ensures a[i + 1..] == old(a[i + 1..])
  {
    ghost var sorted := a[..i];
    ghost var rest := a[i + 1..];
    var x := a[i];
    var j := i;
    assert sorted[..j] == sorted && sorted[j..] == [];
    assert a[..] == sorted[..j] + [x] + sorted[j..] + rest;
    while j > 0 && Stamp(host, a[j - 1]) < Stamp(host, x)
      invariant Moving(host, sorted, rest, x, j, a[..])
    {
      MovingStep(host, sorted, rest, x, j, a[..]);
      ghost var before := a[..];
      a[j - 1], a[j] := a[j], a[j - 1];
      assert a[..] == before[j - 1 := x][j := sorted[j - 1]];
      j := j - 1;
    }
    MovingDone(host, sorted, rest, x, j, a[..]);
    assert a[..i + 1] == a[..][..i + 1];
  }

  /** One round of the outer loop: inserting card `i` extends the sorted prefix by one. */
  lemma SortStep(host: Host, orig: seq<Card>, i: nat, before: seq<Card>, after: seq<Card>)
    requires i < |orig| == |before| == |after|
    requires before[..i] == NewestFirst(host, orig[..i]) && before[i..] == orig[i..]
    requires after[..i + 1] == Insert(host, before[..i], before[i])
    requires after[i + 1..] == before[i + 1..]
    ensures after[..i + 1] == NewestFirst(host, orig[..i + 1])
    ensures after[i + 1..] == orig[i + 1..]
  {
    assert before[i] == orig[i];
    assert orig[..i + 1][..i] == orig[..i];
    NewestFirstStep(host, orig[..i + 1]);
    assert before[i + 1..] == orig[i..][1..];
  }

  /** `words.sort(...)` on the array read from storage. */
  method SortNewestFirst(host: Host, a: array<Card>)
    modifies a
    ensures a[..] == NewestFirst(host, old(a[..]))
  {
    ghost var orig := a[..];
    var i := 0;
    while i < a.Length
      invariant 0 <= i <= a.Length
      invariant a[..i] == NewestFirst(host, orig[..i])
      invariant a[i..] == orig[i..]
    {
      ghost var before := a[..];
      InsertAt(host, a, i);
      SortStep(host, orig, i, before, a[..]);
      i := i + 1;
    }
    assert a[..a.Length] == a[..];
    assert orig[..a.Length] == orig;
  }
}
