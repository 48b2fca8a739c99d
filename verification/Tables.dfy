/** The receptionist's record of the tables: which are occupied, how many are, and
    where the round-robin search for a free one starts. */
module Tables {
  import opened Rings

  datatype Board = Board(occupied: seq<bool>, count: int, next: int)

  function Occupy(b: Board, t: int): Board {
    Board(Put(b.occupied, t, true), b.count + 1, if |b.occupied| == 0 then 0 else (t + 1) % |b.occupied|)
  }

  function Vacate(b: Board, t: int): Board {
    b.(occupied := Put(b.occupied, t, false), count := b.count - 1)
  }

  /** The table reached in i steps from next, going round m tables. */
  function Around(next: int, i: int, m: int): (t: int)
    requires 0 < m
    ensures 0 <= t < m
  {
    (i + next) % m
  }

  /** The first free table met from next on, going round; -1 when i offsets have been tried in vain. */
  function FirstFree(occupied: seq<bool>, next: int, i: nat): int
    decreases |occupied| - i
  {
    if i >= |occupied| then -1
    else
      var t := Around(next, i, |occupied|);
      if occupied[t] then FirstFree(occupied, next, i + 1) else t
  }

  /** The table for the next group, or -1 when it must wait. */
  function Decide(b: Board): int {
    if b.count == |b.occupied| then -1 else FirstFree(b.occupied, b.next, 0)
  }

  function Count(s: seq<bool>): (k: nat)
    ensures k <= |s|
  {
    if s == [] then 0 else (if s[0] then 1 else 0) + Count(s[1..])
  }

  /** The counter agrees with the marks, and the cursor names a table. */
  ghost predicate Consistent(b: Board) {
    b.count == Count(b.occupied) && 0 <= b.next < |b.occupied|
  }

  lemma {:induction false} CountUpdate(s: seq<bool>, t: int, on: bool)
    requires 0 <= t < |s|
    ensures Count(s[t := on]) == Count(s) - (if s[t] then 1 else 0) + (if on then 1 else 0)
  {
    if t == 0 {
      assert s[t := on][1..] == s[1..];
    } else {
      CountUpdate(s[1..], t - 1, on);
      assert s[t := on][1..] == s[1..][t - 1 := on];
    }
  }

  lemma {:induction false} CountFull(s: seq<bool>)
    ensures Count(s) == |s| <==> forall t :: 0 <= t < |s| ==> s[t]
  {
    if s != [] {
      CountFull(s[1..]);
      assert forall t :: 1 <= t < |s| ==> s[t] == s[1..][t - 1];
      if forall t :: 0 <= t < |s| ==> s[t] {
        assert forall t :: 0 <= t < |s[1..]| ==> s[1..][t] == s[t + 1];
      }
    }
  }

  lemma {:induction false} NoneOccupied(s: seq<bool>)
    requires forall t :: 0 <= t < |s| ==> !s[t]
    ensures Count(s) == 0
  {
    if s != [] { NoneOccupied(s[1..]); }
  }

  lemma {:induction false} FirstFreeOffset(occupied: seq<bool>, next: int, i: nat)
    returns (k: nat)
    requires 0 <= next < |occupied|
    requires i <= |occupied|
    ensures i <= k <= |occupied|
    ensures forall j :: i <= j < k ==> occupied[Around(next, j, |occupied|)]
    ensures k == |occupied| ==> FirstFree(occupied, next, i) == -1
    ensures k < |occupied| ==> FirstFree(occupied, next, i) == Around(next, k, |occupied|)
                               && !occupied[Around(next, k, |occupied|)]
    decreases |occupied| - i
  {
    if i >= |occupied| || !occupied[Around(next, i, |occupied|)] {
      k := i;
    } else {
      k := FirstFreeOffset(occupied, next, i + 1);
    }
  }

  /** Steps to go forwards from next to t on a round of m tables. */
  function Ahead(next: int, t: int, m: int): int {
    if next <= t then t - next else t - next + m
  }

  /** Every table is met on one trip round, at the offset that leads forwards to it. */
  lemma OffsetOf(next: int, t: int, m: int)
    requires 0 <= next < m && 0 <= t < m
    ensures 0 <= Ahead(next, t, m) < m && Around(next, Ahead(next, t, m), m) == t
  {
    ModUnique(Ahead(next, t, m) + next, if next <= t then 0 else 1, t, m);
  }

  lemma OffsetIs(next: int, k: nat, m: int)
    requires 0 <= next < m && k < m
    ensures Ahead(next, Around(next, k, m), m) == k
  {
    if k + next < m { ModUnique(k + next, 0, k + next, m); } else { ModUnique(k + next, 1, k + next - m, m); }
  }

  /** Table t is free, and going up from next, and on from 0 after the last table, no
      free table comes before it. */
  ghost predicate FirstFrom(occupied: seq<bool>, next: int, t: int) {
    && 0 <= t < |occupied| && !occupied[t]
    && (next <= t ==> forall u :: 0 <= next <= u < t ==> occupied[u])
    && (t < next ==> (forall u :: 0 <= next <= u < |occupied| ==> occupied[u]) && (forall u :: 0 <= u < t ==> occupied[u]))
  }

  lemma OffsetFirst(occupied: seq<bool>, next: int, k: nat)
    requires 0 <= next < |occupied| && k < |occupied|
    requires !occupied[Around(next, k, |occupied|)]
    requires forall j :: 0 <= j < k ==> occupied[Around(next, j, |occupied|)]
    ensures FirstFrom(occupied, next, Around(next, k, |occupied|))
  {
    var m := |occupied|;
    var t := Around(next, k, m);
    OffsetIs(next, k, m);
    forall u | 0 <= u < m && Ahead(next, u, m) < Ahead(next, t, m)
      ensures occupied[u]
    {
      OffsetOf(next, u, m);
    }
  }

  lemma DecideOffset(b: Board) returns (k: nat)
    requires Consistent(b)
    ensures k <= |b.occupied|
    ensures forall j :: 0 <= j < k ==> b.occupied[Around(b.next, j, |b.occupied|)]
    ensures k == |b.occupied| ==> Decide(b) == -1 && forall t :: 0 <= t < |b.occupied| ==> b.occupied[t]
    ensures k < |b.occupied| ==> b.count < |b.occupied| && Decide(b) == Around(b.next, k, |b.occupied|) && !b.occupied[Decide(b)]
  {
    var m := |b.occupied|;
    CountFull(b.occupied);
    k := FirstFreeOffset(b.occupied, b.next, 0);
    if k == m {
      forall t | 0 <= t < m
        ensures b.occupied[t]
      {
        OffsetOf(b.next, t, m);
      }
    } else {
      assert !b.occupied[Around(b.next, k, m)];
    }
  }

  /** The decision is -1 exactly when every table is occupied, and a free table otherwise. */
  lemma DecideIsFree(b: Board)
    requires Consistent(b)
    ensures Decide(b) == -1 <==> forall t :: 0 <= t < |b.occupied| ==> b.occupied[t]
    ensures Decide(b) == -1 <==> b.count == |b.occupied|
    ensures Decide(b) != -1 ==> 0 <= Decide(b) < |b.occupied| && !b.occupied[Decide(b)]
  {
    var k := DecideOffset(b);
    CountFull(b.occupied);
  }

  /** The decision is -1 exactly when every table is occupied; otherwise it is the first free
      table from the cursor upwards, going round. */
  lemma DecideIsFirstFree(b: Board)
    requires Consistent(b)
    ensures Decide(b) == -1 <==> forall t :: 0 <= t < |b.occupied| ==> b.occupied[t]
    ensures Decide(b) == -1 <==> b.count == |b.occupied|
    ensures Decide(b) != -1 ==> FirstFrom(b.occupied, b.next, Decide(b))
    ensures Decide(b) != -1 ==>
              exists k :: 0 <= k < |b.occupied| && Decide(b) == Around(b.next, k, |b.occupied|)
                          && !b.occupied[Decide(b)]
                          && forall j :: 0 <= j < k ==> b.occupied[Around(b.next, j, |b.occupied|)]
  {
    DecideIsFree(b);
    var k := DecideOffset(b);
    if k < |b.occupied| {
      OffsetFirst(b.occupied, b.next, k);
    }
  }

  lemma OccupyConsistent(b: Board, t: int)
    requires Consistent(b) && 0 <= t < |b.occupied| && !b.occupied[t]
    ensures Consistent(Occupy(b, t))
  {
    CountUpdate(b.occupied, t, true);
  }

  lemma VacateConsistent(b: Board, t: int)
    requires Consistent(b) && 0 <= t < |b.occupied| && b.occupied[t]
    ensures Consistent(Vacate(b, t))
  {
    CountUpdate(b.occupied, t, false);
  }
}
