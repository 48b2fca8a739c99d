/** The receptionist's bookkeeping as the program keeps it: a bit mask of occupied tables, a
    counter, a round-robin cursor and a circular waiting list. Each method is tied to the
    function that the transition system uses for the same step. */
module ReceptionDesk {
  import opened Rings
  import opened Tables

  /** 1 << t */
  function Mask(t: nat): bv32 {
    if t == 0 then 1 else Mask(t - 1) << 1
  }

  /** status | x */
  function With(status: bv32, x: bv32): bv32 {
    status | x
  }

  /** status & ~x */
  function Without(status: bv32, x: bv32): bv32 {
    status & !x
  }

  predicate Bit(status: bv32, t: nat) {
    status & Mask(t) != 0
  }

  /** The n low bits of the status word, as marks. */
  function Marks(status: bv32, n: nat): seq<bool> {
    seq(n, t requires 0 <= t < n => Bit(status, t))
  }

  lemma ShiftOnce(b: bv32)
    requires b < 31
    ensures (b + 1) as int == b as int + 1
    ensures ((1 as bv32) << b) << 1 == (1 as bv32) << (b + 1)
  {
  }

  lemma Narrow(b: bv32)
    requires b as int < 31
    ensures b < 31
  {
  }

  lemma {:induction false} MaskShift(t: nat) returns (b: bv32)
    requires t < 32
    ensures b < 32 && b as int == t && Mask(t) == (1 as bv32) << b
  {
    if t == 0 {
      b := 0;
    } else {
      b := MaskShift(t - 1);
      Narrow(b);
      ShiftOnce(b);
      b := b + 1;
    }
  }

  lemma Exponents(t: nat, u: nat) returns (a: bv32, b: bv32)
    requires t < 32 && u < 32
    ensures a < 32 && b < 32 && Mask(t) == (1 as bv32) << a && Mask(u) == (1 as bv32) << b
    ensures a == b <==> t == u
  {
    a := MaskShift(t);
    b := MaskShift(u);
  }

  lemma PowersDisjoint(a: bv32, b: bv32)
    requires a < 32 && b < 32
    ensures a != b ==> ((1 as bv32) << a) & ((1 as bv32) << b) == 0
    ensures (1 as bv32) << a != 0
  {
  }

  /** Different tables have different bits. */
  lemma MasksDisjoint(t: nat, u: nat)
    requires t < 32 && u < 32
    ensures t != u ==> Mask(t) & Mask(u) == 0
    ensures Mask(t) != 0
  {
    var a, b := Exponents(t, u);
    PowersDisjoint(a, b);
  }

  function Marked(status: bv32, t: nat): bv32 {
    With(status, Mask(t))
  }

  function Unmarked(status: bv32, t: nat): bv32 {
    Without(status, Mask(t))
  }

  lemma MarkedHere(status: bv32, t: nat)
    requires Mask(t) != 0
    ensures Bit(Marked(status, t), t)
  {
  }

  lemma MarkedThere(status: bv32, t: nat, u: nat)
    requires Mask(t) & Mask(u) == 0
    ensures Bit(Marked(status, t), u) == Bit(status, u)
  {
  }

  lemma UnmarkedHere(status: bv32, t: nat)
    requires Mask(t) != 0
    ensures !Bit(Unmarked(status, t), t)
  {
  }

  lemma ClearOther(status: bv32, x: bv32, u: nat)
    requires x & Mask(u) == 0
    ensures Bit(Without(status, x), u) == Bit(status, u)
  {
  }

  /** Setting or clearing bit t changes the mark of table t and no other. */
  lemma MarksChanged(status: bv32, t: nat, n: nat)
    requires t < n <= 32
    ensures Marks(Marked(status, t), n) == Marks(status, n)[t := true]
    ensures Marks(Unmarked(status, t), n) == Marks(status, n)[t := false]
  {
    forall u: nat | u < n
      ensures Bit(Marked(status, t), u) <==> u == t || Bit(status, u)
      ensures Bit(Unmarked(status, t), u) <==> u != t && Bit(status, u)
    {
      MasksDisjoint(t, u);
      if u == t {
        MarkedHere(status, t);
        UnmarkedHere(status, t);
      } else {
        MarkedThere(status, t, u);
        ClearOther(status, Mask(t), u);
      }
    }
  }

  class Receptionist {
    // struct record
    var status: bv32
    var nOccupied: int
    var nextTable: int
    var listBegin: int
    var listEnd: int
    const waitlist: array<int>
    // shared memory
    var groupsWaiting: int
    const assignedTable: array<int>

    const tables: nat

    /** The masks and one-byte fields are wide enough for this many tables and groups. */
    ghost predicate Valid()
      reads this, waitlist, assignedTable
    {
      && 1 <= tables <= 31 && assignedTable.Length <= 128
      && waitlist != assignedTable && waitlist.Length > 0
      && 0 <= listBegin < waitlist.Length && 0 <= listEnd < waitlist.Length
      && Consistent(Books())
    }

    ghost function Books(): Board
      reads this
      requires tables <= 31
    {
      Board(Marks(status, tables), nOccupied, nextTable)
    }

    ghost function Waiting(): Ring<int>
      reads this, waitlist
    {
      Ring(waitlist[..], groupsWaiting, listBegin, listEnd)
    }

    constructor (tables: nat, maxGroups: nat)
      requires 1 <= tables <= 31 && 3 <= maxGroups <= 128
      ensures Valid() && this.tables == tables
      ensures fresh(waitlist) && fresh(assignedTable)
      ensures assignedTable[..] == seq(maxGroups, _ => -1)
      ensures forall t :: 0 <= t < tables ==> !Books().occupied[t]
      ensures nOccupied == nextTable == 0
      ensures waitlist.Length == (maxGroups - 2) * 4 && Holds(Waiting(), [])
    {
      this.tables := tables;
      status, nOccupied, nextTable := 0, 0, 0;
      listBegin, listEnd, groupsWaiting := 0, 0, 0;
      waitlist := new int[(maxGroups - 2) * 4];
      assignedTable := new int[maxGroups](_ => -1);
      new;
      NoneOccupied(Books().occupied);
    }

    method IsTableOccupied(t: nat) returns (occupied: bool)
      requires Valid() && t < tables
      ensures occupied == Books().occupied[t]
    {
      occupied := Bit(status, t);
    }

    method SetTableOccupied(t: nat, occupied: bool)
      requires Valid() && t < tables
      requires Books().occupied[t] != occupied
      modifies this`status, this`nOccupied, this`nextTable
      ensures Valid()
      ensures Books() == if occupied then Occupy(old(Books()), t) else Vacate(old(Books()), t)
      ensures Books().occupied == old(Books()).occupied[t := occupied]
      ensures nOccupied == old(nOccupied) + (if occupied then 1 else -1)
      ensures nextTable == if occupied then (t + 1) % tables else old(nextTable)
    {
      ghost var before := Books();
      MarksChanged(status, t, tables);
      if occupied {
        status := Marked(status, t);
        nOccupied := nOccupied + 1;
        nextTable := (t + 1) % tables;
        OccupyConsistent(before, t);
      } else {
        status := Unmarked(status, t);
        nOccupied := nOccupied - 1;
        VacateConsistent(before, t);
      }
    }

    /** The search loop finds the first free table round from the cursor; -1 iff there is none. */
    method DecideTableOrWait() returns (table: int)
      requires Valid()
      ensures table == Decide(Books())
      ensures table == -1 <==> forall t :: 0 <= t < tables ==> Books().occupied[t]
      ensures table == -1 <==> nOccupied == tables
      ensures table != -1 ==> FirstFrom(Books().occupied, nextTable, table)
    {
      DecideIsFirstFree(Books());
      if nOccupied == tables {
        return -1;
      }
      for i := 0 to tables
        invariant FirstFree(Books().occupied, nextTable, i) == FirstFree(Books().occupied, nextTable, 0)
      {
        var index := (i + nextTable) % tables;
        assert index == Around(nextTable, i, tables);
        var occupied := IsTableOccupied(index);
        if !occupied {
          return index;
        }
      }
      return -1;
    }

    /** Takes the group that has waited longest off the list, -1 if nobody waits. */
    method DecideNextGroup(ghost line: seq<int>) returns (g: int)
      requires Valid() && Holds(Waiting(), line)
      modifies this`listBegin, this`groupsWaiting
      ensures Valid() && Books() == old(Books())
      ensures line == [] ==> g == -1 && Waiting() == old(Waiting())
      ensures line != [] ==> g == line[0] == Front(old(Waiting()), -1) && Waiting() == Pop(old(Waiting()))
                             && Holds(Waiting(), line[1..])
    {
      g := -1;
      if groupsWaiting != 0 {
        PopKeepsOrder(Waiting(), line, -1);
        g := waitlist[listBegin];
        listBegin := (listBegin + 1) % waitlist.Length;
        groupsWaiting := groupsWaiting - 1;
      }
    }

    /** Seats group n at the table decided on, or appends it to the line. The result says
        whether waitForTable[n] is raised. */
    method ProvideTableOrWaitingRoom(n: nat, ghost line: seq<int>) returns (seated: bool)
      requires Valid() && n < assignedTable.Length && Holds(Waiting(), line)
      requires nOccupied == tables ==> |line| < waitlist.Length
      modifies this, waitlist, assignedTable
      ensures Valid()
      ensures seated <==> exists t :: 0 <= t < tables && !old(Books()).occupied[t]
      ensures seated ==>
                && Books() == Occupy(old(Books()), Decide(old(Books())))
                && assignedTable[..] == old(assignedTable[..])[n := Decide(old(Books()))]
                && Waiting() == old(Waiting())
                && FirstFrom(old(Books()).occupied, old(nextTable), assignedTable[n])
                && nextTable == (assignedTable[n] + 1) % tables
      ensures !seated ==>
                && Books() == old(Books()) && assignedTable[..] == old(assignedTable[..])
                && Waiting() == Push(old(Waiting()), n) && Holds(Waiting(), line + [n])
    {
      var table := DecideTableOrWait();
      if table > -1 {
        SetTableOccupied(table, true);
        assignedTable[n] := table;
        seated := true;
      } else {
        PushKeepsOrder(Waiting(), line, n);
        ghost var before := Waiting();
        waitlist[listEnd] := n;
        listEnd := (listEnd + 1) % waitlist.Length;
        groupsWaiting := groupsWaiting + 1;
        seated := false;
        assert Waiting() == Push(before, n);
      }
    }

    /** A payment frees the payer's table; if anybody waits, the head of the line gets that
        very table in the same call. The results name the semaphores raised; a payer
        without a table is the "BUG" branch, which raises nothing. */
    method ReceivePayment(n: nat, ghost line: seq<int>) returns (receiptAt: int, called: int)
      requires Valid() && n < assignedTable.Length && Holds(Waiting(), line)
      requires forall i :: 0 <= i < |line| ==> 0 <= line[i] < assignedTable.Length
      requires line != [] ==> nOccupied == tables
      requires assignedTable[n] >= 0 ==> assignedTable[n] < tables && Books().occupied[assignedTable[n]]
      modifies this, waitlist, assignedTable
      ensures Valid()
      ensures receiptAt == old(assignedTable[n])
      ensures receiptAt < 0 ==> called == -1 && unchanged(this) && unchanged(waitlist) && unchanged(assignedTable)
      ensures receiptAt >= 0 && line == [] ==>
                && called == -1 && Holds(Waiting(), [])
                && Books() == Vacate(old(Books()), receiptAt)
                && Books().occupied == old(Books()).occupied[receiptAt := false]
                && nOccupied == old(nOccupied) - 1 && nextTable == old(nextTable)
                && assignedTable[..] == old(assignedTable[..])[n := -1]
      ensures receiptAt >= 0 && line != [] ==>
                && called == line[0] && Holds(Waiting(), line[1..])
                && Books().occupied == old(Books()).occupied && nOccupied == tables
                && nextTable == (receiptAt + 1) % tables
                && assignedTable[..] == old(assignedTable[..])[n := -1][line[0] := receiptAt]
    {
      receiptAt, called := assignedTable[n], -1;
      if receiptAt < 0 {
        return;
      }
      assignedTable[n] := -1;
      ghost var before := Books();
      SetTableOccupied(receiptAt, false);
      called := DecideNextGroup(line);
      if called > -1 {
        OnlyFree(before, receiptAt);
        var seated := ProvideTableOrWaitingRoom(called, line[1..]);
        assert Books().occupied == before.occupied;
      }
    }
  }

  /** When every table was occupied, a vacated one is the only choice. */
  lemma OnlyFree(b: Board, t: int)
    requires Consistent(b) && b.count == |b.occupied| && 0 <= t < |b.occupied|
    ensures Decide(Vacate(b, t)) == t
  {
    CountFull(b.occupied);
    VacateConsistent(b, t);
    DecideIsFree(Vacate(b, t));
  }
}
