/** The order in which tables are given out: each search starts at the table after the last
    one given, whoever has left in between. */
module RoundRobin {
  import opened Rings
  import opened Tables
  import opened Restaurant
  import opened History
  import opened Invariants
  import opened Seating
  import opened Reachable
  import opened Liveness
  import KeptByReceptionist

  /** Where the search for the next table starts. */
  function NextTable(seatedAt: seq<int>, tables: nat): int
    requires tables > 0
  {
    if seatedAt == [] then 0 else (seatedAt[|seatedAt| - 1] + 1) % tables
  }

  /** The cursor stands behind the last table given; a group has the table it was given until
      it pays for that table. */
  ghost predicate Given(tables: nat, next: int, assignedTable: seq<int>, d: DeskLog) {
    && tables > 0 && next == NextTable(d.seatedAt, tables)
    && |d.seatedAt| == |d.seated| && |d.paidAt| == |d.paid| && Ids(d.seatedAt, tables)
    && (forall i :: 0 <= i < |d.seated| ==>
          && 0 <= d.seated[i] < |assignedTable|
          && assignedTable[d.seated[i]] == if d.seated[i] in d.paid then -1 else d.seatedAt[i])
    && (forall i, j :: 0 <= i < |d.seated| && 0 <= j < |d.paid| && d.seated[i] == d.paid[j] ==> d.paidAt[j] == d.seatedAt[i])
  }

  lemma SeatingGives(tables: nat, b: Board, assignedTable: seq<int>, d: DeskLog, g: int, t: int, occupant: seq<int>)
    requires Given(tables, b.next, assignedTable, d) && |b.occupied| == tables
    requires 0 <= g < |assignedTable| && g !in d.seated && g !in d.paid && 0 <= t < tables
    ensures Given(tables, Occupy(b, t).next, Put(assignedTable, g, t),
                  d.(seated := d.seated + [g], seatedAt := d.seatedAt + [t], occupant := occupant))
  {
  }

  lemma PayingGives(tables: nat, next: int, assignedTable: seq<int>, d: DeskLog, g: int, t: int, occupant: seq<int>)
    requires Given(tables, next, assignedTable, d)
    requires 0 <= g < |assignedTable| && assignedTable[g] == t >= 0 && g in d.seated && g !in d.paid
    ensures Given(tables, next, Put(assignedTable, g, -1), d.(paid := d.paid + [g], paidAt := d.paidAt + [t], occupant := occupant))
  {
    var d' := d.(paid := d.paid + [g], paidAt := d.paidAt + [t], occupant := occupant);
    assert forall x :: x in d'.paid <==> x in d.paid || x == g;
  }

  /** What the receptionist can count on when it gives out or takes back a table. */
  ghost predicate Prepared(c: Config, rc: ReceptionistState, assignedTable: seq<int>, d: DeskLog) {
    && 0 <= rc.pc && |rc.board.occupied| == c.tables && Decide(rc.board) < c.tables
    && (rc.pc == R_DECIDE ==>
          && 0 <= rc.arg < |assignedTable| && rc.arg !in d.seated && rc.arg !in d.paid
          && (Decide(rc.board) > -1 ==> FirstFrom(rc.board.occupied, rc.board.next, Decide(rc.board)))
          && (Decide(rc.board) <= -1 ==> forall t :: 0 <= t < c.tables ==> rc.board.occupied[t]))
    && (rc.pc == R_PAY_FREE ==>
          && 0 <= rc.arg < |assignedTable| && rc.table == assignedTable[rc.arg] >= 0
          && rc.arg in d.seated && rc.arg !in d.paid)
  }

  lemma BooksPrepare(c: Config, rc: ReceptionistState, assignedTable: seq<int>, readCount: nat, d: DeskLog)
    requires DeskBooks(c, rc, assignedTable, readCount, d) && 0 <= rc.pc
    requires rc.pc == R_DECIDE ==> 0 <= rc.arg < |assignedTable| && rc.arg !in d.seated && rc.arg !in d.paid
    ensures Prepared(c, rc, assignedTable, d)
  {
    DecideIsFirstFree(rc.board);
  }

  lemma IsPrepared(c: Config, w: World, h: Hist)
    requires DeskInv(c, w, h)
    ensures Prepared(c, w.rc, w.sh.assignedTable, h.desk)
  {
    KeptByReceptionist.ReliesHolds(c, w, h);
    BooksPrepare(c, w.rc, w.sh.assignedTable, |h.deskMail.read|, h.desk);
  }

  lemma GivenKeptByReceptionist(c: Config, me: ReceptionistState, sh: Shared, d: DeskLog)
    requires Prepared(c, me, sh.assignedTable, d) && Given(c.tables, me.board.next, sh.assignedTable, d)
    ensures Given(c.tables, ReceptionistMove(c, me, sh).board.next, ReceptionistWrite(me, sh).assignedTable,
                  ReceptionistNotes(me, sh.deskMail, d))
  {
    var t := Decide(me.board);
    if me.pc == R_DECIDE && t > -1 {
      SeatingGives(c.tables, me.board, sh.assignedTable, d, me.arg, t, Put(d.occupant, t, me.arg));
    } else if me.pc == R_PAY_FREE {
      PayingGives(c.tables, me.board.next, sh.assignedTable, d, me.arg, me.table, Put(d.occupant, me.table, -1));
    } else {
      KeptByReceptionist.TablesUntouched(c, me, sh, d);
    }
  }

  /** Only the receptionist gives out and takes back tables. */
  lemma OthersKeepOut(c: Config, w: World, p: Proc, h: Hist)
    requires Enabled(w, p) && p != Receptionist
    ensures var w' := Next(c, w, p); w'.rc == w.rc && w'.sh.assignedTable == w.sh.assignedTable
    ensures Note(w, p, h).desk == h.desk
  {
  }

  lemma {:induction false} GivenHolds(c: Config, run: seq<Proc>)
    requires c.Valid() && Possible(c, run)
    ensures var w := After(c, run).value; Given(c.tables, w.rc.board.next, w.sh.assignedTable, Log(c, run).desk)
  {
    if run != [] {
      var before, p := run[..|run| - 1], run[|run| - 1];
      var w, h := After(c, before).value, Log(c, before);
      GivenHolds(c, before);
      RunKeeps(c, before);
      if p == Receptionist {
        IsPrepared(c, w, h);
        GivenKeptByReceptionist(c, w.rc, w.sh, h.desk);
      } else {
        OthersKeepOut(c, w, p, h);
      }
    }
  }

  /** 0 before the first seating, afterwards the table after the last one given, going round. */
  ghost predicate BehindLast(next: int, seatedAt: seq<int>, tables: nat) {
    && tables > 0
    && (seatedAt == [] ==> next == 0)
    && (seatedAt != [] ==> next == (seatedAt[|seatedAt| - 1] + 1) % tables)
  }

  /** At every moment the cursor stands behind the last table given; payments leave it alone. */
  lemma CursorFollowsSeating(c: Config, run: seq<Proc>)
    requires c.Valid() && Possible(c, run)
    ensures BehindLast(After(c, run).value.rc.board.next, Log(c, run).desk.seatedAt, c.tables)
    ensures |Log(c, run).desk.seatedAt| == |Log(c, run).desk.seated|
  {
    GivenHolds(c, run);
  }

  /** Everybody pays at the table it was given, and has that table until then. */
  lemma PaysWhereSeated(c: Config, run: seq<Proc>, i: nat)
    requires c.Valid() && Possible(c, run) && i < |Log(c, run).desk.seated|
    ensures var w, d := After(c, run).value, Log(c, run).desk;
            && |d.seatedAt| == |d.seated| && |d.paidAt| == |d.paid| && 0 <= d.seatedAt[i] < c.tables
            && (d.seated[i] !in d.paid ==> At(w.sh.assignedTable, d.seated[i], -1) == d.seatedAt[i])
            && (forall j :: 0 <= j < |d.paid| && d.paid[j] == d.seated[i] ==> d.paidAt[j] == d.seatedAt[i])
  {
    GivenHolds(c, run);
  }

  /** The next group is given the first free table from the one after the last table given. */
  ghost predicate SeatsInRound(c: Config, w: World, d: DeskLog, w': World, d': DeskLog) {
    && c.tables > 0 && |d'.seatedAt| == |d.seatedAt| + 1
    && d'.seatedAt[..|d.seatedAt|] == d.seatedAt && d'.seated == d.seated + [w.rc.arg]
    && var t := d'.seatedAt[|d.seatedAt|];
    && FirstFrom(w.rc.board.occupied, NextTable(d.seatedAt, c.tables), t)
    && At(w'.sh.assignedTable, w.rc.arg, -1) == t
  }

  lemma DecisionSeats(c: Config, w: World, h: Hist)
    requires Prepared(c, w.rc, w.sh.assignedTable, h.desk) && Given(c.tables, w.rc.board.next, w.sh.assignedTable, h.desk)
    requires w.rc.pc == R_DECIDE && exists t :: 0 <= t < |w.rc.board.occupied| && !w.rc.board.occupied[t]
    ensures Enabled(w, Receptionist) && SeatsInRound(c, w, h.desk, ReceptionistNext(c, w), ReceptionistNote(w, h).desk)
  {
  }

  lemma SeatingIsRoundRobin(c: Config, run: seq<Proc>)
    requires c.Valid() && Possible(c, run) && After(c, run).value.rc.pc == R_DECIDE
    requires exists t :: 0 <= t < |After(c, run).value.rc.board.occupied| && !After(c, run).value.rc.board.occupied[t]
    ensures var more := run + [Receptionist];
            Possible(c, more) && SeatsInRound(c, After(c, run).value, Log(c, run).desk, After(c, more).value, Log(c, more).desk)
  {
    RunKeeps(c, run);
    GivenHolds(c, run);
    IsPrepared(c, After(c, run).value, Log(c, run));
    DecisionSeats(c, After(c, run).value, Log(c, run));
    OneMoreStep(c, run, Receptionist);
  }
}
