/** Does a group leave only after its own payment has been processed? The tableDone semaphore
    of a table counts payments made there and does not say whose they were. So it does when
    there is a table for every group, and not otherwise. */
module OwnReceipt {
  import opened Rings
  import opened Tables
  import opened Restaurant
  import opened History
  import opened Invariants
  import opened Seating
  import opened Progress
  import opened Termination
  import opened Reachable
  import opened Liveness
  import KeptByReceptionist

  /** Every group that has taken a receipt has had its own payment processed. */
  ghost predicate OnlyOwnReceipts(gr: seq<GroupState>, paid: seq<int>) {
    forall g :: 0 <= g < |gr| && gr[g].pc > G_AWAIT_DONE ==> g in paid
  }

  // Enough tables: the i-th group seated gets table i, and nobody gets it again

  ghost predicate Rotation(gr: seq<GroupState>, assignedTable: seq<int>, board: Board, seated: seq<int>, tables: nat) {
    && |gr| == |assignedTable| <= tables && |board.occupied| == tables
    && |seated| <= tables && board.next == (if |seated| == tables then 0 else |seated|)
    && (forall t :: |seated| <= t < tables ==> !board.occupied[t])
    && (forall i :: 0 <= i < |seated| ==>
          && 0 <= seated[i] < |gr|
          && assignedTable[seated[i]] in {-1, i}
          && (gr[seated[i]].pc > G_PAY_TABLE ==> gr[seated[i]].table == i))
  }

  lemma SeatsToCome(c: Config, rc: ReceptionistState, d: DeskLog)
    requires Fifo(c, rc, d) && DeskHands(c, rc) && rc.pc == R_DECIDE
    requires NoRepeats(d.tableReqs) && Ids(d.tableReqs, c.groups)
    ensures |d.seated| < c.groups && rc.board.count <= |d.seated|
  {
    NoRepeatsFits(d.tableReqs, c.groups);
    assert Fresh(rc) || Recalled(rc);
  }

  /** With a table never used yet, that is the next one given. */
  lemma DecideNext(b: Board, k: nat)
    requires k < |b.occupied| && b.next == k && b.count <= k && !b.occupied[k]
    ensures Decide(b) == k
  {
    ModUnique(0 + b.next, 0, k, |b.occupied|);
    assert Around(b.next, 0, |b.occupied|) == k;
  }

  lemma SeatingRotates(gr: seq<GroupState>, assignedTable: seq<int>, b: Board, seated: seq<int>, g: int, tables: nat)
    requires Rotation(gr, assignedTable, b, seated, tables) && |seated| < tables
    requires 0 <= g < |gr| && gr[g].pc == G_AWAIT_TABLE && g !in seated
    ensures Rotation(gr, Put(assignedTable, g, |seated|), Occupy(b, |seated|), seated + [g], tables)
  {
    var k := |seated|;
    if k + 1 < tables { ModUnique(k + 1, 0, k + 1, tables); } else { ModUnique(k + 1, 1, 0, tables); }
  }

  lemma FreeingRotates(gr: seq<GroupState>, assignedTable: seq<int>, b: Board, seated: seq<int>, g: int, t: int, tables: nat)
    requires Rotation(gr, assignedTable, b, seated, tables)
    ensures Rotation(gr, Put(assignedTable, g, -1), Vacate(b, t), seated, tables)
  {
  }

  lemma NewTable(c: Config, w: World, h: Hist)
    requires DeskInv(c, w, h) && w.rc.pc == R_DECIDE
    requires Rotation(w.gr, w.sh.assignedTable, w.rc.board, h.desk.seated, c.tables)
    ensures |h.desk.seated| < c.tables && Decide(w.rc.board) == |h.desk.seated|
    ensures 0 <= w.rc.arg < |w.gr| && w.gr[w.rc.arg].pc == G_AWAIT_TABLE && w.rc.arg !in h.desk.seated
  {
    KeptByReceptionist.ReliesHolds(c, w, h);
    SeatsToCome(c, w.rc, h.desk);
    DecideNext(w.rc.board, |h.desk.seated|);
  }

  lemma RotationKeptByReceptionist(c: Config, w: World, h: Hist)
    requires DeskInv(c, w, h)
    requires Rotation(w.gr, w.sh.assignedTable, w.rc.board, h.desk.seated, c.tables)
    ensures Rotation(w.gr, ReceptionistWrite(w.rc, w.sh).assignedTable, ReceptionistMove(c, w.rc, w.sh).board,
                     ReceptionistNotes(w.rc, w.sh.deskMail, h.desk).seated, c.tables)
  {
    var me, sh, d := w.rc, w.sh, h.desk;
    if me.pc == R_DECIDE {
      NewTable(c, w, h);
      SeatingRotates(w.gr, sh.assignedTable, me.board, d.seated, me.arg, c.tables);
    } else if me.pc == R_PAY_FREE {
      FreeingRotates(w.gr, sh.assignedTable, me.board, d.seated, me.arg, me.table, c.tables);
    } else {
      assert ReceptionistMove(c, me, sh).board == me.board && ReceptionistWrite(me, sh).assignedTable == sh.assignedTable;
    }
  }

  lemma MovingRotates(w: World, g: nat, seated: seq<int>, tables: nat)
    requires g < |w.gr| && Rotation(w.gr, w.sh.assignedTable, w.rc.board, seated, tables)
    requires w.gr[g].pc == G_PAY_TABLE ==> w.sh.assignedTable[g] >= 0
    ensures Rotation(w.gr[g := GroupMove(w.gr[g], g, w.sh)], w.sh.assignedTable, w.rc.board, seated, tables)
  {
  }

  lemma GroupKeepsOut(w: World, g: nat)
    requires Enabled(w, Group(g))
    ensures g < |w.gr|
    ensures var w' := GroupNext(w, g);
            && w'.gr == w.gr[g := GroupMove(w.gr[g], g, w.sh)] && w'.rc == w.rc
            && w'.sh.assignedTable == w.sh.assignedTable
  {
  }

  lemma RotationKeptByGroup(c: Config, w: World, g: nat, h: Hist)
    requires DeskInv(c, w, h) && g < |w.gr|
    requires Rotation(w.gr, w.sh.assignedTable, w.rc.board, h.desk.seated, c.tables)
    ensures Rotation(w.gr[g := GroupMove(w.gr[g], g, w.sh)], w.sh.assignedTable, w.rc.board, h.desk.seated, c.tables)
  {
    if w.gr[g].pc == G_PAY_TABLE { Sits(c, w, g, h); }
    MovingRotates(w, g, h.desk.seated, c.tables);
  }

  lemma KitchenKeepsOut(c: Config, w: World, p: Proc, h: Hist)
    requires p in {Waiter, Chef} && Enabled(w, p)
    ensures var w' := Next(c, w, p);
            && w'.gr == w.gr && w'.rc == w.rc && w'.sh.assignedTable == w.sh.assignedTable
            && Note(w, p, h).desk == h.desk
  {
  }

  lemma RotationKept(c: Config, w: World, p: Proc, h: Hist)
    requires DeskInv(c, w, h) && Enabled(w, p)
    requires Rotation(w.gr, w.sh.assignedTable, w.rc.board, h.desk.seated, c.tables)
    ensures var w' := Next(c, w, p);
            Rotation(w'.gr, w'.sh.assignedTable, w'.rc.board, Note(w, p, h).desk.seated, c.tables)
  {
    match p
    case Group(g) =>
      GroupKeepsOut(w, g);
      RotationKeptByGroup(c, w, g, h);
    case Receptionist => RotationKeptByReceptionist(c, w, h);
    case Waiter => KitchenKeepsOut(c, w, p, h);
    case Chef => KitchenKeepsOut(c, w, p, h);
  }

  lemma {:induction false} RotationHolds(c: Config, run: seq<Proc>)
    requires c.Valid() && c.groups <= c.tables && Possible(c, run)
    ensures var w := After(c, run).value;
            Rotation(w.gr, w.sh.assignedTable, w.rc.board, Log(c, run).desk.seated, c.tables)
  {
    if run != [] {
      var before, p := run[..|run| - 1], run[|run| - 1];
      RotationHolds(c, before);
      RunKeeps(c, before);
      RotationKept(c, After(c, before).value, p, Log(c, before));
    }
  }

  /** The one payment made at a group's table is its own. */
  lemma OnlyPayer(gr: seq<GroupState>, tokens: seq<nat>, rc: ReceptionistState, d: DeskLog, g: nat)
    requires g < |gr| && gr[g].pc > G_AWAIT_DONE && gr[g].table < |tokens|
    requires Payments(gr, tokens, rc, d.paidAt) && PaidTables(gr, d.paid, d.paidAt)
    requires forall x :: 0 <= x < |gr| && gr[x].pc >= G_AWAIT_DONE ==> 0 <= gr[x].table < |d.seated| && d.seated[gr[x].table] == x
    ensures g in d.paid
  {
    var t := gr[g].table;
    SubsetCard({g}, LeftFrom(gr, t));
    assert t in multiset(d.paidAt);
    var j :| 0 <= j < |d.paidAt| && d.paidAt[j] == t;
    assert d.seated[t] == d.paid[j];
  }

  lemma RotationGivesOwn(c: Config, w: World, h: Hist, g: nat)
    requires DeskInv(c, w, h) && g < |w.gr| && w.gr[g].pc > G_AWAIT_DONE
    requires Rotation(w.gr, w.sh.assignedTable, w.rc.board, h.desk.seated, c.tables)
    ensures g in h.desk.paid
  {
    forall x | 0 <= x < |w.gr| && w.gr[x].pc >= G_AWAIT_DONE
      ensures 0 <= w.gr[x].table < |h.desk.seated| && h.desk.seated[w.gr[x].table] == x
    {
      assert TableToken(w.gr[x].pc, x, w.sems.waitForTable[x], w.rc, h.desk.seated);
    }
    OnlyPayer(w.gr, w.sems.tableDone, w.rc, h.desk, g);
  }

  lemma EnoughTables(c: Config, run: seq<Proc>)
    requires c.Valid() && c.groups <= c.tables && Possible(c, run)
    ensures OnlyOwnReceipts(After(c, run).value.gr, Log(c, run).desk.paid)
  {
    var w, h := After(c, run).value, Log(c, run);
    RunKeeps(c, run);
    RotationHolds(c, run);
    forall g | 0 <= g < |w.gr| && w.gr[g].pc > G_AWAIT_DONE
      ensures g in h.desk.paid
    {
      RotationGivesOwn(c, w, h, g);
    }
  }

  // Too few tables: let every group tarry before taking its receipt

  ghost predicate Tarrying(gr: seq<GroupState>) {
    forall g :: 0 <= g < |gr| ==> gr[g].pc <= G_AWAIT_DONE
  }

  /** While all groups tarry and no table has been paid for twice, somebody else can step. */
  lemma OthersCanStep(c: Config, w: World, h: Hist)
    requires Inv(c, w, h) && Tarrying(w.gr)
    requires c.tables < c.groups && NoRepeats(h.desk.paidAt)
    ensures !OnlyReceipts(w)
  {
    if OnlyReceipts(w) {
      MutexFree(w, h.holder);
      StuckMeansBlocked(w);
      DeskFree(c, w, h);
      forall g | 0 <= g < c.groups
        ensures g in h.desk.paid
      {
        NobodyAwaitsWaiter(c, w, h, g);
        NobodyAwaitsTable(c, w, h, g);
        BilledHasPaid(c, w, h, g);
      }
      AllMeansMany(h.desk.paid, c.groups);
      TablesPaid(c, w, h);
      NoRepeatsFits(h.desk.paidAt, c.tables);
    }
  }

  lemma TablesPaid(c: Config, w: World, h: Hist)
    requires DeskInv(c, w, h)
    ensures Ids(h.desk.paidAt, c.tables) && |h.desk.paidAt| == |h.desk.paid|
  {
    forall i | 0 <= i < |h.desk.paidAt|
      ensures 0 <= h.desk.paidAt[i] < c.tables
    {
      var x := h.desk.paid[i];
      assert Remembers(w.gr[x], x, w.sh.assignedTable[x], c.tables, h.desk.paid);
    }
  }

  /** The receptionist is about to process the second payment made at a table. */
  ghost predicate SecondPayment(w: World, paidAt: seq<int>) {
    w.rc.pc == R_PAY_FREE && w.rc.table in paidAt
  }

  lemma StepTarries(c: Config, w: World, h: Hist, p: Proc)
    requires Enabled(w, p) && Tarrying(w.gr) && NoRepeats(h.desk.paidAt) && !SecondPayment(w, h.desk.paidAt)
    requires !(p.Group? && p.id < |w.gr| && w.gr[p.id].pc == G_AWAIT_DONE)
    ensures Tarrying(Next(c, w, p).gr) && NoRepeats(Note(w, p, h).desk.paidAt)
  {
    if p == Receptionist && w.rc.pc == R_PAY_FREE {
      AppendNew(h.desk.paidAt, w.rc.table);
    }
  }

  /** Some schedule brings about a second payment at a table before any group takes a receipt. */
  lemma {:induction false} ReachSecondPayment(c: Config, run: seq<Proc>) returns (more: seq<Proc>)
    requires c.Valid() && c.tables < c.groups && Possible(c, run)
    requires Tarrying(After(c, run).value.gr) && NoRepeats(Log(c, run).desk.paidAt)
    ensures Possible(c, more) && Tarrying(After(c, more).value.gr)
    ensures SecondPayment(After(c, more).value, Log(c, more).desk.paidAt)
    decreases Bound(c) - |run|
  {
    var w, h := After(c, run).value, Log(c, run);
    if SecondPayment(w, h.desk.paidAt) {
      more := run;
    } else {
      RunKeeps(c, run);
      OthersCanStep(c, w, h);
      var p :| Enabled(w, p) && !(p.Group? && p.id < |w.gr| && w.gr[p.id].pc == G_AWAIT_DONE);
      OneMoreStep(c, run, p);
      RunsAreShort(c, run + [p]);
      StepTarries(c, w, h, p);
      more := ReachSecondPayment(c, run + [p]);
    }
  }

  lemma ReceiptLeft(gr: seq<GroupState>, tokens: seq<nat>, rc: ReceptionistState, paidAt: seq<int>, t: nat)
    requires Payments(gr, tokens, rc, paidAt) && Tarrying(gr) && rc.pc != R_PAY_SIGNAL
    requires t < |tokens| && t in paidAt
    ensures tokens[t] > 0
  {
    assert LeftFrom(gr, t) == {};
    assert multiset(paidAt)[t] > 0;
  }

  lemma SecondPayer(c: Config, w: World, h: Hist) returns (g: nat)
    requires DeskInv(c, w, h) && Tarrying(w.gr) && SecondPayment(w, h.desk.paidAt)
    ensures g < |w.gr| && w.gr[g].pc == G_AWAIT_DONE && w.gr[g].table == w.rc.table && g !in h.desk.paid
    ensures 0 <= w.rc.table < c.tables
  {
    KeptByReceptionist.ReliesHolds(c, w, h);
    g := w.rc.arg;
    assert w.sh.assignedTable[g] == w.gr[g].table == w.rc.table;
  }

  /** The second payer at a table can take the receipt raised for the first. */
  lemma TakesOtherReceipt(c: Config, w: World, h: Hist) returns (g: nat)
    requires DeskInv(c, w, h) && Tarrying(w.gr) && SecondPayment(w, h.desk.paidAt)
    ensures g < |w.gr| && w.gr[g].pc == G_AWAIT_DONE && Enabled(w, Group(g)) && g !in h.desk.paid
  {
    g := SecondPayer(c, w, h);
    ReceiptLeft(w.gr, w.sems.tableDone, w.rc, h.desk.paidAt, w.rc.table);
    ReceiptLetsGo(w, g);
  }

  /** Group g has taken a receipt and is about to leave, while the receptionist still has a payment
      to process and g's own is not among those processed. */
  ghost predicate LeavesEarly(w: World, h: Hist, g: nat) {
    w.rc.pc == R_PAY_FREE && g < |w.gr| && w.gr[g].pc == G_LEAVE_LOCK && g !in h.desk.paid
  }

  lemma ReachEarlyLeaver(c: Config) returns (run: seq<Proc>, g: nat)
    requires c.Valid() && c.tables < c.groups
    ensures Possible(c, run) && LeavesEarly(After(c, run).value, Log(c, run), g)
  {
    var until := ReachSecondPayment(c, []);
    RunKeeps(c, until);
    g := TakesOtherReceipt(c, After(c, until).value, Log(c, until));
    OneMoreStep(c, until, Group(g));
    GroupKeepsOut(After(c, until).value, g);
    run := until + [Group(g)];
  }

  /** The holder of the mutex is not the receptionist, and can go on. */
  lemma HolderCanStep(c: Config, w: World, h: Hist) returns (p: Proc)
    requires MutexInv(w, h.holder) && w.rc.pc == R_PAY_FREE && w.wt.pc <= W_DONE && w.sems.mutex != 1
    ensures Inside(w, p) && p != Receptionist && Enabled(w, p)
  {
    p := h.holder.value;
    assert Inside(w, p);
  }

  lemma OtherStepKeeps(c: Config, w: World, p: Proc, h: Hist, g: nat)
    requires LeavesEarly(w, h, g) && Enabled(w, p) && p != Receptionist && p != Group(g)
    ensures LeavesEarly(Next(c, w, p), Note(w, p, h), g)
  {
  }

  /** The others can be scheduled until the mutex is free. */
  lemma {:induction false} FreeMutex(c: Config, run: seq<Proc>, g: nat) returns (more: seq<Proc>)
    requires c.Valid() && Possible(c, run) && LeavesEarly(After(c, run).value, Log(c, run), g)
    ensures Possible(c, more) && LeavesEarly(After(c, more).value, Log(c, more), g)
    ensures After(c, more).value.sems.mutex == 1
    decreases Bound(c) - |run|
  {
    var w, h := After(c, run).value, Log(c, run);
    if w.sems.mutex == 1 {
      more := run;
    } else {
      RunKeeps(c, run);
      var p := HolderCanStep(c, w, h);
      OneMoreStep(c, run, p);
      RunsAreShort(c, run + [p]);
      OtherStepKeeps(c, w, p, h, g);
      more := FreeMutex(c, run + [p], g);
    }
  }

  lemma LocksAndLeaves(c: Config, w: World, g: nat)
    requires g < |w.gr| == |w.sh.groupStat| && w.gr[g].pc == G_LEAVE_LOCK && w.sems.mutex == 1
    ensures Enabled(w, Group(g))
    ensures var w' := GroupNext(w, g);
            Enabled(w', Group(g)) && |GroupNext(w', g).sh.groupStat| == |w.gr| && GroupNext(w', g).sh.groupStat[g] == LEAVING
  {
  }

  /** A group that publishes LEAVING has had its own payment processed. */
  ghost predicate LeavesAfterPaying(stats: seq<GroupStat>, paid: seq<int>) {
    forall g :: 0 <= g < |stats| && stats[g] == LEAVING ==> g in paid
  }

  lemma TooFewTables(c: Config) returns (run: seq<Proc>)
    requires c.Valid() && c.tables < c.groups
    ensures Possible(c, run) && !LeavesAfterPaying(After(c, run).value.sh.groupStat, Log(c, run).desk.paid)
  {
    var early, g := ReachEarlyLeaver(c);
    var free := FreeMutex(c, early, g);
    RunKeeps(c, free);
    LocksAndLeaves(c, After(c, free).value, g);
    OneMoreStep(c, free, Group(g));
    OneMoreStep(c, free + [Group(g)], Group(g));
    run := free + [Group(g)] + [Group(g)];
  }

  lemma EverybodyPaysFirst(c: Config, run: seq<Proc>)
    requires c.Valid() && c.groups <= c.tables && Possible(c, run)
    ensures LeavesAfterPaying(After(c, run).value.sh.groupStat, Log(c, run).desk.paid)
  {
    EnoughTables(c, run);
    RunKeeps(c, run);
    OwnMeansAfterPaying(After(c, run).value.gr, After(c, run).value.sh.groupStat, Log(c, run).desk.paid);
  }

  lemma OwnMeansAfterPaying(gr: seq<GroupState>, stats: seq<GroupStat>, paid: seq<int>)
    requires Stats(gr, stats) && OnlyOwnReceipts(gr, paid)
    ensures LeavesAfterPaying(stats, paid)
  {
    assert forall g :: 0 <= g < |gr| ==> stats[g] == StatAt(gr[g].pc);
  }

  /** In every run groups publish LEAVING only after their own payment was processed, if and only
      if there are at least as many tables as groups. */
  lemma OwnReceiptIff(c: Config)
    requires c.Valid()
    ensures (forall run :: Possible(c, run) ==> LeavesAfterPaying(After(c, run).value.sh.groupStat, Log(c, run).desk.paid))
            <==> c.groups <= c.tables
  {
    if c.groups <= c.tables {
      forall run | Possible(c, run)
        ensures LeavesAfterPaying(After(c, run).value.sh.groupStat, Log(c, run).desk.paid)
      {
        EverybodyPaysFirst(c, run);
      }
    } else {
      var run := TooFewTables(c);
    }
  }
}
