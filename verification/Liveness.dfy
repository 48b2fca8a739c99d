/** What every run of the restaurant comes to. */
module Liveness {
  import opened Rings
  import opened Tables
  import opened Restaurant
  import opened History
  import opened Invariants
  import opened Seating
  import opened Kitchen
  import opened Progress
  import opened Termination
  import opened Reachable

  /** Whatever the scheduler has done so far, somebody can step until everybody has finished. */
  lemma DeadlockFree(c: Config, run: seq<Proc>)
    requires c.Valid() && Possible(c, run)
    ensures AllDone(After(c, run).value) || exists p :: Enabled(After(c, run).value, p)
  {
    RunKeeps(c, run);
    if Stuck(After(c, run).value) {
      StuckOnlyWhenDone(c, After(c, run).value, Log(c, run));
    }
  }

  /** Every run is finite: at most 151 n + 52 steps. */
  lemma RunsAreShort(c: Config, run: seq<Proc>)
    requires c.Valid() && Possible(c, run)
    ensures |run| <= 151 * c.groups + 52 == Bound(c)
  {
    RunKeeps(c, run);
    RunWeight(c, run);
    WeightPositive(c, After(c, run).value, Log(c, run));
  }

  lemma OneMoreStep(c: Config, run: seq<Proc>, p: Proc)
    requires c.Valid() && Possible(c, run) && Enabled(After(c, run).value, p)
    ensures Possible(c, run + [p])
    ensures After(c, run + [p]).value == Next(c, After(c, run).value, p)
    ensures Log(c, run + [p]) == Note(After(c, run).value, p, Log(c, run))
  {
    assert (run + [p])[..|run|] == run;
  }

  lemma SomebodySteps(c: Config, run: seq<Proc>) returns (p: Proc)
    requires c.Valid() && Possible(c, run) && !AllDone(After(c, run).value)
    ensures Possible(c, run + [p]) && |run| < Bound(c)
  {
    DeadlockFree(c, run);
    p :| Enabled(After(c, run).value, p);
    OneMoreStep(c, run, p);
    RunsAreShort(c, run + [p]);
  }

  /** Every run can be continued until everybody has finished. */
  lemma {:induction false} CanFinish(c: Config, run: seq<Proc>) returns (full: seq<Proc>)
    requires c.Valid() && Possible(c, run)
    ensures run <= full && Possible(c, full) && AllDone(After(c, full).value)
    decreases Bound(c) - |run|
  {
    if AllDone(After(c, run).value) {
      full := run;
    } else {
      var p := SomebodySteps(c, run);
      full := CanFinish(c, run + [p]);
    }
  }

  /** Each of the n groups occurs exactly once. */
  ghost predicate EachOnce(s: seq<int>, n: nat) {
    NoRepeats(s) && Ids(s, n) && |s| == n
  }

  lemma OnceEach(s: seq<int>, n: nat)
    requires NoRepeats(s) && Ids(s, n) && forall g :: 0 <= g < n ==> g in s
    ensures EachOnce(s, n)
  {
    AllMeansMany(s, n);
    NoRepeatsFits(s, n);
  }

  lemma EmptyLine(c: Config, w: World, h: Hist)
    requires DeskInv(c, w, h) && KitchenInv(c, w, h) && Blocked(w)
    ensures h.desk.waitlist == []
  {
    TablesFree(c, w, h, 0);
    NobodyInLine(c, w, h);
  }

  lemma DoneMeansPaid(c: Config, w: World, h: Hist, g: nat)
    requires DeskInv(c, w, h) && h.deskMail.turn.Free? && w.rc.pc == R_DONE && h.desk.waitlist == []
    requires g < |w.gr| && w.gr[g].pc == G_DONE
    ensures g in h.desk.seated && g in h.desk.paid
  {
    BilledHasPaid(c, w, h, g);
  }

  lemma EverybodySeated(c: Config, w: World, h: Hist)
    requires DeskInv(c, w, h) && KitchenInv(c, w, h) && Blocked(w) && AllDone(w)
    ensures forall g :: 0 <= g < c.groups ==> g in h.desk.seated && g in h.desk.paid
  {
    DeskFree(c, w, h);
    EmptyLine(c, w, h);
    forall g | 0 <= g < c.groups
      ensures g in h.desk.seated && g in h.desk.paid
    {
      DoneMeansPaid(c, w, h, g);
    }
  }

  lemma DeskAtEnd(c: Config, w: World, h: Hist)
    requires DeskInv(c, w, h) && KitchenInv(c, w, h) && Blocked(w) && AllDone(w)
    ensures h.desk.waitlist == []
    ensures EachOnce(h.desk.seated, c.groups) && EachOnce(h.desk.paid, c.groups)
    ensures w.rc.nReq == 2 * c.groups
  {
    EmptyLine(c, w, h);
    EverybodySeated(c, w, h);
    BooksAtEnd(c, w.rc, w.sh.assignedTable, |h.deskMail.read|, h.desk);
  }

  lemma BooksAtEnd(c: Config, rc: ReceptionistState, assignedTable: seq<int>, readCount: nat, d: DeskLog)
    requires DeskBooks(c, rc, assignedTable, readCount, d) && rc.pc == R_DONE && d.waitlist == []
    requires NoRepeats(d.tableReqs) && Ids(d.tableReqs, c.groups)
    requires NoRepeats(d.billReqs) && Ids(d.billReqs, c.groups)
    requires forall g :: 0 <= g < c.groups ==> g in d.seated && g in d.paid
    ensures EachOnce(d.seated, c.groups) && EachOnce(d.paid, c.groups) && rc.nReq == 2 * c.groups
  {
    assert d.seated == d.tableReqs && d.paid == d.billReqs;
    OnceEach(d.seated, c.groups);
    OnceEach(d.paid, c.groups);
  }

  lemma KitchenAtEnd(c: Config, w: World, h: Hist)
    requires KitchenInv(c, w, h) && |w.gr| == c.groups && Blocked(w) && AllDone(w)
    ensures EachOnce(h.kitchen.informed, c.groups)
    ensures h.kitchen.cooked == h.kitchen.informed == h.kitchen.delivered
    ensures w.wt.nReq == 2 * c.groups && w.ch.nOrders == c.groups && h.kitchen.queue == []
  {
    KitchenIdle(c, w, h);
    WaiterFree(c, w, h);
    forall g | 0 <= g < c.groups
      ensures g in h.kitchen.foodReqs
    {
      assert FoodGroup(w.gr[g].pc, g, w.sh.waiterMail, h.waiterMail, h.kitchen.foodReqs);
    }
    OnceEach(h.kitchen.foodReqs, c.groups);
  }

  lemma ReceiptsUsedUp(c: Config, w: World, h: Hist, t: nat)
    requires DeskInv(c, w, h) && Blocked(w) && AllDone(w) && t < c.tables
    ensures w.sems.tableDone[t] == 0
  {
    DeskFree(c, w, h);
    forall x | 0 <= x < |w.gr|
      ensures x in h.desk.paid
    {
      BilledHasPaid(c, w, h, x);
    }
    assert h.desk.paid == h.desk.billReqs;
    ReceiptsBalance(w.gr, w.sems.tableDone, w.rc, h.desk.paid, h.desk.paidAt, t);
  }

  lemma ReceiptsBalance(gr: seq<GroupState>, tokens: seq<nat>, rc: ReceptionistState, paid: seq<int>, paidAt: seq<int>, t: nat)
    requires Payments(gr, tokens, rc, paidAt) && PaidTables(gr, paid, paidAt) && NoRepeats(paid)
    requires t < |tokens| && rc.pc == R_DONE
    requires forall x :: 0 <= x < |gr| ==> gr[x].pc == G_DONE && x in paid
    ensures tokens[t] == 0
  {
    assert LeftFrom(gr, t) == PaidFrom(gr, paid, t);
    PaidCount(gr, paid, paidAt, t);
  }

  lemma TableTokensUsedUp(c: Config, w: World, h: Hist, t: nat)
    requires DeskInv(c, w, h) && KitchenInv(c, w, h) && Blocked(w) && AllDone(w) && t < c.tables
    ensures w.sems.requestReceived[t] == 0 && w.sems.foodArrived[t] == 0 && w.sems.tableDone[t] == 0
  {
    TablesFree(c, w, h, t);
    ReceiptsUsedUp(c, w, h, t);
  }

  lemma StaffTokensUsedUp(c: Config, w: World, h: Hist)
    requires DeskInv(c, w, h) && KitchenInv(c, w, h) && Blocked(w) && AllDone(w)
    ensures var v := w.sems;
            && v.mutex == v.deskPossible == v.waiterPossible == 1
            && v.deskReq == v.waiterReq == v.waitOrder == v.orderReceived == 0
  {
    DeskFree(c, w, h);
    WaiterFree(c, w, h);
    KitchenIdle(c, w, h);
  }

  lemma NobodyCalled(gr: seq<GroupState>, tokens: seq<nat>, rc: ReceptionistState, seated: seq<int>)
    requires TableTokens(gr, tokens, rc, seated) && forall g :: 0 <= g < |gr| ==> gr[g].pc == G_DONE
    ensures forall g :: 0 <= g < |tokens| ==> tokens[g] == 0
  {
    assert forall g :: 0 <= g < |gr| ==> TableToken(gr[g].pc, g, tokens[g], rc, seated);
  }

  lemma InitialSems(c: Config, v: Sems)
    requires c.Valid()
    requires v.mutex == v.deskPossible == v.waiterPossible == 1
    requires v.deskReq == v.waiterReq == v.waitOrder == v.orderReceived == 0
    requires |v.waitForTable| == c.groups && forall g :: 0 <= g < c.groups ==> v.waitForTable[g] == 0
    requires |v.requestReceived| == |v.foodArrived| == |v.tableDone| == c.tables
    requires forall t :: 0 <= t < c.tables ==> v.requestReceived[t] == 0 && v.foodArrived[t] == 0 && v.tableDone[t] == 0
    ensures v == Initial(c).sems
  {
    var v0 := Initial(c).sems;
    assert v.waitForTable == v0.waitForTable;
    assert v.requestReceived == v0.requestReceived;
    assert v.foodArrived == v0.foodArrived;
    assert v.tableDone == v0.tableDone;
  }

  lemma TokensUsedUp(c: Config, w: World, h: Hist)
    requires DeskInv(c, w, h) && KitchenInv(c, w, h) && Blocked(w) && AllDone(w)
    ensures w.sems == Initial(c).sems
  {
    var v := w.sems;
    StaffTokensUsedUp(c, w, h);
    NobodyCalled(w.gr, v.waitForTable, w.rc, h.desk.seated);
    forall t | 0 <= t < c.tables
      ensures v.requestReceived[t] == 0 && v.foodArrived[t] == 0 && v.tableDone[t] == 0
    {
      TableTokensUsedUp(c, w, h, t);
    }
    InitialSems(c, v);
  }

  /** Everybody has been served and the house is as it was in the beginning. */
  ghost predicate Served(c: Config, w: World, h: Hist) {
    && c.Valid() && AllDone(w)
    && w.sh.groupStat == seq(c.groups, _ => LEAVING)
    && w.sh.assignedTable == Initial(c).sh.assignedTable
    && w.rc.board.occupied == Initial(c).rc.board.occupied
    && w.sems == Initial(c).sems
    && h.desk.waitlist == [] && h.kitchen.queue == []
    && EachOnce(h.desk.seated, c.groups) && EachOnce(h.desk.paid, c.groups)
    && EachOnce(h.kitchen.cooked, c.groups) && EachOnce(h.kitchen.delivered, c.groups)
    && w.rc.nReq == 2 * c.groups && w.wt.nReq == 2 * c.groups && w.ch.nOrders == c.groups
  }

  lemma TablesAtEnd(c: Config, w: World, h: Hist)
    requires DeskInv(c, w, h) && KitchenInv(c, w, h) && Blocked(w)
    ensures w.sh.assignedTable == Initial(c).sh.assignedTable
    ensures w.rc.board.occupied == Initial(c).rc.board.occupied
  {
    forall t: nat | t < c.tables
      ensures h.desk.occupant[t] < 0
    {
      TablesFree(c, w, h, t);
    }
    forall g | 0 <= g < c.groups
      ensures w.sh.assignedTable[g] == -1
    {
      assert At(h.desk.occupant, w.sh.assignedTable[g], -1) < 0;
    }
  }

  lemma AllLeaving(w: World, n: nat)
    requires Stats(w.gr, w.sh.groupStat) && AllDone(w) && |w.gr| == n
    ensures w.sh.groupStat == seq(n, _ => LEAVING)
  {
  }

  lemma ServedWhenStuck(c: Config, w: World, h: Hist)
    requires Inv(c, w, h) && Stuck(w)
    ensures Served(c, w, h)
  {
    StuckOnlyWhenDone(c, w, h);
    AllLeaving(w, c.groups);
    DeskAtEnd(c, w, h);
    KitchenAtEnd(c, w, h);
    TokensUsedUp(c, w, h);
    TablesAtEnd(c, w, h);
  }

  /** A run that cannot go on has served everybody: all groups are LEAVING, each was seated,
      cooked for, served and charged exactly once, all loop counts are met, every table is
      free, nobody waits, and every semaphore is back at its initial value. */
  lemma MaximalRunServesAll(c: Config, run: seq<Proc>)
    requires c.Valid() && Possible(c, run) && Stuck(After(c, run).value)
    ensures Served(c, After(c, run).value, Log(c, run))
  {
    RunKeeps(c, run);
    ServedWhenStuck(c, After(c, run).value, Log(c, run));
  }
}
