/** No reachable state is a deadlock: when nobody can step, everybody has finished. */
module Progress {
  import opened Rings
  import opened Tables
  import opened Restaurant
  import opened History
  import opened Invariants
  import opened Seating
  import opened Kitchen

  // Where a process can be when it cannot step

  ghost predicate Blocked(w: World) {
    && w.sems.mutex == 1
    && (w.rc.pc == R_DONE || (w.rc.pc == R_GET && w.sems.deskReq == 0))
    && (w.wt.pc == W_DONE || (w.wt.pc == W_GET && w.sems.waiterReq == 0)
        || (w.wt.pc == W_INFORM_AWAIT && w.sems.orderReceived == 0))
    && (w.ch.pc == C_DONE || (w.ch.pc == C_AWAIT && w.sems.waitOrder == 0)
        || (w.ch.pc == C_READY_ACQUIRE && w.sems.waiterPossible == 0))
    && (forall g :: 0 <= g < |w.gr| ==> GroupBlocked(w.sems, w.gr[g], g))
  }

  ghost predicate GroupBlocked(v: Sems, me: GroupState, g: int) {
    || me.pc == G_DONE
    || (me.pc in {G_ASK_ACQUIRE, G_BILL_ACQUIRE} && v.deskPossible == 0)
    || (me.pc == G_AWAIT_TABLE && At(v.waitForTable, g, 0) == 0)
    || (me.pc == G_FOOD_ACQUIRE && v.waiterPossible == 0)
    || (me.pc == G_AWAIT_ACK && At(v.requestReceived, me.table, 0) == 0)
    || (me.pc == G_AWAIT_FOOD && At(v.foodArrived, me.table, 0) == 0)
    || me.pc == G_AWAIT_DONE
  }

  /** Nobody can step, except perhaps groups that take a receipt. */
  ghost predicate OnlyReceipts(w: World) {
    forall p :: Enabled(w, p) ==> p.Group? && p.id < |w.gr| && w.gr[p.id].pc == G_AWAIT_DONE
  }

  lemma MutexFree(w: World, holder: Option<Proc>)
    requires MutexInv(w, holder) && OnlyReceipts(w) && w.rc.pc <= R_DONE && w.wt.pc <= W_DONE
    ensures w.sems.mutex == 1
  {
    if holder.Some? {
      assert Inside(w, holder.value);
      assert !Enabled(w, holder.value);
    }
  }

  lemma StuckMeansBlocked(w: World)
    requires OnlyReceipts(w) && w.sems.mutex == 1
    requires 0 <= w.rc.pc <= R_DONE && 0 <= w.wt.pc <= W_DONE && 0 <= w.ch.pc <= C_DONE
    requires forall g :: 0 <= g < |w.gr| ==> 0 <= w.gr[g].pc <= G_DONE
    ensures Blocked(w)
  {
    assert !Enabled(w, Receptionist) && !Enabled(w, Waiter) && !Enabled(w, Chef);
    forall g | 0 <= g < |w.gr|
      ensures GroupBlocked(w.sems, w.gr[g], g)
    {
      assert Enabled(w, Group(g)) ==> w.gr[g].pc == G_AWAIT_DONE;
    }
  }

  // The mailboxes are free

  lemma DeskWriter(c: Config, w: World, h: Hist)
    requires DeskMail(w.sems, w.gr, w.rc.pc, w.sh.deskMail, h.deskMail, h.desk)
    ensures var turn := h.deskMail.turn;
            && (turn.Writing? ==> w.gr[turn.p.id].pc in {G_ASK_WRITE, G_BILL_WRITE})
            && (turn.Written? ==> w.gr[turn.p.id].pc in {G_ASK_POST, G_BILL_POST})
  {
    var turn := h.deskMail.turn;
    if turn.Writing? || turn.Written? {
      assert DeskGroup(w.gr[turn.p.id].pc, turn.p.id, w.sh.deskMail, h.deskMail, h.desk);
    }
  }

  /** While a request lies unread, not all 2n requests have been read. */
  lemma UnreadRequest(c: Config, w: World, h: Hist)
    requires DeskMail(w.sems, w.gr, w.rc.pc, w.sh.deskMail, h.deskMail, h.desk) && |w.gr| == c.groups
    ensures h.deskMail.turn.Full? ==> |h.desk.tableReqs| + |h.desk.billReqs| < 2 * c.groups
  {
    NoRepeatsFits(h.desk.tableReqs, c.groups);
    NoRepeatsFits(h.desk.billReqs, c.groups);
    if h.deskMail.turn.Full? {
      var g := w.sh.deskMail.group;
      assert DeskGroup(w.gr[g].pc, g, w.sh.deskMail, h.deskMail, h.desk);
    }
  }

  lemma DeskFree(c: Config, w: World, h: Hist)
    requires DeskInv(c, w, h) && Blocked(w)
    ensures h.deskMail.turn.Free?
  {
    DeskWriter(c, w, h);
    UnreadRequest(c, w, h);
  }

  lemma WaiterWriter(c: Config, w: World, h: Hist)
    requires WaiterMail(w.sems, w.gr, w.wt.pc, w.ch.pc, w.sh.waiterMail, h.waiterMail, h.kitchen.foodReqs)
    ensures var turn := h.waiterMail.turn;
            && (turn.Writing? && turn.p.Group? ==> w.gr[turn.p.id].pc == G_FOOD_WRITE)
            && (turn.Written? && turn.p.Group? ==> w.gr[turn.p.id].pc == G_FOOD_POST)
  {
    var turn := h.waiterMail.turn;
    if (turn.Writing? || turn.Written?) && turn.p.Group? {
      assert FoodGroup(w.gr[turn.p.id].pc, turn.p.id, w.sh.waiterMail, h.waiterMail, h.kitchen.foodReqs);
    }
  }

  lemma UnreadOrder(c: Config, w: World, h: Hist)
    requires KitchenInv(c, w, h) && |w.gr| == c.groups
    ensures |h.kitchen.informed| <= |h.kitchen.foodReqs| <= c.groups
    ensures h.waiterMail.turn.Full? ==> |h.kitchen.foodReqs| + |h.kitchen.delivered| < 2 * c.groups
  {
    NoRepeatsFits(h.kitchen.foodReqs, c.groups);
    if h.waiterMail.turn.Full? && w.sh.waiterMail.kind == FOODREQ {
      var g := w.sh.waiterMail.group;
      assert FoodGroup(w.gr[g].pc, g, w.sh.waiterMail, h.waiterMail, h.kitchen.foodReqs);
    }
  }

  lemma NobodyAwaitsChef(c: Config, w: World, h: Hist)
    requires KitchenInv(c, w, h) && |w.gr| == c.groups && Blocked(w)
    ensures w.wt.pc != W_INFORM_AWAIT
  {
    UnreadOrder(c, w, h);
  }

  lemma WaiterFree(c: Config, w: World, h: Hist)
    requires KitchenInv(c, w, h) && |w.gr| == c.groups && Blocked(w)
    ensures h.waiterMail.turn.Free?
  {
    NobodyAwaitsChef(c, w, h);
    WaiterWriter(c, w, h);
    UnreadOrder(c, w, h);
  }

  // Nobody waits for food, a table or a receipt

  lemma KitchenIdle(c: Config, w: World, h: Hist)
    requires KitchenInv(c, w, h) && |w.gr| == c.groups && Blocked(w)
    ensures h.kitchen.stage == Idle
    ensures h.kitchen.foodReqs == h.kitchen.informed == h.kitchen.acked == h.kitchen.delivered == h.kitchen.cooked
  {
    NobodyAwaitsChef(c, w, h);
    WaiterFree(c, w, h);
    UnreadOrder(c, w, h);
    assert h.kitchen.stage == Idle;
    assert h.kitchen.queue == [];
  }

  /** Once everything ordered has been served, the tokens a waiting group needs are there. */
  lemma ServedHasTokens(c: Config, w: World, h: Hist, g: nat)
    requires DeskInv(c, w, h) && KitchenInv(c, w, h) && h.waiterMail.turn.Free?
    requires h.kitchen.foodReqs == h.kitchen.acked == h.kitchen.delivered
    requires g < |w.gr|
    ensures w.gr[g].pc == G_AWAIT_ACK ==> At(w.sems.requestReceived, w.gr[g].table, 0) == 1
    ensures w.gr[g].pc == G_AWAIT_FOOD ==> At(w.sems.foodArrived, w.gr[g].table, 0) == 1
  {
    if w.gr[g].pc == G_AWAIT_ACK || w.gr[g].pc == G_AWAIT_FOOD {
      Sits(c, w, g, h);
      assert FoodGroup(w.gr[g].pc, g, w.sh.waiterMail, h.waiterMail, h.kitchen.foodReqs);
      assert Remembers(w.gr[g], g, w.sh.assignedTable[g], c.tables, h.desk.paid);
      assert MealToken(w.gr[g].pc, g, w.sh.assignedTable[g], w.sems, h.kitchen);
    }
  }

  lemma NobodyAwaitsWaiter(c: Config, w: World, h: Hist, g: nat)
    requires DeskInv(c, w, h) && KitchenInv(c, w, h) && Blocked(w) && g < |w.gr|
    ensures w.gr[g].pc in {G_AWAIT_TABLE, G_AWAIT_DONE, G_DONE}
  {
    DeskFree(c, w, h);
    WaiterFree(c, w, h);
    KitchenIdle(c, w, h);
    ServedHasTokens(c, w, h, g);
    assert GroupBlocked(w.sems, w.gr[g], g);
  }

  /** A group that has sent a bill has paid once the receptionist is idle. */
  lemma BilledHasPaid(c: Config, w: World, h: Hist, g: nat)
    requires DeskInv(c, w, h) && h.deskMail.turn.Free? && w.rc.pc in {R_GET, R_DONE} && g < |w.gr|
    ensures h.desk.paid == h.desk.billReqs
    ensures w.gr[g].pc > G_BILL_WRITE <==> g in h.desk.paid
    ensures w.gr[g].pc > G_ASK_WRITE <==> g in h.desk.seated + h.desk.waitlist
  {
    assert DeskGroup(w.gr[g].pc, g, w.sh.deskMail, h.deskMail, h.desk);
  }

  /** A group waiting for a table that was given to it finds its token. */
  lemma SeatedIsCalled(c: Config, w: World, h: Hist, g: nat)
    requires DeskInv(c, w, h) && w.rc.pc in {R_GET, R_DONE} && g < |w.gr|
    ensures w.gr[g].pc == G_AWAIT_TABLE && g in h.desk.seated ==> At(w.sems.waitForTable, g, 0) == 1
  {
    assert TableToken(w.gr[g].pc, g, w.sems.waitForTable[g], w.rc, h.desk.seated);
  }

  /** With the receptionist idle, whoever holds a table is either called or has yet to pay. */
  lemma TablesFree(c: Config, w: World, h: Hist, t: nat)
    requires DeskInv(c, w, h) && KitchenInv(c, w, h) && Blocked(w) && t < c.tables
    ensures h.desk.occupant[t] < 0
  {
    var x := h.desk.occupant[t];
    if x >= 0 {
      assert w.sh.assignedTable[x] == t;
      DeskFree(c, w, h);
      BilledHasPaid(c, w, h, x);
      SeatedIsCalled(c, w, h, x);
      NobodyAwaitsWaiter(c, w, h, x);
    }
  }

  lemma NobodyInLine(c: Config, w: World, h: Hist)
    requires DeskInv(c, w, h) && h.desk.occupant[0] < 0 && w.rc.pc in {R_GET, R_DONE}
    ensures h.desk.waitlist == []
  {
    CountFull(w.rc.board.occupied);
  }

  lemma NobodyAwaitsTable(c: Config, w: World, h: Hist, g: nat)
    requires DeskInv(c, w, h) && KitchenInv(c, w, h) && Blocked(w) && g < |w.gr|
    ensures w.gr[g].pc != G_AWAIT_TABLE
  {
    TablesFree(c, w, h, 0);
    NobodyInLine(c, w, h);
    DeskFree(c, w, h);
    BilledHasPaid(c, w, h, g);
    SeatedIsCalled(c, w, h, g);
    assert GroupBlocked(w.sems, w.gr[g], g);
  }

  /** The groups that paid and remember table t. */
  ghost function PaidFrom(gr: seq<GroupState>, paid: seq<int>, t: int): set<int> {
    set x | 0 <= x < |gr| && x in paid && gr[x].table == t
  }

  /** As many payments were made at table t as there are paid groups that remember it. */
  lemma {:induction false} PaidCount(gr: seq<GroupState>, paid: seq<int>, paidAt: seq<int>, t: int)
    requires PaidTables(gr, paid, paidAt) && NoRepeats(paid)
    ensures multiset(paidAt)[t] == |PaidFrom(gr, paid, t)|
  {
    if paid != [] {
      var n := |paid| - 1;
      PaidCount(gr, paid[..n], paidAt[..n], t);
      PaidOneMore(gr, paid[..n], paid[n], t);
      assert paid == paid[..n] + [paid[n]];
      assert paidAt == paidAt[..n] + [paidAt[n]];
    } else {
      assert PaidFrom(gr, paid, t) == {};
    }
  }

  lemma PaidOneMore(gr: seq<GroupState>, paid: seq<int>, x: int, t: int)
    requires 0 <= x < |gr| && x !in paid
    ensures |PaidFrom(gr, paid + [x], t)| == |PaidFrom(gr, paid, t)| + (if gr[x].table == t then 1 else 0)
  {
    if gr[x].table == t {
      assert PaidFrom(gr, paid + [x], t) == PaidFrom(gr, paid, t) + {x};
    } else {
      assert PaidFrom(gr, paid + [x], t) == PaidFrom(gr, paid, t);
    }
  }

  lemma SubsetCard(a: set<int>, b: set<int>)
    requires a <= b
    ensures |a| <= |b|
  {
    assert b == a + (b - a);
  }

  lemma ReceiptsSuffice(gr: seq<GroupState>, tokens: seq<nat>, rc: ReceptionistState, paid: seq<int>, paidAt: seq<int>, g: nat)
    requires Payments(gr, tokens, rc, paidAt) && PaidTables(gr, paid, paidAt) && NoRepeats(paid)
    requires rc.pc != R_PAY_SIGNAL && g < |gr| && gr[g].pc == G_AWAIT_DONE && 0 <= gr[g].table < |tokens|
    requires forall x :: 0 <= x < |gr| && gr[x].pc > G_BILL_WRITE ==> x in paid
    ensures tokens[gr[g].table] > 0
  {
    var t := gr[g].table;
    var left := LeftFrom(gr, t) + {g};
    assert left <= PaidFrom(gr, paid, t);
    PaidCount(gr, paid, paidAt, t);
    SubsetCard(left, PaidFrom(gr, paid, t));
  }

  /** Payments outnumber the groups that took a receipt while one still waits for it. */
  lemma ReceiptPresent(c: Config, w: World, h: Hist, g: nat)
    requires DeskInv(c, w, h) && h.deskMail.turn.Free? && w.rc.pc in {R_GET, R_DONE} && g < |w.gr|
    ensures w.gr[g].pc == G_AWAIT_DONE ==> At(w.sems.tableDone, w.gr[g].table, 0) > 0
  {
    if w.gr[g].pc == G_AWAIT_DONE {
      assert Remembers(w.gr[g], g, w.sh.assignedTable[g], c.tables, h.desk.paid);
      forall x | 0 <= x < |w.gr| && w.gr[x].pc > G_BILL_WRITE
        ensures x in h.desk.paid
      {
        BilledHasPaid(c, w, h, x);
      }
      BilledHasPaid(c, w, h, g);
      ReceiptsSuffice(w.gr, w.sems.tableDone, w.rc, h.desk.paid, h.desk.paidAt, g);
    }
  }

  lemma ReceiptLetsGo(w: World, g: nat)
    requires g < |w.gr|
    ensures w.gr[g].pc == G_AWAIT_DONE && At(w.sems.tableDone, w.gr[g].table, 0) > 0 ==> Enabled(w, Group(g))
  {
  }

  lemma NobodyAwaitsReceipt(c: Config, w: World, h: Hist, g: nat)
    requires DeskInv(c, w, h) && Blocked(w) && g < |w.gr| && !Enabled(w, Group(g))
    ensures w.gr[g].pc != G_AWAIT_DONE
  {
    DeskFree(c, w, h);
    ReceiptPresent(c, w, h, g);
    ReceiptLetsGo(w, g);
  }

  // Everybody has finished

  lemma {:induction false} AllMeansMany(s: seq<int>, n: nat)
    requires forall g :: 0 <= g < n ==> g in s
    ensures |s| >= n
  {
    if n > 0 {
      assert n - 1 in s;
      var i :| 0 <= i < |s| && s[i] == n - 1;
      var rest := s[..i] + s[i + 1..];
      assert forall g :: g in s && g != n - 1 ==> g in rest;
      AllMeansMany(rest, n - 1);
    }
  }

  lemma EverythingRead(c: Config, w: World, h: Hist)
    requires DeskMail(w.sems, w.gr, w.rc.pc, w.sh.deskMail, h.deskMail, h.desk)
    requires WaiterMail(w.sems, w.gr, w.wt.pc, w.ch.pc, w.sh.waiterMail, h.waiterMail, h.kitchen.foodReqs)
    requires h.deskMail.turn.Free? && h.waiterMail.turn.Free? && |w.gr| == c.groups
    requires forall g :: 0 <= g < |w.gr| ==> w.gr[g].pc == G_DONE
    ensures |h.desk.tableReqs| >= c.groups && |h.desk.billReqs| >= c.groups && |h.kitchen.foodReqs| >= c.groups
  {
    forall g | 0 <= g < c.groups
      ensures g in h.desk.tableReqs && g in h.desk.billReqs && g in h.kitchen.foodReqs
    {
      assert DeskGroup(w.gr[g].pc, g, w.sh.deskMail, h.deskMail, h.desk);
      assert FoodGroup(w.gr[g].pc, g, w.sh.waiterMail, h.waiterMail, h.kitchen.foodReqs);
    }
    AllMeansMany(h.desk.tableReqs, c.groups);
    AllMeansMany(h.desk.billReqs, c.groups);
    AllMeansMany(h.kitchen.foodReqs, c.groups);
  }

  lemma StaffDone(c: Config, w: World, h: Hist)
    requires DeskInv(c, w, h) && KitchenInv(c, w, h) && Blocked(w)
    requires forall g :: 0 <= g < |w.gr| ==> w.gr[g].pc == G_DONE
    ensures AllDone(w)
  {
    DeskFree(c, w, h);
    WaiterFree(c, w, h);
    KitchenIdle(c, w, h);
    NobodyAwaitsChef(c, w, h);
    EverythingRead(c, w, h);
  }

  lemma StuckOnlyWhenDone(c: Config, w: World, h: Hist)
    requires Inv(c, w, h) && Stuck(w)
    ensures AllDone(w) && Blocked(w)
  {
    MutexFree(w, h.holder);
    StuckMeansBlocked(w);
    forall g | 0 <= g < |w.gr|
      ensures w.gr[g].pc == G_DONE
    {
      assert GroupBlocked(w.sems, w.gr[g], g);
      NobodyAwaitsWaiter(c, w, h, g);
      NobodyAwaitsTable(c, w, h, g);
      NobodyAwaitsReceipt(c, w, h, g);
    }
    StaffDone(c, w, h);
  }
}
