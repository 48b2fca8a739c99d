/** A step of the receptionist keeps every invariant. */
module KeptByReceptionist {
  import opened Rings
  import opened Tables
  import opened Restaurant
  import opened History
  import opened Invariants
  import opened Seating
  import opened Kitchen

  /** The receptionist steps from w to w': what the step changes, field by field. */
  ghost predicate Steps(c: Config, w: World, w': World) {
    var me, v, v', sh, sh' := w.rc, w.sems, w'.sems, w.sh, w'.sh;
    && me.pc != R_DONE && me.pc != R_STUCK
    && w'.gr == w.gr && w'.wt == w.wt && w'.ch == w.ch
    && w'.rc == ReceptionistMove(c, me, sh)
    && sh'.deskMail == sh.deskMail && sh'.waiterMail == sh.waiterMail && sh'.groupStat == sh.groupStat
    && sh'.foodOrder == sh.foodOrder && sh'.foodGroup == sh.foodGroup
    && sh'.assignedTable ==
         (if me.pc == R_DECIDE && Decide(me.board) > -1 then Put(sh.assignedTable, me.arg, Decide(me.board))
          else if me.pc == R_PAY_FREE then Put(sh.assignedTable, me.arg, -1) else sh.assignedTable)
    && v'.deskReq == v.deskReq - (if me.pc == R_GET then 1 else 0)
    && v'.deskPossible == v.deskPossible + (if me.pc == R_RELEASE then 1 else 0)
    && v'.waitForTable == (if me.pc == R_SEAT then Give(v.waitForTable, me.arg) else v.waitForTable)
    && v'.tableDone == (if me.pc == R_PAY_SIGNAL then Give(v.tableDone, me.table) else v.tableDone)
    && v'.waiterReq == v.waiterReq && v'.waiterPossible == v.waiterPossible
    && v'.waitOrder == v.waitOrder && v'.orderReceived == v.orderReceived
    && v'.requestReceived == v.requestReceived && v'.foodArrived == v.foodArrived
  }

  lemma NextSteps(c: Config, w: World)
    requires Shape(c, w) && Enabled(w, Receptionist)
    ensures Steps(c, w, ReceptionistNext(c, w)) && Shape(c, ReceptionistNext(c, w))
  {
  }

  lemma MutexKept(c: Config, w: World, h: Hist)
    requires Shape(c, w) && Enabled(w, Receptionist) && MutexInv(w, h.holder)
    ensures MutexInv(ReceptionistNext(c, w), NoteHolder(ReceptionistOp(w.rc), Receptionist, h.holder))
  {
    var w' := ReceptionistNext(c, w);
    assert Inside(w, Receptionist) <==> h.holder == Some(Receptionist);
    assert forall p :: p != Receptionist ==> Inside(w', p) == Inside(w, p);
  }

  lemma DeskMailKept(c: Config, w: World, w': World, h: Hist)
    requires Steps(c, w, w') && 0 <= w.rc.pc
    requires DeskMail(w.sems, w.gr, w.rc.pc, w.sh.deskMail, h.deskMail, h.desk)
    ensures DeskMail(w'.sems, w'.gr, w'.rc.pc, w'.sh.deskMail, ReceptionistNotesMail(w.rc.pc, w.sh.deskMail, h.deskMail),
                     ReceptionistNotes(w.rc, w.sh.deskMail, h.desk))
  {
    if w.rc.pc == R_READ {
      var g := w.sh.deskMail.group;
      assert DeskGroup(w.gr[g].pc, g, w.sh.deskMail, h.deskMail, h.desk);
      if w.sh.deskMail.kind == TABLEREQ { AppendNew(h.desk.tableReqs, g); } else { AppendNew(h.desk.billReqs, g); }
    }
  }

  lemma HandsKept(c: Config, w: World, w': World, h: Hist)
    requires Steps(c, w, w') && 0 <= w.rc.pc && |w.gr| == c.groups
    requires DeskMail(w.sems, w.gr, w.rc.pc, w.sh.deskMail, h.deskMail, h.desk)
    requires DeskCounts(c, w.rc, |h.deskMail.read|, h.desk)
    requires DeskHands(c, w.rc)
    requires w.rc.pc == R_DECIDE && Recalled(w.rc) ==> Decide(w.rc.board) > -1
    requires w.rc.pc == R_PAY_TABLE ==> At(w.sh.assignedTable, w.rc.arg, -1) >= 0
    requires w.rc.pc == R_PAY_NEXT && w.rc.waiting.len != 0 ==> 0 <= Front(w.rc.waiting, -1) < c.groups
    ensures DeskHands(c, w'.rc)
    ensures DeskCounts(c, w'.rc, |ReceptionistNotesMail(w.rc.pc, w.sh.deskMail, h.deskMail).read|, ReceptionistNotes(w.rc, w.sh.deskMail, h.desk))
  {
  }

  lemma DecidingKeepsFifo(c: Config, w: World, w': World, h: Hist)
    requires Steps(c, w, w') && w.rc.pc == R_DECIDE
    requires DeskHands(c, w.rc) && Fifo(c, w.rc, h.desk)
    ensures Fifo(c, w'.rc, ReceptionistNotes(w.rc, w.sh.deskMail, h.desk))
  {
    DecideIsFree(w.rc.board);
    if Decide(w.rc.board) > -1 { OccupyConsistent(w.rc.board, Decide(w.rc.board)); }
  }

  lemma FifoKept(c: Config, w: World, w': World, h: Hist)
    requires Steps(c, w, w') && 0 <= w.rc.pc
    requires DeskHands(c, w.rc)
    requires Fifo(c, w.rc, h.desk)
    requires w.rc.waiting.len == |h.desk.waitlist|
    requires h.desk.waitlist != [] ==> Front(w.rc.waiting, -1) == h.desk.waitlist[0] >= 0
    requires w.rc.pc == R_PAY_TABLE ==> At(w.sh.assignedTable, w.rc.arg, -1) >= 0
    requires w.rc.pc == R_PAY_FREE ==> 0 <= w.rc.table < c.tables && w.rc.board.occupied[w.rc.table]
    requires w.rc.pc == R_READ ==> w.sh.deskMail.kind in {TABLEREQ, BILLREQ}
    ensures Fifo(c, w'.rc, ReceptionistNotes(w.rc, w.sh.deskMail, h.desk))
  {
    if w.rc.pc == R_DECIDE {
      DecidingKeepsFifo(c, w, w', h);
    } else if w.rc.pc == R_PAY_FREE {
      VacateConsistent(w.rc.board, w.rc.table);
    }
  }

  lemma EnqueueBounded(c: Config, w: World, w': World, h: Hist)
    requires Steps(c, w, w') && c.Valid()
    requires w.rc.pc == R_DECIDE && Decide(w.rc.board) <= -1
    requires DeskHands(c, w.rc)
    requires Fifo(c, w.rc, h.desk)
    requires |w.rc.waiting.slots| == c.WaitSlots()
    requires WaitingBound(c, w.rc, h.desk)
    ensures WaitingBound(c, w'.rc, ReceptionistNotes(w.rc, w.sh.deskMail, h.desk))
  {
    DecideIsFree(w.rc.board);
    assert |h.desk.enqueued| + 1 + c.tables <= |h.desk.tableReqs|;
    PushAdvances(w.rc.waiting, w.rc.arg);
  }

  lemma WaitingBoundKept(c: Config, w: World, w': World, h: Hist)
    requires Steps(c, w, w') && 0 <= w.rc.pc
    requires DeskHands(c, w.rc)
    requires w.rc.waiting.len == |h.desk.waitlist|
    requires WaitingBound(c, w.rc, h.desk)
    requires w.rc.pc == R_READ && w.sh.deskMail.kind == TABLEREQ ==> |h.desk.tableReqs| < c.groups
    requires w.rc.pc == R_DECIDE ==> Decide(w.rc.board) > -1
    ensures WaitingBound(c, w'.rc, ReceptionistNotes(w.rc, w.sh.deskMail, h.desk))
  {
  }

  lemma WaitingRingKept(c: Config, w: World, w': World, h: Hist)
    requires Steps(c, w, w') && 0 <= w.rc.pc
    requires WaitingRing(c, w.rc.waiting, h.desk.waitlist)
    requires w.rc.pc == R_DECIDE && Decide(w.rc.board) <= -1 ==> |h.desk.waitlist| < c.WaitSlots()
    ensures WaitingRing(c, w'.rc.waiting, ReceptionistNotes(w.rc, w.sh.deskMail, h.desk).waitlist)
  {
    if w.rc.pc == R_DECIDE && Decide(w.rc.board) <= -1 {
      PushKeepsOrder(w.rc.waiting, h.desk.waitlist, w.rc.arg);
    } else if w.rc.pc == R_PAY_NEXT && h.desk.waitlist != [] {
      PopKeepsOrder(w.rc.waiting, h.desk.waitlist, -1);
    } else {
      assert w'.rc.waiting == w.rc.waiting;
    }
  }

  lemma SeatingKept(c: Config, w: World, w': World, h: Hist)
    requires Steps(c, w, w')
    requires w.rc.pc == R_DECIDE && Decide(w.rc.board) > -1
    requires Consistent(w.rc.board)
    requires TablesHeld(c, w.rc, w.sh.assignedTable, h.desk)
    requires 0 <= w.rc.arg < |w.sh.assignedTable|
    requires w.rc.arg !in h.desk.seated && w.rc.arg !in h.desk.paid
    ensures TablesHeld(c, w'.rc, w'.sh.assignedTable, ReceptionistNotes(w.rc, w.sh.deskMail, h.desk))
  {
    var t, g := Decide(w.rc.board), w.rc.arg;
    DecideIsFree(w.rc.board);
    assert h.desk.occupant[t] == -1;
    assert w.sh.assignedTable[g] == -1;
    assert w'.rc.board.occupied == w.rc.board.occupied[t := true];
  }

  lemma FreeingKept(c: Config, w: World, w': World, h: Hist)
    requires Steps(c, w, w')
    requires w.rc.pc == R_PAY_FREE
    requires TablesHeld(c, w.rc, w.sh.assignedTable, h.desk)
    ensures TablesHeld(c, w'.rc, w'.sh.assignedTable, ReceptionistNotes(w.rc, w.sh.deskMail, h.desk))
  {
    assert h.desk.occupant[w.rc.table] == w.rc.arg;
  }

  /** Tables are given out and taken back at two locations only. */
  lemma TablesUntouched(c: Config, me: ReceptionistState, sh: Shared, d: DeskLog)
    requires 0 <= me.pc != R_PAY_FREE && (me.pc == R_DECIDE ==> Decide(me.board) <= -1)
    ensures ReceptionistMove(c, me, sh).board == me.board && ReceptionistWrite(me, sh).assignedTable == sh.assignedTable
    ensures ReceptionistMove(c, me, sh).pc != R_PAY_SIGNAL
    ensures var d' := ReceptionistNotes(me, sh.deskMail, d);
            d'.occupant == d.occupant && d'.seated == d.seated && d'.seatedAt == d.seatedAt && d'.paid == d.paid && d'.paidAt == d.paidAt
  {
  }

  lemma TablesHeldKept(c: Config, w: World, w': World, h: Hist)
    requires Steps(c, w, w') && 0 <= w.rc.pc
    requires TablesHeld(c, w.rc, w.sh.assignedTable, h.desk)
    requires Consistent(w.rc.board)
    requires R_ASSIGN_LOCK <= w.rc.pc <= R_DECIDE || R_PAY_LOCK <= w.rc.pc <= R_PAY_FREE ==> 0 <= w.rc.arg < |w.sh.assignedTable|
    requires w.rc.pc == R_DECIDE ==> w.rc.arg !in h.desk.seated && w.rc.arg !in h.desk.paid
    ensures TablesHeld(c, w'.rc, w'.sh.assignedTable, ReceptionistNotes(w.rc, w.sh.deskMail, h.desk))
  {
    if w.rc.pc == R_DECIDE && Decide(w.rc.board) > -1 {
      SeatingKept(c, w, w', h);
    } else if w.rc.pc == R_PAY_FREE {
      FreeingKept(c, w, w', h);
    } else {
      TablesUntouched(c, w.rc, w.sh, h.desk);
    }
  }

  lemma TableTokensKept(c: Config, w: World, w': World, h: Hist)
    requires Steps(c, w, w') && 0 <= w.rc.pc
    requires DeskHands(c, w.rc)
    requires TableTokens(w.gr, w.sems.waitForTable, w.rc, h.desk.seated)
    requires w.rc.pc == R_DECIDE ==> 0 <= w.rc.arg < |w.gr| && w.rc.arg !in h.desk.seated && w.gr[w.rc.arg].pc == G_AWAIT_TABLE
    ensures TableTokens(w'.gr, w'.sems.waitForTable, w'.rc, ReceptionistNotes(w.rc, w.sh.deskMail, h.desk).seated)
  {
  }

  lemma TablesRememberedKept(c: Config, w: World, w': World, h: Hist)
    requires Steps(c, w, w') && 0 <= w.rc.pc
    requires TablesRemembered(w.gr, w.sh.assignedTable, c.tables, h.desk.paid)
    requires w.rc.pc == R_DECIDE ==> 0 <= w.rc.arg < |w.gr| && w.gr[w.rc.arg].pc == G_AWAIT_TABLE
    requires w.rc.pc == R_PAY_FREE ==> 0 <= w.rc.arg < |w.gr| && w.gr[w.rc.arg].pc >= G_BILL_POST
    ensures TablesRemembered(w'.gr, w'.sh.assignedTable, c.tables, ReceptionistNotes(w.rc, w.sh.deskMail, h.desk).paid)
  {
  }

  lemma PayFreeKept(c: Config, w: World, w': World, h: Hist)
    requires Steps(c, w, w') && w.rc.pc == R_PAY_FREE
    requires Payments(w.gr, w.sems.tableDone, w.rc, h.desk.paidAt)
    requires PaidTables(w.gr, h.desk.paid, h.desk.paidAt)
    requires 0 <= w.rc.arg < |w.gr| && w.gr[w.rc.arg].pc >= G_AWAIT_DONE && w.gr[w.rc.arg].table == w.rc.table
    ensures var d' := ReceptionistNotes(w.rc, w.sh.deskMail, h.desk);
            Payments(w'.gr, w'.sems.tableDone, w'.rc, d'.paidAt) && PaidTables(w'.gr, d'.paid, d'.paidAt)
  {
    forall t | 0 <= t < |w.sems.tableDone|
      ensures multiset(h.desk.paidAt + [w.rc.table])[t] == multiset(h.desk.paidAt)[t] + (if t == w.rc.table then 1 else 0)
    {
    }
  }

  lemma PaymentsUntouched(c: Config, me: ReceptionistState, sh: Shared, d: DeskLog)
    requires 0 <= me.pc != R_PAY_FREE
    ensures ReceptionistMove(c, me, sh).pc != R_PAY_SIGNAL
    ensures var d' := ReceptionistNotes(me, sh.deskMail, d); d'.paid == d.paid && d'.paidAt == d.paidAt
  {
  }

  lemma PaymentsKept(c: Config, w: World, w': World, h: Hist)
    requires Steps(c, w, w') && 0 <= w.rc.pc
    requires Payments(w.gr, w.sems.tableDone, w.rc, h.desk.paidAt)
    requires PaidTables(w.gr, h.desk.paid, h.desk.paidAt)
    requires w.rc.pc == R_PAY_FREE ==>
               0 <= w.rc.arg < |w.gr| && w.gr[w.rc.arg].pc >= G_AWAIT_DONE && w.gr[w.rc.arg].table == w.rc.table
    ensures var d' := ReceptionistNotes(w.rc, w.sh.deskMail, h.desk);
            Payments(w'.gr, w'.sems.tableDone, w'.rc, d'.paidAt) && PaidTables(w'.gr, d'.paid, d'.paidAt)
  {
    var d' := ReceptionistNotes(w.rc, w.sh.deskMail, h.desk);
    if w.rc.pc == R_PAY_FREE {
      PayFreeKept(c, w, w', h);
    } else {
      PaymentsUntouched(c, w.rc, w.sh, h.desk);
      forall t | 0 <= t < |w'.sems.tableDone|
        ensures w'.sems.tableDone[t] == w.sems.tableDone[t] + (if w.rc.pc == R_PAY_SIGNAL && w.rc.table == t then 1 else 0)
      {
      }
    }
  }

  lemma SeatingKeepsMeals(c: Config, w: World, w': World, h: Hist)
    requires Steps(c, w, w') && w.rc.pc == R_DECIDE && Decide(w.rc.board) > -1
    requires Meals(w.gr, w.sh.assignedTable, h.desk.occupant, w.wt, w.sems, h.kitchen)
    requires 0 <= w.rc.arg < |w.gr| && w.gr[w.rc.arg].pc == G_AWAIT_TABLE
    requires w.rc.arg !in h.kitchen.acked && w.rc.arg !in h.kitchen.delivered
    requires At(h.desk.occupant, Decide(w.rc.board), 0) < 0
    requires w.wt.pc == W_INFORM_ACK || W_TAKE_UNLOCK <= w.wt.pc <= W_TAKE_FOOD ==> w.wt.cur != w.rc.arg
    ensures Meals(w'.gr, w'.sh.assignedTable, ReceptionistNotes(w.rc, w.sh.deskMail, h.desk).occupant, w'.wt, w'.sems, h.kitchen)
  {
    forall x | 0 <= x < |w.gr|
      ensures MealToken(w.gr[x].pc, x, w'.sh.assignedTable[x], w'.sems, h.kitchen)
    {
      assert MealToken(w.gr[x].pc, x, w.sh.assignedTable[x], w.sems, h.kitchen);
    }
  }

  lemma MealsKept(c: Config, w: World, w': World, h: Hist)
    requires Steps(c, w, w') && 0 <= w.rc.pc
    requires Meals(w.gr, w.sh.assignedTable, h.desk.occupant, w.wt, w.sems, h.kitchen)
    requires TablesHeld(c, w.rc, w.sh.assignedTable, h.desk)
    requires Consistent(w.rc.board)
    requires w.rc.pc == R_DECIDE ==>
               && 0 <= w.rc.arg < |w.gr| && w.gr[w.rc.arg].pc == G_AWAIT_TABLE
               && w.rc.arg !in h.kitchen.acked && w.rc.arg !in h.kitchen.delivered
    requires w.rc.pc == R_PAY_FREE ==> w.gr[w.rc.arg].pc >= G_AWAIT_DONE
    requires w.wt.pc == W_INFORM_ACK || W_TAKE_UNLOCK <= w.wt.pc <= W_TAKE_FOOD ==>
               0 <= w.wt.cur < |w.gr| && G_AWAIT_TABLE < w.gr[w.wt.cur].pc <= G_AWAIT_FOOD
    ensures Meals(w'.gr, w'.sh.assignedTable, ReceptionistNotes(w.rc, w.sh.deskMail, h.desk).occupant, w'.wt, w'.sems, h.kitchen)
  {
    if w.rc.pc == R_DECIDE && Decide(w.rc.board) > -1 {
      DecideIsFree(w.rc.board);
      SeatingKeepsMeals(c, w, w', h);
    }
  }

  // Putting the pieces together

  /** What the receptionist relies on at each location, from the other processes' invariants. */
  ghost predicate Relies(c: Config, w: World, h: Hist) {
    && |w.gr| == |w.sh.assignedTable| == c.groups
    && w.rc.waiting.len == |h.desk.waitlist|
    && (h.desk.waitlist != [] ==> 0 <= Front(w.rc.waiting, -1) == h.desk.waitlist[0] < c.groups)
    && (w.rc.pc == R_READ ==> w.sh.deskMail.kind in {TABLEREQ, BILLREQ})
    && (w.rc.pc == R_READ && w.sh.deskMail.kind == TABLEREQ ==> |h.desk.tableReqs| < c.groups)
    && (w.rc.pc == R_DECIDE ==>
          && 0 <= w.rc.arg < c.groups
          && w.rc.arg !in h.desk.seated && w.rc.arg !in h.desk.paid
          && w.gr[w.rc.arg].pc == G_AWAIT_TABLE
          && (Recalled(w.rc) ==> Decide(w.rc.board) > -1))
    && (Paying(w.rc) && w.rc.pc != R_RELEASE ==>
          && 0 <= w.rc.arg < c.groups
          && w.gr[w.rc.arg].pc >= G_AWAIT_DONE
          && w.sh.assignedTable[w.rc.arg] >= 0
          && w.gr[w.rc.arg].table == w.sh.assignedTable[w.rc.arg])
  }

  lemma ReadsNewGroup(c: Config, w: World, h: Hist)
    requires DeskMail(w.sems, w.gr, w.rc.pc, w.sh.deskMail, h.deskMail, h.desk) && |w.gr| == c.groups
    requires w.rc.pc == R_READ && w.sh.deskMail.kind == TABLEREQ
    ensures |h.desk.tableReqs| < c.groups
  {
    var g := w.sh.deskMail.group;
    assert DeskGroup(w.gr[g].pc, g, w.sh.deskMail, h.deskMail, h.desk);
    NoRepeatsFits(h.desk.tableReqs, c.groups);
  }

  lemma HandNotSeated(c: Config, w: World, h: Hist)
    requires |w.gr| == c.groups
    requires DeskMail(w.sems, w.gr, w.rc.pc, w.sh.deskMail, h.deskMail, h.desk)
    requires DeskHands(c, w.rc) && Fifo(c, w.rc, h.desk)
    requires TableTokens(w.gr, w.sems.waitForTable, w.rc, h.desk.seated)
    requires w.rc.pc == R_DECIDE
    ensures w.rc.arg !in h.desk.seated && w.gr[w.rc.arg].pc == G_AWAIT_TABLE && w.rc.arg !in h.desk.paid
  {
    var g, d := w.rc.arg, h.desk;
    assert Fresh(w.rc) || Recalled(w.rc);
    var k := if Fresh(w.rc) then |d.tableReqs| - 1 else |d.seated|;
    assert d.tableReqs[k] == g;
    assert forall i :: 0 <= i < |d.seated| ==> d.seated[i] == d.tableReqs[i];
    assert g !in d.seated;
    assert DeskGroup(w.gr[g].pc, g, w.sh.deskMail, h.deskMail, d);
    assert TableToken(w.gr[g].pc, g, w.sems.waitForTable[g], w.rc, d.seated);
    assert g in d.paid ==> g in d.billReqs;
  }

  lemma PayerSits(c: Config, w: World, h: Hist)
    requires |w.gr| == c.groups
    requires DeskMail(w.sems, w.gr, w.rc.pc, w.sh.deskMail, h.deskMail, h.desk)
    requires DeskHands(c, w.rc) && Fifo(c, w.rc, h.desk)
    requires TablesHeld(c, w.rc, w.sh.assignedTable, h.desk)
    requires TableTokens(w.gr, w.sems.waitForTable, w.rc, h.desk.seated)
    requires TablesRemembered(w.gr, w.sh.assignedTable, c.tables, h.desk.paid)
    requires Paying(w.rc) && w.rc.pc != R_RELEASE
    ensures w.gr[w.rc.arg].pc >= G_AWAIT_DONE && w.sh.assignedTable[w.rc.arg] >= 0
    ensures w.gr[w.rc.arg].table == w.sh.assignedTable[w.rc.arg]
  {
    var g, d := w.rc.arg, h.desk;
    assert d.billReqs[|d.paid|] == g;
    assert forall i :: 0 <= i < |d.paid| ==> d.paid[i] == d.billReqs[i];
    assert g !in d.paid;
    assert DeskGroup(w.gr[g].pc, g, w.sh.deskMail, h.deskMail, d);
    assert TableToken(w.gr[g].pc, g, w.sems.waitForTable[g], w.rc, d.seated);
    assert Remembers(w.gr[g], g, w.sh.assignedTable[g], c.tables, d.paid);
  }

  lemma WaitlistFront(c: Config, w: World, h: Hist)
    requires Fifo(c, w.rc, h.desk) && Ids(h.desk.tableReqs, c.groups)
    requires WaitingRing(c, w.rc.waiting, h.desk.waitlist)
    ensures h.desk.waitlist != [] ==> 0 <= Front(w.rc.waiting, -1) == h.desk.waitlist[0] < c.groups
  {
    var d := h.desk;
    if d.waitlist != [] {
      PopKeepsOrder(w.rc.waiting, d.waitlist, -1);
      assert d.tableReqs[|d.seated| + (if Recalled(w.rc) then 1 else 0)] == d.waitlist[0];
    }
  }

  lemma ReliesHolds(c: Config, w: World, h: Hist)
    requires DeskInv(c, w, h)
    ensures Relies(c, w, h)
  {
    if w.rc.pc == R_READ && w.sh.deskMail.kind == TABLEREQ { ReadsNewGroup(c, w, h); }
    if w.rc.pc == R_DECIDE {
      HandNotSeated(c, w, h);
      DecideIsFree(w.rc.board);
    }
    if Paying(w.rc) && w.rc.pc != R_RELEASE { PayerSits(c, w, h); }
    WaitlistFront(c, w, h);
  }

  lemma DeskKept(c: Config, w: World, w': World, h: Hist)
    requires DeskInv(c, w, h) && Relies(c, w, h) && Steps(c, w, w') && Shape(c, w')
    ensures DeskInv(c, w', ReceptionistNote(w, h))
  {
    DeskMailKept(c, w, w', h);
    HandsKept(c, w, w', h);
    FifoKept(c, w, w', h);
    WaitingRingKept(c, w, w', h);
    if w.rc.pc == R_DECIDE && Decide(w.rc.board) <= -1 { EnqueueBounded(c, w, w', h); } else { WaitingBoundKept(c, w, w', h); }
    TablesHeldKept(c, w, w', h);
    TableTokensKept(c, w, w', h);
    TablesRememberedKept(c, w, w', h);
    PaymentsKept(c, w, w', h);
  }

  lemma KitchenKept(c: Config, w: World, w': World, h: Hist)
    requires DeskInv(c, w, h) && KitchenInv(c, w, h) && Relies(c, w, h) && Steps(c, w, w')
    ensures KitchenInv(c, w', ReceptionistNote(w, h))
  {
    if w.rc.pc == R_DECIDE { NotYetServed(c, w, h, w.rc.arg); }
    if w.wt.pc == W_INFORM_ACK || W_TAKE_UNLOCK <= w.wt.pc <= W_TAKE_FOOD { CurrentWaits(c, w, h); }
    MealsKept(c, w, w', h);
  }

  lemma Kept(c: Config, w: World, h: Hist)
    requires Inv(c, w, h) && Enabled(w, Receptionist)
    ensures Inv(c, ReceptionistNext(c, w), ReceptionistNote(w, h))
  {
    var w' := ReceptionistNext(c, w);
    NextSteps(c, w);
    MutexKept(c, w, h);
    ReliesHolds(c, w, h);
    DeskKept(c, w, w', h);
    KitchenKept(c, w, w', h);
  }
}
