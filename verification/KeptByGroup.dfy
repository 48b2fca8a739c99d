/** A step of a group keeps every invariant. */
module KeptByGroup {
  import opened Rings
  import opened Tables
  import opened Restaurant
  import opened History
  import opened Invariants
  import opened Seating

  /** Group g steps from w to w': what the step changes, field by field. */
  ghost predicate Steps(w: World, g: nat, w': World) {
    && g < |w.gr|
    && var me, v, v' := w.gr[g], w.sems, w'.sems;
    && me.pc < G_DONE
    && w'.rc == w.rc && w'.wt == w.wt && w'.ch == w.ch
    && w'.gr == w.gr[g := GroupMove(me, g, w.sh)]
    && w'.sh == GroupWrite(me.pc, g, w.sh)
    && v'.deskPossible == v.deskPossible - (if me.pc in {G_ASK_ACQUIRE, G_BILL_ACQUIRE} then 1 else 0)
    && v'.deskReq == v.deskReq + (if me.pc in {G_ASK_POST, G_BILL_POST} then 1 else 0)
    && v'.waiterPossible == v.waiterPossible - (if me.pc == G_FOOD_ACQUIRE then 1 else 0)
    && v'.waiterReq == v.waiterReq + (if me.pc == G_FOOD_POST then 1 else 0)
    && v'.waitOrder == v.waitOrder && v'.orderReceived == v.orderReceived
    && v'.waitForTable == (if me.pc == G_AWAIT_TABLE then Take(v.waitForTable, g) else v.waitForTable)
    && v'.requestReceived == (if me.pc == G_AWAIT_ACK then Take(v.requestReceived, me.table) else v.requestReceived)
    && v'.foodArrived == (if me.pc == G_AWAIT_FOOD then Take(v.foodArrived, me.table) else v.foodArrived)
    && v'.tableDone == (if me.pc == G_AWAIT_DONE then Take(v.tableDone, me.table) else v.tableDone)
    && (me.pc == G_AWAIT_TABLE ==> At(v.waitForTable, g, 0) > 0)
    && (me.pc == G_AWAIT_ACK ==> At(v.requestReceived, me.table, 0) > 0)
    && (me.pc == G_AWAIT_FOOD ==> At(v.foodArrived, me.table, 0) > 0)
    && (me.pc == G_AWAIT_DONE ==> At(v.tableDone, me.table, 0) > 0)
  }

  lemma NextSteps(c: Config, w: World, g: nat)
    requires Shape(c, w) && Enabled(w, Group(g))
    ensures Steps(w, g, GroupNext(w, g)) && Shape(c, GroupNext(w, g))
  {
  }

  lemma MutexKept(c: Config, w: World, g: nat, h: Hist)
    requires Shape(c, w) && Enabled(w, Group(g)) && MutexInv(w, h.holder)
    ensures MutexInv(GroupNext(w, g), NoteHolder(GroupOp(w.gr[g], g), Group(g), h.holder))
  {
    var w' := GroupNext(w, g);
    assert Inside(w, Group(g)) <==> h.holder == Some(Group(g));
    assert forall p :: p != Group(g) ==> Inside(w', p) == Inside(w, p);
  }

  lemma DeskMailKept(w: World, g: nat, w': World, h: Hist)
    requires Steps(w, g, w')
    requires DeskMail(w.sems, w.gr, w.rc.pc, w.sh.deskMail, h.deskMail, h.desk)
    ensures DeskMail(w'.sems, w'.gr, w'.rc.pc, w'.sh.deskMail, GroupNotesDesk(w.gr[g].pc, g, h.deskMail), h.desk)
  {
  }

  lemma TableTokensKept(c: Config, w: World, g: nat, w': World, h: Hist)
    requires Steps(w, g, w')
    requires DeskGroup(w.gr[g].pc, g, w.sh.deskMail, h.deskMail, h.desk)
    requires Fifo(c, w.rc, h.desk)
    requires TableTokens(w.gr, w.sems.waitForTable, w.rc, h.desk.seated)
    ensures TableTokens(w'.gr, w'.sems.waitForTable, w'.rc, h.desk.seated)
  {
    assert g in h.desk.seated ==> g in h.desk.tableReqs;
  }

  lemma TablesRememberedKept(c: Config, w: World, g: nat, w': World, h: Hist)
    requires Steps(w, g, w')
    requires G_AWAIT_TABLE < w.gr[g].pc <= G_BILL_POST ==>
               0 <= At(w.sh.assignedTable, g, -1) < c.tables && g !in h.desk.paid
    requires TablesRemembered(w.gr, w.sh.assignedTable, c.tables, h.desk.paid)
    ensures TablesRemembered(w'.gr, w'.sh.assignedTable, c.tables, h.desk.paid)
  {
  }

  lemma PaymentsKept(w: World, g: nat, w': World, h: Hist)
    requires Steps(w, g, w')
    requires Payments(w.gr, w.sems.tableDone, w.rc, h.desk.paidAt)
    ensures Payments(w'.gr, w'.sems.tableDone, w'.rc, h.desk.paidAt)
  {
    var pc, mine := w.gr[g].pc, w.gr[g].table;
    forall t | 0 <= t < |w.sems.tableDone|
      ensures |LeftFrom(w'.gr, t)| == |LeftFrom(w.gr, t)| + (if pc == G_AWAIT_DONE && mine == t then 1 else 0)
    {
      if pc == G_AWAIT_DONE && mine == t {
        assert LeftFrom(w'.gr, t) == LeftFrom(w.gr, t) + {g};
      } else {
        assert LeftFrom(w'.gr, t) == LeftFrom(w.gr, t);
      }
    }
  }

  lemma PaidTablesKept(w: World, g: nat, w': World, h: Hist)
    requires Steps(w, g, w')
    requires PaidTables(w.gr, h.desk.paid, h.desk.paidAt)
    ensures PaidTables(w'.gr, h.desk.paid, h.desk.paidAt)
  {
  }

  lemma WaiterMailKept(w: World, g: nat, w': World, h: Hist)
    requires Steps(w, g, w')
    requires WaiterMail(w.sems, w.gr, w.wt.pc, w.ch.pc, w.sh.waiterMail, h.waiterMail, h.kitchen.foodReqs)
    ensures WaiterMail(w'.sems, w'.gr, w'.wt.pc, w'.ch.pc, w'.sh.waiterMail, GroupNotesWaiter(w.gr[g].pc, g, h.waiterMail), h.kitchen.foodReqs)
  {
  }

  lemma OrderStageKept(w: World, g: nat, w': World, h: Hist)
    requires Steps(w, g, w')
    requires WaiterMail(w.sems, w.gr, w.wt.pc, w.ch.pc, w.sh.waiterMail, h.waiterMail, h.kitchen.foodReqs)
    requires OrderStage(w.wt, w.ch.pc, w.sems, h.waiterMail.turn, w.sh.waiterMail, h.kitchen)
    requires OrderNames(w.wt, w.ch, w.sh.foodGroup, w.sh.waiterMail, h.kitchen)
    ensures OrderStage(w'.wt, w'.ch.pc, w'.sems, GroupNotesWaiter(w.gr[g].pc, g, h.waiterMail).turn, w'.sh.waiterMail, h.kitchen)
    ensures OrderNames(w'.wt, w'.ch, w'.sh.foodGroup, w'.sh.waiterMail, h.kitchen)
  {
    assert FoodGroup(w.gr[g].pc, g, w.sh.waiterMail, h.waiterMail, h.kitchen.foodReqs);
  }

  /** While it waits for the waiter or the food, group g sits alone at the table it remembers. */
  ghost predicate HasOwnTable(w: World, g: nat, occupant: seq<int>)
    requires g < |w.gr| == |w.sh.assignedTable|
  {
    && (w.gr[g].pc in {G_AWAIT_ACK, G_AWAIT_FOOD} ==>
          && w.gr[g].table == w.sh.assignedTable[g]
          && 0 <= w.gr[g].table < |occupant| && occupant[w.gr[g].table] == g)
    && forall x :: 0 <= x < |w.gr| && x != g && w.sh.assignedTable[x] >= 0 ==> w.sh.assignedTable[x] != w.sh.assignedTable[g]
  }

  lemma MealsKept(c: Config, w: World, g: nat, w': World, h: Hist)
    requires Steps(w, g, w') && |w.sh.assignedTable| == |w.gr|
    requires HasOwnTable(w, g, h.desk.occupant)
    requires Meals(w.gr, w.sh.assignedTable, h.desk.occupant, w.wt, w.sems, h.kitchen)
    ensures Meals(w'.gr, w'.sh.assignedTable, h.desk.occupant, w'.wt, w'.sems, h.kitchen)
  {
    var v, v' := w.sems, w'.sems;
    assert MealToken(w.gr[g].pc, g, w.sh.assignedTable[g], v, h.kitchen);
    forall x | 0 <= x < |w.gr|
      ensures MealToken(w'.gr[x].pc, x, w.sh.assignedTable[x], v', h.kitchen)
    {
      assert MealToken(w.gr[x].pc, x, w.sh.assignedTable[x], v, h.kitchen);
    }
  }

  lemma StatsKept(w: World, g: nat, w': World)
    requires Steps(w, g, w') && Stats(w.gr, w.sh.groupStat) && 0 <= w.gr[g].pc
    ensures Stats(w'.gr, w'.sh.groupStat)
  {
  }

  /** From being called until its bill is read, group g sits and has not paid. */
  lemma StillSits(c: Config, w: World, g: nat, h: Hist)
    requires DeskInv(c, w, h) && g < |w.gr|
    ensures DeskGroup(w.gr[g].pc, g, w.sh.deskMail, h.deskMail, h.desk)
    ensures G_AWAIT_TABLE < w.gr[g].pc <= G_BILL_POST ==> 0 <= w.sh.assignedTable[g] < c.tables && g !in h.desk.paid
  {
    assert DeskGroup(w.gr[g].pc, g, w.sh.deskMail, h.deskMail, h.desk);
    if G_AWAIT_TABLE < w.gr[g].pc <= G_BILL_POST { SitsAtTable(c, w, g, h); }
  }

  lemma TokensKept(c: Config, w: World, g: nat, w': World, h: Hist)
    requires DeskInv(c, w, h) && Steps(w, g, w')
    ensures TableTokens(w'.gr, w'.sems.waitForTable, w'.rc, h.desk.seated)
    ensures TablesRemembered(w'.gr, w'.sh.assignedTable, c.tables, h.desk.paid)
  {
    StillSits(c, w, g, h);
    TableTokensKept(c, w, g, w', h);
    TablesRememberedKept(c, w, g, w', h);
  }

  /** Only the receptionist touches its books. */
  lemma BooksUntouched(w: World, g: nat, w': World, h: Hist)
    requires Steps(w, g, w')
    ensures w'.rc == w.rc && w'.sh.assignedTable == w.sh.assignedTable
    ensures GroupNote(w, g, h).deskMail.read == h.deskMail.read && GroupNote(w, g, h).desk == h.desk
  {
  }

  lemma DeskKept(c: Config, w: World, g: nat, w': World, h: Hist)
    requires DeskInv(c, w, h) && Steps(w, g, w') && Shape(c, w')
    ensures DeskInv(c, w', GroupNote(w, g, h))
  {
    BooksUntouched(w, g, w', h);
    DeskMailKept(w, g, w', h);
    TokensKept(c, w, g, w', h);
    PaymentsKept(w, g, w', h);
    PaidTablesKept(w, g, w', h);
  }

  lemma OwnTable(c: Config, w: World, g: nat, h: Hist)
    requires DeskInv(c, w, h) && g < |w.gr|
    ensures HasOwnTable(w, g, h.desk.occupant)
  {
    StillSits(c, w, g, h);
    assert Remembers(w.gr[g], g, w.sh.assignedTable[g], c.tables, h.desk.paid);
    forall x | 0 <= x < |w.gr| && w.sh.assignedTable[x] >= 0
      ensures h.desk.occupant[w.sh.assignedTable[x]] == x
    {
    }
  }

  lemma KitchenKept(c: Config, w: World, g: nat, w': World, h: Hist)
    requires KitchenInv(c, w, h) && Steps(w, g, w')
    requires |w.sh.assignedTable| == |w.gr| && HasOwnTable(w, g, h.desk.occupant)
    ensures KitchenInv(c, w', GroupNote(w, g, h))
  {
    WaiterMailKept(w, g, w', h);
    OrderStageKept(w, g, w', h);
    MealsKept(c, w, g, w', h);
  }

  lemma Kept(c: Config, w: World, g: nat, h: Hist)
    requires Inv(c, w, h) && Enabled(w, Group(g))
    ensures Inv(c, GroupNext(w, g), GroupNote(w, g, h))
  {
    var w' := GroupNext(w, g);
    NextSteps(c, w, g);
    MutexKept(c, w, g, h);
    DeskKept(c, w, g, w', h);
    OwnTable(c, w, g, h);
    KitchenKept(c, w, g, w', h);
    StatsKept(w, g, w');
  }
}
