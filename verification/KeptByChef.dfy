/** A step of the chef keeps every invariant. */
module KeptByChef {
  import opened Rings
  import opened Tables
  import opened Restaurant
  import opened History
  import opened Invariants
  import opened Kitchen

  /** The chef steps from w to w': what the step changes, field by field. */
  ghost predicate Steps(c: Config, w: World, w': World) {
    var me, v, v', sh, sh' := w.ch, w.sems, w'.sems, w.sh, w'.sh;
    && 0 <= me.pc < C_DONE
    && w'.gr == w.gr && w'.rc == w.rc && w'.wt == w.wt
    && w'.ch == ChefMove(c, me, sh)
    && sh'.deskMail == sh.deskMail && sh'.groupStat == sh.groupStat && sh'.assignedTable == sh.assignedTable
    && sh'.foodOrder == sh.foodOrder && sh'.foodGroup == sh.foodGroup
    && sh'.waiterMail == (if me.pc == C_READY_WRITE then Request(FOODREADY, me.lastGroup) else sh.waiterMail)
    && v'.deskReq == v.deskReq && v'.deskPossible == v.deskPossible
    && v'.waitForTable == v.waitForTable && v'.tableDone == v.tableDone
    && v'.requestReceived == v.requestReceived && v'.foodArrived == v.foodArrived
    && v'.waiterReq == v.waiterReq + (if me.pc == C_READY_POST then 1 else 0)
    && v'.waiterPossible == v.waiterPossible - (if me.pc == C_READY_ACQUIRE then 1 else 0)
    && v'.waitOrder == v.waitOrder - (if me.pc == C_AWAIT then 1 else 0)
    && v'.orderReceived == v.orderReceived + (if me.pc == C_ACK then 1 else 0)
  }

  lemma NextSteps(c: Config, w: World)
    requires Shape(c, w) && Enabled(w, Chef)
    ensures Steps(c, w, ChefNext(c, w)) && Shape(c, ChefNext(c, w))
  {
  }

  lemma MutexKept(c: Config, w: World, h: Hist)
    requires Shape(c, w) && Enabled(w, Chef) && MutexInv(w, h.holder)
    ensures MutexInv(ChefNext(c, w), NoteHolder(ChefOp(w.ch), Chef, h.holder))
  {
    var w' := ChefNext(c, w);
    assert Inside(w, Chef) <==> h.holder == Some(Chef);
    assert forall p :: p != Chef ==> Inside(w', p) == Inside(w, p);
  }

  lemma MailKept(c: Config, w: World, w': World, h: Hist)
    requires Steps(c, w, w')
    requires WaiterMail(w.sems, w.gr, w.wt.pc, w.ch.pc, w.sh.waiterMail, h.waiterMail, h.kitchen.foodReqs)
    requires w.ch.pc == C_ACK ==> w.ch.lastGroup >= 0
    ensures WaiterMail(w'.sems, w'.gr, w'.wt.pc, w'.ch.pc, w'.sh.waiterMail, ChefNotesMail(w.ch, h.waiterMail),
                       ChefNotes(w.ch.pc, w.sh.foodGroup, h.kitchen).foodReqs)
  {
  }

  lemma StageKept(c: Config, w: World, w': World, h: Hist)
    requires Steps(c, w, w')
    requires w.ch.pc == C_AWAIT ==> w.sems.waitOrder > 0
    requires w.ch.pc == C_ACK ==> w.ch.lastGroup >= 0
    requires WaiterMail(w.sems, w.gr, w.wt.pc, w.ch.pc, w.sh.waiterMail, h.waiterMail, h.kitchen.foodReqs)
    requires OrderStage(w.wt, w.ch.pc, w.sems, h.waiterMail.turn, w.sh.waiterMail, h.kitchen)
    requires OrderNames(w.wt, w.ch, w.sh.foodGroup, w.sh.waiterMail, h.kitchen)
    ensures var k' := ChefNotes(w.ch.pc, w.sh.foodGroup, h.kitchen);
            && OrderStage(w'.wt, w'.ch.pc, w'.sems, ChefNotesMail(w.ch, h.waiterMail).turn, w'.sh.waiterMail, k')
            && OrderNames(w'.wt, w'.ch, w'.sh.foodGroup, w'.sh.waiterMail, k')
  {
  }

  lemma ProgressKept(c: Config, w: World, w': World, h: Hist)
    requires Steps(c, w, w')
    requires w.ch.pc == C_AWAIT ==> w.sems.waitOrder > 0
    requires w.ch.pc == C_ACK ==> w.ch.lastGroup >= 0
    requires OrderStage(w.wt, w.ch.pc, w.sems, h.waiterMail.turn, w.sh.waiterMail, h.kitchen)
    requires OrderLists(w.wt, h.kitchen) && OrderProgress(w.wt.pc, h.kitchen)
    requires OrderNames(w.wt, w.ch, w.sh.foodGroup, w.sh.waiterMail, h.kitchen)
    requires BusyFlag(w.wt, w.sh.foodOrder, h.kitchen)
    requires KitchenCounts(c, w.wt, w.ch, h.kitchen)
    ensures var k' := ChefNotes(w.ch.pc, w.sh.foodGroup, h.kitchen);
            && OrderLists(w'.wt, k') && OrderProgress(w'.wt.pc, k')
            && BusyFlag(w'.wt, w'.sh.foodOrder, k')
            && KitchenCounts(c, w'.wt, w'.ch, k')
  {
  }

  lemma MealsKept(c: Config, w: World, w': World, h: Hist)
    requires Steps(c, w, w')
    requires Meals(w.gr, w.sh.assignedTable, h.desk.occupant, w.wt, w.sems, h.kitchen)
    ensures Meals(w'.gr, w'.sh.assignedTable, h.desk.occupant, w'.wt, w'.sems, ChefNotes(w.ch.pc, w.sh.foodGroup, h.kitchen))
  {
    var k' := ChefNotes(w.ch.pc, w.sh.foodGroup, h.kitchen);
    assert k'.acked == h.kitchen.acked && k'.delivered == h.kitchen.delivered;
    forall x | 0 <= x < |w.gr|
      ensures MealToken(w.gr[x].pc, x, w.sh.assignedTable[x], w'.sems, k')
    {
      assert MealToken(w.gr[x].pc, x, w.sh.assignedTable[x], w.sems, h.kitchen);
    }
  }

  lemma KitchenKept(c: Config, w: World, w': World, h: Hist)
    requires KitchenInv(c, w, h) && Steps(c, w, w')
    requires w.ch.pc == C_AWAIT ==> w.sems.waitOrder > 0
    ensures KitchenInv(c, w', ChefNote(w, h))
  {
    ChefHasGroup(w, h, |w.gr|);
    MailKept(c, w, w', h);
    StageKept(c, w, w', h);
    ProgressKept(c, w, w', h);
    MealsKept(c, w, w', h);
  }

  lemma Kept(c: Config, w: World, h: Hist)
    requires Inv(c, w, h) && Enabled(w, Chef)
    ensures Inv(c, ChefNext(c, w), ChefNote(w, h))
  {
    var w' := ChefNext(c, w);
    NextSteps(c, w);
    MutexKept(c, w, h);
    KitchenKept(c, w, w', h);
  }
}
