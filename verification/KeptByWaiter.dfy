/** A step of the waiter keeps every invariant. */
module KeptByWaiter {
  import opened Rings
  import opened Tables
  import opened Restaurant
  import opened History
  import opened Invariants
  import opened Seating
  import opened Kitchen

  /** The waiter steps from w to w': what the step changes, field by field. */
  ghost predicate Steps(c: Config, w: World, w': World) {
    var me, v, v', sh, sh' := w.wt, w.sems, w'.sems, w.sh, w'.sh;
    && 0 <= me.pc && me.pc != W_DONE && me.pc != W_STUCK
    && w'.gr == w.gr && w'.rc == w.rc && w'.ch == w.ch
    && w'.wt == WaiterMove(c, me, sh)
    && sh'.deskMail == sh.deskMail && sh'.waiterMail == sh.waiterMail && sh'.groupStat == sh.groupStat
    && sh'.assignedTable == sh.assignedTable
    && sh'.foodOrder == (if me.pc == W_INFORM_ORDER then true else if me.pc == W_TAKE_CLEAR then false else sh.foodOrder)
    && sh'.foodGroup == (if me.pc == W_INFORM_GROUP then me.cur else sh.foodGroup)
    && v'.deskReq == v.deskReq && v'.deskPossible == v.deskPossible
    && v'.waitForTable == v.waitForTable && v'.tableDone == v.tableDone
    && v'.waiterReq == v.waiterReq - (if me.pc == W_GET then 1 else 0)
    && v'.waiterPossible == v.waiterPossible + (if me.pc == W_RELEASE then 1 else 0)
    && v'.waitOrder == v.waitOrder + (if me.pc == W_INFORM_POST then 1 else 0)
    && v'.orderReceived == v.orderReceived - (if me.pc == W_INFORM_AWAIT then 1 else 0)
    && v'.requestReceived == (if me.pc == W_INFORM_ACK then Give(v.requestReceived, me.table) else v.requestReceived)
    && v'.foodArrived == (if me.pc == W_TAKE_FOOD then Give(v.foodArrived, me.table) else v.foodArrived)
  }

  lemma NextSteps(c: Config, w: World)
    requires Shape(c, w) && Enabled(w, Waiter)
    ensures Steps(c, w, WaiterNext(c, w)) && Shape(c, WaiterNext(c, w))
  {
  }

  lemma MutexKept(c: Config, w: World, h: Hist)
    requires Shape(c, w) && Enabled(w, Waiter) && MutexInv(w, h.holder)
    ensures MutexInv(WaiterNext(c, w), NoteHolder(WaiterOp(w.wt), Waiter, h.holder))
  {
    var w' := WaiterNext(c, w);
    assert Inside(w, Waiter) <==> h.holder == Some(Waiter);
    assert forall p :: p != Waiter ==> Inside(w', p) == Inside(w, p);
  }

  lemma MailKept(c: Config, w: World, w': World, h: Hist)
    requires Steps(c, w, w')
    requires WaiterMail(w.sems, w.gr, w.wt.pc, w.ch.pc, w.sh.waiterMail, h.waiterMail, h.kitchen.foodReqs)
    requires OrderStage(w.wt, w.ch.pc, w.sems, h.waiterMail.turn, w.sh.waiterMail, h.kitchen)
    requires FrontIsOrder(w.wt)
    ensures WaiterMail(w'.sems, w'.gr, w'.wt.pc, w'.ch.pc, w'.sh.waiterMail, WaiterNotesMail(w.wt.pc, w.sh.waiterMail, h.waiterMail),
                       WaiterNotes(w.wt, w.sh.waiterMail, h.kitchen).foodReqs)
  {
    var mail := w.sh.waiterMail;
    if w.wt.pc == W_READ && mail.kind == FOODREQ {
      assert FoodGroup(w.gr[mail.group].pc, mail.group, mail, h.waiterMail, h.kitchen.foodReqs);
      AppendNew(h.kitchen.foodReqs, mail.group);
    }
  }

  /** Whatever the waiter takes off its queue is a food request. */
  ghost predicate FrontIsOrder(wt: WaiterState) {
    wt.queue.len > 0 ==> Front(wt.queue, Request(-1, -1)).kind == FOODREQ
  }

  lemma StageKept(c: Config, w: World, w': World, h: Hist)
    requires Steps(c, w, w')
    requires WaiterMail(w.sems, w.gr, w.wt.pc, w.ch.pc, w.sh.waiterMail, h.waiterMail, h.kitchen.foodReqs)
    requires OrderStage(w.wt, w.ch.pc, w.sems, h.waiterMail.turn, w.sh.waiterMail, h.kitchen)
    requires BusyFlag(w.wt, w.sh.foodOrder, h.kitchen)
    requires w.wt.pc == W_RELEASE ==> w.wt.incoming.kind in {FOODREQ, FOODREADY}
    requires FrontIsOrder(w.wt)
    requires w.wt.pc == W_INFORM_AWAIT ==> w.sems.orderReceived > 0
    ensures OrderStage(w'.wt, w'.ch.pc, w'.sems, WaiterNotesMail(w.wt.pc, w.sh.waiterMail, h.waiterMail).turn, w'.sh.waiterMail,
                       WaiterNotes(w.wt, w.sh.waiterMail, h.kitchen))
  {
  }

  lemma BusyKept(c: Config, w: World, w': World, h: Hist)
    requires Steps(c, w, w')
    requires OrderStage(w.wt, w.ch.pc, w.sems, h.waiterMail.turn, w.sh.waiterMail, h.kitchen)
    requires WaiterMail(w.sems, w.gr, w.wt.pc, w.ch.pc, w.sh.waiterMail, h.waiterMail, h.kitchen.foodReqs)
    requires BusyFlag(w.wt, w.sh.foodOrder, h.kitchen)
    requires w.wt.queue.len == |h.kitchen.queue|
    requires FrontIsOrder(w.wt)
    requires w.wt.pc == W_RELEASE ==> w.wt.incoming.kind in {FOODREQ, FOODREADY}
    ensures BusyFlag(w'.wt, w'.sh.foodOrder, WaiterNotes(w.wt, w.sh.waiterMail, h.kitchen))
  {
  }

  lemma ListsKept(c: Config, w: World, w': World, h: Hist)
    requires Steps(c, w, w')
    requires w.wt.pc == W_READ ==> w.sh.waiterMail.kind in {FOODREQ, FOODREADY}
    requires OrderLists(w.wt, h.kitchen)
    requires w.wt.queue.len == |h.kitchen.queue|
    requires FrontIsOrder(w.wt)
    requires h.kitchen.queue != [] ==> Front(w.wt.queue, Request(-1, -1)).group == h.kitchen.queue[0]
    ensures OrderLists(w'.wt, WaiterNotes(w.wt, w.sh.waiterMail, h.kitchen))
  {
    if w.wt.pc == W_LOOP && h.kitchen.queue != [] {
      assert h.kitchen.queue == [h.kitchen.queue[0]] + h.kitchen.queue[1..];
    }
  }

  lemma ProgressKept(c: Config, w: World, w': World, h: Hist)
    requires Steps(c, w, w')
    requires OrderStage(w.wt, w.ch.pc, w.sems, h.waiterMail.turn, w.sh.waiterMail, h.kitchen)
    requires OrderProgress(w.wt.pc, h.kitchen)
    requires OrderNames(w.wt, w.ch, w.sh.foodGroup, w.sh.waiterMail, h.kitchen)
    requires FrontIsOrder(w.wt)
    requires w.wt.pc == W_READ && w.sh.waiterMail.kind == FOODREADY ==> h.kitchen.stage == Prepared
    requires w.wt.pc == W_RELEASE ==> w.wt.incoming.kind in {FOODREQ, FOODREADY}
    ensures OrderProgress(w'.wt.pc, WaiterNotes(w.wt, w.sh.waiterMail, h.kitchen))
  {
  }

  lemma NamesKept(c: Config, w: World, w': World, h: Hist)
    requires Steps(c, w, w')
    requires OrderStage(w.wt, w.ch.pc, w.sems, h.waiterMail.turn, w.sh.waiterMail, h.kitchen)
    requires OrderNames(w.wt, w.ch, w.sh.foodGroup, w.sh.waiterMail, h.kitchen)
    requires FrontIsOrder(w.wt)
    requires w.wt.pc == W_READ && w.sh.waiterMail.kind == FOODREADY ==> h.kitchen.stage == Prepared
    ensures OrderNames(w'.wt, w'.ch, w'.sh.foodGroup, w'.sh.waiterMail, WaiterNotes(w.wt, w.sh.waiterMail, h.kitchen))
  {
  }

  lemma CountsKept(c: Config, w: World, w': World, h: Hist)
    requires Steps(c, w, w')
    requires OrderStage(w.wt, w.ch.pc, w.sems, h.waiterMail.turn, w.sh.waiterMail, h.kitchen)
    requires KitchenCounts(c, w.wt, w.ch, h.kitchen)
    requires FrontIsOrder(w.wt)
    requires w.wt.pc == W_RELEASE ==> w.wt.incoming.kind in {FOODREQ, FOODREADY}
    ensures KitchenCounts(c, w'.wt, w'.ch, WaiterNotes(w.wt, w.sh.waiterMail, h.kitchen))
  {
  }

  lemma QueueKept(c: Config, w: World, w': World, h: Hist)
    requires Steps(c, w, w')
    requires OrderQueue(c, w.wt.queue, h.kitchen.queue)
    requires w.wt.pc == W_RELEASE && w.wt.incoming.kind == FOODREQ ==> |h.kitchen.queue| < c.tables
    requires w.wt.pc == W_RELEASE ==> w.wt.incoming.kind in {FOODREQ, FOODREADY}
    ensures OrderQueue(c, w'.wt.queue, WaiterNotes(w.wt, w.sh.waiterMail, h.kitchen).queue)
  {
    var q, r := h.kitchen.queue, w.wt.queue;
    if w.wt.pc == W_RELEASE && w.wt.incoming.kind == FOODREQ {
      PushKeepsOrder(r, FoodRequests(q), w.wt.incoming);
      assert FoodRequests(q + [w.wt.incoming.group]) == FoodRequests(q) + [w.wt.incoming];
    } else if w.wt.pc == W_LOOP && r.len > 0 && !w.wt.busy {
      PopKeepsOrder(r, FoodRequests(q), Request(-1, -1));
      assert FoodRequests(q[1..]) == FoodRequests(q)[1..];
    } else {
      assert w'.wt.queue == r;
    }
  }

  /** The group the waiter is dealing with is the only one at its table. */
  ghost predicate SitsAlone(w: World, occupant: seq<int>) {
    && 0 <= w.wt.cur < |w.gr| == |w.sh.assignedTable|
    && 0 <= w.wt.table < |occupant| && occupant[w.wt.table] == w.wt.cur && w.sh.assignedTable[w.wt.cur] == w.wt.table
    && forall x :: 0 <= x < |w.gr| && x != w.wt.cur ==> w.sh.assignedTable[x] != w.wt.table
  }

  lemma CurrentSitsAlone(c: Config, w: World, h: Hist)
    requires TablesHeld(c, w.rc, w.sh.assignedTable, h.desk) && Meals(w.gr, w.sh.assignedTable, h.desk.occupant, w.wt, w.sems, h.kitchen)
    requires w.wt.pc == W_INFORM_ACK || w.wt.pc == W_TAKE_FOOD
    ensures SitsAlone(w, h.desk.occupant)
  {
    assert h.desk.occupant[w.wt.table] == w.wt.cur;
  }

  lemma AckKept(c: Config, w: World, w': World, h: Hist)
    requires Steps(c, w, w') && w.wt.pc == W_INFORM_ACK && SitsAlone(w, h.desk.occupant)
    requires Meals(w.gr, w.sh.assignedTable, h.desk.occupant, w.wt, w.sems, h.kitchen)
    requires w.wt.cur !in h.kitchen.acked && w.gr[w.wt.cur].pc <= G_AWAIT_ACK
    ensures Meals(w'.gr, w'.sh.assignedTable, h.desk.occupant, w'.wt, w'.sems, WaiterNotes(w.wt, w.sh.waiterMail, h.kitchen))
  {
    var g, k' := w.wt.cur, WaiterNotes(w.wt, w.sh.waiterMail, h.kitchen);
    assert forall x :: x in k'.acked <==> x in h.kitchen.acked || x == g;
    forall x | 0 <= x < |w.gr|
      ensures MealToken(w.gr[x].pc, x, w.sh.assignedTable[x], w'.sems, k')
    {
      assert MealToken(w.gr[x].pc, x, w.sh.assignedTable[x], w.sems, h.kitchen);
    }
  }

  lemma FoodKept(c: Config, w: World, w': World, h: Hist)
    requires Steps(c, w, w') && w.wt.pc == W_TAKE_FOOD && SitsAlone(w, h.desk.occupant)
    requires Meals(w.gr, w.sh.assignedTable, h.desk.occupant, w.wt, w.sems, h.kitchen)
    requires w.wt.cur !in h.kitchen.delivered && w.gr[w.wt.cur].pc <= G_AWAIT_FOOD
    ensures Meals(w'.gr, w'.sh.assignedTable, h.desk.occupant, w'.wt, w'.sems, WaiterNotes(w.wt, w.sh.waiterMail, h.kitchen))
  {
    var g, k' := w.wt.cur, WaiterNotes(w.wt, w.sh.waiterMail, h.kitchen);
    assert forall x :: x in k'.delivered <==> x in h.kitchen.delivered || x == g;
    forall x | 0 <= x < |w.gr|
      ensures MealToken(w.gr[x].pc, x, w.sh.assignedTable[x], w'.sems, k')
    {
      assert MealToken(w.gr[x].pc, x, w.sh.assignedTable[x], w.sems, h.kitchen);
    }
  }

  lemma OtherMealsKept(c: Config, w: World, w': World, h: Hist)
    requires Steps(c, w, w') && w.wt.pc != W_INFORM_ACK && w.wt.pc != W_TAKE_FOOD
    requires Meals(w.gr, w.sh.assignedTable, h.desk.occupant, w.wt, w.sems, h.kitchen)
    requires w.wt.pc == W_INFORM_TABLE || w.wt.pc == W_TAKE_TABLE ==>
               0 <= w.wt.cur < |w.gr| && w.sh.assignedTable[w.wt.cur] >= 0
    ensures Meals(w'.gr, w'.sh.assignedTable, h.desk.occupant, w'.wt, w'.sems, WaiterNotes(w.wt, w.sh.waiterMail, h.kitchen))
  {
    var k' := WaiterNotes(w.wt, w.sh.waiterMail, h.kitchen);
    assert k'.acked == h.kitchen.acked && k'.delivered == h.kitchen.delivered;
    forall x | 0 <= x < |w.gr|
      ensures MealToken(w.gr[x].pc, x, w.sh.assignedTable[x], w'.sems, k')
    {
      assert MealToken(w.gr[x].pc, x, w.sh.assignedTable[x], w.sems, h.kitchen);
    }
  }

  // Putting the pieces together

  /** What the waiter relies on at each location, from the other processes' invariants. */
  ghost predicate Relies(c: Config, w: World, h: Hist) {
    && w.wt.queue.len == |h.kitchen.queue|
    && FrontIsOrder(w.wt)
    && (h.kitchen.queue != [] ==> Front(w.wt.queue, Request(-1, -1)).group == h.kitchen.queue[0])
    && (w.wt.pc == W_READ ==> w.sh.waiterMail.kind in {FOODREQ, FOODREADY})
    && (w.wt.pc == W_READ && w.sh.waiterMail.kind == FOODREADY ==> h.kitchen.stage == Prepared)
    && (w.wt.pc == W_RELEASE && w.wt.incoming.kind == FOODREQ ==> |h.kitchen.queue| < c.tables)
    && (W_INFORM_ORDER <= w.wt.pc <= W_INFORM_ACK ==>
          && 0 <= w.wt.cur < |w.gr| && w.wt.cur !in h.kitchen.acked && w.gr[w.wt.cur].pc <= G_AWAIT_ACK
          && At(w.sh.assignedTable, w.wt.cur, -1) >= 0)
    && (W_TAKE_LOCK <= w.wt.pc <= W_TAKE_FOOD ==>
          && 0 <= w.wt.cur < |w.gr| && w.wt.cur !in h.kitchen.delivered && w.gr[w.wt.cur].pc <= G_AWAIT_FOOD
          && At(w.sh.assignedTable, w.wt.cur, -1) >= 0)
  }

  lemma QueueFront(c: Config, w: World, h: Hist)
    requires OrderQueue(c, w.wt.queue, h.kitchen.queue)
    ensures w.wt.queue.len == |h.kitchen.queue| && FrontIsOrder(w.wt)
    ensures h.kitchen.queue != [] ==> Front(w.wt.queue, Request(-1, -1)).group == h.kitchen.queue[0]
  {
    if h.kitchen.queue != [] {
      PopKeepsOrder(w.wt.queue, FoodRequests(h.kitchen.queue), Request(-1, -1));
    }
  }

  lemma ReliesHolds(c: Config, w: World, h: Hist)
    requires DeskInv(c, w, h) && KitchenInv(c, w, h)
    ensures Relies(c, w, h)
  {
    QueueFront(c, w, h);
    QueueFits(c, w, h);
    if W_INFORM_ORDER <= w.wt.pc <= W_INFORM_ACK || W_TAKE_LOCK <= w.wt.pc <= W_TAKE_FOOD {
      CurrentWaits(c, w, h);
      Sits(c, w, w.wt.cur, h);
    }
  }

  lemma OrderKept(c: Config, w: World, w': World, h: Hist)
    requires KitchenInv(c, w, h) && Relies(c, w, h) && Steps(c, w, w')
    requires w.wt.pc == W_INFORM_AWAIT ==> w.sems.orderReceived > 0
    ensures var h' := WaiterNote(w, h);
            && WaiterMail(w'.sems, w'.gr, w'.wt.pc, w'.ch.pc, w'.sh.waiterMail, h'.waiterMail, h'.kitchen.foodReqs)
            && OrderStage(w'.wt, w'.ch.pc, w'.sems, h'.waiterMail.turn, w'.sh.waiterMail, h'.kitchen)
            && BusyFlag(w'.wt, w'.sh.foodOrder, h'.kitchen)
            && OrderLists(w'.wt, h'.kitchen)
            && OrderProgress(w'.wt.pc, h'.kitchen)
            && OrderNames(w'.wt, w'.ch, w'.sh.foodGroup, w'.sh.waiterMail, h'.kitchen)
            && KitchenCounts(c, w'.wt, w'.ch, h'.kitchen)
            && OrderQueue(c, w'.wt.queue, h'.kitchen.queue)
  {
    MailKept(c, w, w', h);
    StageKept(c, w, w', h);
    BusyKept(c, w, w', h);
    ListsKept(c, w, w', h);
    ProgressKept(c, w, w', h);
    NamesKept(c, w, w', h);
    CountsKept(c, w, w', h);
    QueueKept(c, w, w', h);
  }

  lemma MealsKept(c: Config, w: World, w': World, h: Hist)
    requires Relies(c, w, h) && Steps(c, w, w')
    requires TablesHeld(c, w.rc, w.sh.assignedTable, h.desk)
    requires Meals(w.gr, w.sh.assignedTable, h.desk.occupant, w.wt, w.sems, h.kitchen)
    ensures Meals(w'.gr, w'.sh.assignedTable, h.desk.occupant, w'.wt, w'.sems, WaiterNotes(w.wt, w.sh.waiterMail, h.kitchen))
  {
    if w.wt.pc == W_INFORM_ACK {
      CurrentSitsAlone(c, w, h);
      AckKept(c, w, w', h);
    } else if w.wt.pc == W_TAKE_FOOD {
      CurrentSitsAlone(c, w, h);
      FoodKept(c, w, w', h);
    } else {
      OtherMealsKept(c, w, w', h);
    }
  }

  lemma Kept(c: Config, w: World, h: Hist)
    requires Inv(c, w, h) && Enabled(w, Waiter)
    ensures Inv(c, WaiterNext(c, w), WaiterNote(w, h))
  {
    var w' := WaiterNext(c, w);
    NextSteps(c, w);
    MutexKept(c, w, h);
    ReliesHolds(c, w, h);
    OrderKept(c, w, w', h);
    MealsKept(c, w, w', h);
  }
}
