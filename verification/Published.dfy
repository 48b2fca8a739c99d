/** The states that the processes publish in shared memory, and what an observer may
    conclude from them. */
module Published {
  import opened Rings
  import opened Tables
  import opened Restaurant
  import opened History
  import opened Invariants
  import opened Seating
  import opened Kitchen
  import opened Reachable
  import KeptByReceptionist
  import KeptByWaiter

  /** Between two requests the receptionist shows the last thing it did: assign a table, also one
      handed over after a payment, or receive a payment. */
  function ReceptionistStatAt(rc: ReceptionistState): ReceptionistStat {
    if R_WAIT_UNLOCK <= rc.pc <= R_RELEASE || R_PAY_LOCK <= rc.pc <= R_PAY_STAT then WAITING
    else if R_ASSIGN_LOCK <= rc.pc <= R_ASSIGN_STAT then if rc.req.kind == TABLEREQ then WAITING else RECVPAY
    else if R_ASSIGN_UNLOCK <= rc.pc <= R_SEAT then ASSIGNTABLE
    else if R_PAY_UNLOCK <= rc.pc <= R_PAY_NEXT then RECVPAY
    else if rc.nReq == 0 then WAITING
    else if rc.req.kind == BILLREQ && rc.arg == rc.req.group then RECVPAY
    else ASSIGNTABLE
  }

  ghost predicate ReceptionistShows(rc: ReceptionistState, stat: ReceptionistStat, paid: seq<int>) {
    && 0 <= rc.nReq && stat == ReceptionistStatAt(rc)
    && (R_PAY_LOCK <= rc.pc <= R_PAY_NEXT ==> rc.arg == rc.req.group)
    && (R_PAY_SIGNAL <= rc.pc <= R_PAY_NEXT ==> rc.arg in paid)
    && (R_ASSIGN_LOCK <= rc.pc <= R_SEAT && rc.req.kind == BILLREQ ==> rc.arg != rc.req.group && paid != [])
  }

  /** What the waiter shows after an errand. */
  function WaiterStatAfter(k: KitchenLog): WaiterStat {
    if k.informed == [] then WAIT_FOR_REQUEST
    else if |k.informed| > |k.delivered| then INFORM_CHEF
    else TAKE_TO_TABLE
  }

  /** The waiter shows WAIT_FOR_REQUEST only before it waits for a message, and not if an
      order in its queue can go first. */
  ghost predicate WaiterShows(pc: int, stat: WaiterStat, k: KitchenLog) {
    && (pc in {W_HEAD, W_BUSY, W_DONE} ==> stat == WaiterStatAfter(k))
    && (pc in {W_LOOP, W_INFORM_LOCK, W_INFORM_GROUP} ==> stat in {WAIT_FOR_REQUEST, WaiterStatAfter(k)})
    && (W_WAIT_LOCK <= pc <= W_WAIT_STAT ==> stat == WaiterStatAfter(k) != WAIT_FOR_REQUEST)
    && (W_WAIT_UNLOCK <= pc <= W_RELEASE || W_TAKE_LOCK <= pc <= W_TAKE_STAT ==> stat == WAIT_FOR_REQUEST)
    && (W_INFORM_ORDER <= pc <= W_INFORM_STAT ==>
          stat in {WAIT_FOR_REQUEST, if |k.informed| > 1 then TAKE_TO_TABLE else WAIT_FOR_REQUEST})
    && (W_INFORM_UNLOCK <= pc <= W_INFORM_ACK ==> stat == INFORM_CHEF)
    && (W_TAKE_TABLE <= pc <= W_TAKE_FOOD ==> stat == TAKE_TO_TABLE)
  }

  function ChefStatAt(pc: int, nOrders: int): ChefStat {
    if C_COOK_UNLOCK <= pc <= C_REST_STAT then COOK
    else if C_REST_UNLOCK <= pc <= C_READY_POST then REST
    else if (pc <= C_WAIT_STAT || pc == C_DONE) && nOrders > 0 then REST
    else WAIT_FOR_ORDER
  }

  /** lastGroup is invalid whenever the chef has no order. */
  predicate ChefShows(ch: ChefState, stat: ChefStat) {
    && 0 <= ch.nOrders && stat == ChefStatAt(ch.pc, ch.nOrders)
    && (C_AWAIT <= ch.pc <= C_READ ==> ch.lastGroup == -1)
    && (ch.pc == C_READY_POST || ((ch.pc <= C_WAIT_UNLOCK || ch.pc == C_DONE) && ch.nOrders > 0) ==> ch.lastGroup == 0xFFFF)
  }

  ghost predicate StaffShows(w: World, h: Hist) {
    && ReceptionistShows(w.rc, w.sh.receptionistStat, h.desk.paid)
    && WaiterShows(w.wt.pc, w.sh.waiterStat, h.kitchen)
    && ChefShows(w.ch, w.sh.chefStat)
  }

  lemma ReceptionistShowsKept(c: Config, me: ReceptionistState, sh: Shared, d: DeskLog)
    requires 0 <= me.pc < R_DONE && DeskHands(c, me) && ReceptionistShows(me, sh.receptionistStat, d.paid)
    requires me.pc == R_DECIDE && me.req.kind == BILLREQ ==> Decide(me.board) > -1
    requires me.pc == R_PAY_TABLE ==> At(sh.assignedTable, me.arg, -1) >= 0
    requires me.pc == R_PAY_NEXT && me.waiting.len != 0 ==> -1 < Front(me.waiting, -1) != me.arg
    ensures ReceptionistShows(ReceptionistMove(c, me, sh), ReceptionistWrite(me, sh).receptionistStat,
                              ReceptionistNotes(me, sh.deskMail, d).paid)
  {
  }

  /** The group recalled from the waiting list is not the one that has just paid. */
  lemma RecalledIsOther(c: Config, w: World, h: Hist)
    requires DeskInv(c, w, h) && w.rc.pc == R_PAY_NEXT && w.rc.arg in h.desk.paid && h.desk.waitlist != []
    ensures h.desk.waitlist[0] != w.rc.arg
  {
    var d, g := h.desk, w.rc.arg;
    assert g in d.billReqs;
    assert DeskGroup(w.gr[g].pc, g, w.sh.deskMail, h.deskMail, d);
    assert TableToken(w.gr[g].pc, g, w.sems.waitForTable[g], w.rc, d.seated);
    assert d.tableReqs[|d.seated|] == d.waitlist[0];
    assert forall i :: 0 <= i < |d.seated| ==> d.seated[i] == d.tableReqs[i];
  }

  lemma ReceptionistStepShows(c: Config, w: World, h: Hist)
    requires DeskInv(c, w, h) && Enabled(w, Receptionist) && ReceptionistShows(w.rc, w.sh.receptionistStat, h.desk.paid)
    ensures ReceptionistShows(ReceptionistMove(c, w.rc, w.sh), ReceptionistWrite(w.rc, w.sh).receptionistStat,
                              ReceptionistNotes(w.rc, w.sh.deskMail, h.desk).paid)
  {
    KeptByReceptionist.ReliesHolds(c, w, h);
    if w.rc.pc == R_PAY_NEXT && h.desk.waitlist != [] { RecalledIsOther(c, w, h); }
    ReceptionistShowsKept(c, w.rc, w.sh, h.desk);
  }

  lemma WaiterShowsKept(c: Config, w: World, h: Hist)
    requires Enabled(w, Waiter) && 0 <= w.wt.pc && WaiterShows(w.wt.pc, w.sh.waiterStat, h.kitchen)
    requires OrderStage(w.wt, w.ch.pc, w.sems, h.waiterMail.turn, w.sh.waiterMail, h.kitchen)
    requires OrderProgress(w.wt.pc, h.kitchen)
    requires w.wt.pc == W_RELEASE ==> w.wt.incoming.kind in {FOODREQ, FOODREADY}
    requires KeptByWaiter.FrontIsOrder(w.wt)
    ensures WaiterShows(WaiterMove(c, w.wt, w.sh).pc, WaiterWrite(w.wt, w.sh).waiterStat, WaiterNotes(w.wt, w.sh.waiterMail, h.kitchen))
  {
  }

  lemma ChefShowsKept(c: Config, me: ChefState, sh: Shared)
    requires 0 <= me.pc < C_DONE && ChefShows(me, sh.chefStat) && (me.pc == C_ACK ==> me.lastGroup >= 0)
    ensures ChefShows(ChefMove(c, me, sh), ChefWrite(me, sh).chefStat)
  {
  }

  /** A group writes its own state only, and nobody else's. */
  lemma GroupsLeaveStaff(w: World, g: nat, h: Hist)
    requires Enabled(w, Group(g)) && StaffShows(w, h)
    ensures StaffShows(GroupNext(w, g), GroupNote(w, g, h))
  {
  }

  lemma ReceptionistLeavesOthers(c: Config, w: World, h: Hist)
    requires Enabled(w, Receptionist)
    ensures var w' := ReceptionistNext(c, w);
            && w'.wt == w.wt && w'.ch == w.ch && w'.sh.waiterStat == w.sh.waiterStat && w'.sh.chefStat == w.sh.chefStat
            && ReceptionistNote(w, h).kitchen == h.kitchen
  {
  }

  lemma WaiterLeavesOthers(c: Config, w: World, h: Hist)
    requires Enabled(w, Waiter)
    ensures var w' := WaiterNext(c, w);
            && w'.rc == w.rc && w'.ch == w.ch && w'.sh.chefStat == w.sh.chefStat
            && w'.sh.receptionistStat == w.sh.receptionistStat && WaiterNote(w, h).desk == h.desk
  {
  }

  lemma ChefLeavesOthers(c: Config, w: World, h: Hist)
    requires Enabled(w, Chef) && WaiterShows(w.wt.pc, w.sh.waiterStat, h.kitchen)
    ensures var w', h' := ChefNext(c, w), ChefNote(w, h);
            && w'.rc == w.rc && w'.wt == w.wt && w'.sh.waiterStat == w.sh.waiterStat
            && w'.sh.receptionistStat == w.sh.receptionistStat && h'.desk == h.desk
            && WaiterShows(w'.wt.pc, w'.sh.waiterStat, h'.kitchen)
  {
  }

  lemma StaffKept(c: Config, w: World, p: Proc, h: Hist)
    requires Inv(c, w, h) && StaffShows(w, h) && Enabled(w, p)
    ensures StaffShows(Next(c, w, p), Note(w, p, h))
  {
    match p
    case Group(g) => GroupsLeaveStaff(w, g, h);
    case Receptionist =>
      ReceptionistLeavesOthers(c, w, h);
      ReceptionistStepShows(c, w, h);
    case Waiter =>
      WaiterLeavesOthers(c, w, h);
      KeptByWaiter.QueueFront(c, w, h);
      WaiterShowsKept(c, w, h);
    case Chef =>
      ChefLeavesOthers(c, w, h);
      ChefHasGroup(w, h, |w.gr|);
      ChefShowsKept(c, w.ch, w.sh);
  }

  lemma {:induction false} StaffAlwaysShows(c: Config, run: seq<Proc>)
    requires c.Valid() && Possible(c, run)
    ensures StaffShows(After(c, run).value, Log(c, run))
  {
    if run != [] {
      var before, p := run[..|run| - 1], run[|run| - 1];
      StaffAlwaysShows(c, before);
      RunKeeps(c, before);
      StaffKept(c, After(c, before).value, p, Log(c, before));
    }
  }

  /** What every process publishes tells how far it has got. */
  lemma PublishedStates(c: Config, run: seq<Proc>)
    requires c.Valid() && Possible(c, run)
    ensures var w := After(c, run).value;
            && StaffShows(w, Log(c, run))
            && |w.sh.groupStat| == |w.gr| == c.groups
            && forall g :: 0 <= g < c.groups ==> w.sh.groupStat[g] == StatAt(w.gr[g].pc)
  {
    RunKeeps(c, run);
    StaffAlwaysShows(c, run);
  }

  /** From the start, until they first have something to do, the staff publish that they wait:
      the receptionist until a request is dealt with, the waiter until an order is handed to the
      chef, the chef until an order is cooked. */
  ghost predicate StartsWaiting(w: World, h: Hist) {
    && (w.rc.nReq == 0 && w.rc.pc <= R_ASSIGN_STAT ==> w.sh.receptionistStat == WAITING)
    && (h.kitchen.informed == [] ==> w.sh.waiterStat == WAIT_FOR_REQUEST)
    && (h.kitchen.cooked == [] ==> w.sh.chefStat == WAIT_FOR_ORDER)
  }

  lemma DeskStartsWaiting(c: Config, rc: ReceptionistState, stat: ReceptionistStat, readCount: nat, d: DeskLog)
    requires 0 <= rc.pc && DeskCounts(c, rc, readCount, d) && DeskHands(c, rc) && Fifo(c, rc, d) && ReceptionistShows(rc, stat, d.paid)
    ensures rc.nReq == 0 && rc.pc <= R_ASSIGN_STAT ==> stat == WAITING
  {
  }

  lemma KitchenStartsWaiting(w: World, k: KitchenLog, turn: Turn)
    requires 0 <= w.wt.pc && 0 <= w.ch.pc <= C_DONE && OrderProgress(w.wt.pc, k)
    requires OrderStage(w.wt, w.ch.pc, w.sems, turn, w.sh.waiterMail, k)
    requires WaiterShows(w.wt.pc, w.sh.waiterStat, k) && ChefShows(w.ch, w.sh.chefStat)
    requires w.ch.nOrders == |k.cooked| - (if C_ACK <= w.ch.pc <= C_READY_POST then 1 else 0)
    ensures k.informed == [] ==> w.sh.waiterStat == WAIT_FOR_REQUEST
    ensures k.cooked == [] ==> w.sh.chefStat == WAIT_FOR_ORDER
  {
  }

  lemma StaffStartsWaiting(c: Config, run: seq<Proc>)
    requires c.Valid() && Possible(c, run)
    ensures StartsWaiting(After(c, run).value, Log(c, run))
  {
    RunKeeps(c, run);
    StaffAlwaysShows(c, run);
    var w, h := After(c, run).value, Log(c, run);
    DeskStartsWaiting(c, w.rc, w.sh.receptionistStat, |h.deskMail.read|, h.desk);
    KitchenStartsWaiting(w, h.kitchen, h.waiterMail.turn);
  }

  /** While the chef publishes COOK, the order flag is up and the group it names publishes that
      it waits for its food. */
  lemma CooksForWaitingGroup(c: Config, run: seq<Proc>)
    requires c.Valid() && Possible(c, run) && After(c, run).value.sh.chefStat == COOK
    ensures var sh := After(c, run).value.sh;
            && sh.foodOrder && |sh.groupStat| == c.groups
            && 0 <= sh.foodGroup < c.groups && sh.groupStat[sh.foodGroup] in {FOOD_REQUEST, WAIT_FOR_FOOD}
            && 0 <= At(sh.assignedTable, sh.foodGroup, -1) < c.tables
  {
    PublishedStates(c, run);
    RunKeeps(c, run);
    var w, h := After(c, run).value, Log(c, run);
    OutstandingWaits(w, h);
    Sits(c, w, w.sh.foodGroup, h);
  }

  lemma OutstandingWaits(w: World, h: Hist)
    requires OrderStage(w.wt, w.ch.pc, w.sems, h.waiterMail.turn, w.sh.waiterMail, h.kitchen)
    requires BusyFlag(w.wt, w.sh.foodOrder, h.kitchen)
    requires OrderLists(w.wt, h.kitchen) && OrderProgress(w.wt.pc, h.kitchen)
    requires OrderNames(w.wt, w.ch, w.sh.foodGroup, w.sh.waiterMail, h.kitchen)
    requires WaiterMail(w.sems, w.gr, w.wt.pc, w.ch.pc, w.sh.waiterMail, h.waiterMail, h.kitchen.foodReqs)
    requires Meals(w.gr, w.sh.assignedTable, h.desk.occupant, w.wt, w.sems, h.kitchen)
    requires h.kitchen.stage == Cooking
    ensures 0 <= w.sh.foodGroup < |w.gr| && w.sh.foodOrder
    ensures G_FOOD_WRITE < w.gr[w.sh.foodGroup].pc <= G_AWAIT_FOOD
  {
    var g := w.sh.foodGroup;
    LastIsNew(w.wt, h.kitchen);
    assert FoodGroup(w.gr[g].pc, g, w.sh.waiterMail, h.waiterMail, h.kitchen.foodReqs);
    assert MealToken(w.gr[g].pc, g, w.sh.assignedTable[g], w.sems, h.kitchen);
  }

  /** The receptionist takes payments only from groups that publish CHECKOUT or LEAVING and
      still hold a table. */
  lemma PayerChecksOut(c: Config, run: seq<Proc>)
    requires c.Valid() && Possible(c, run)
    requires R_PAY_LOCK <= After(c, run).value.rc.pc <= R_PAY_FREE
    ensures var w := After(c, run).value;
            && 0 <= w.rc.arg < c.groups == |w.sh.groupStat|
            && w.sh.groupStat[w.rc.arg] in {CHECKOUT, LEAVING}
            && 0 <= At(w.sh.assignedTable, w.rc.arg, -1) < c.tables
  {
    PublishedStates(c, run);
    RunKeeps(c, run);
    KeptByReceptionist.ReliesHolds(c, After(c, run).value, Log(c, run));
  }
}
