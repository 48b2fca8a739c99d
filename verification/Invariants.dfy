/** What every reachable state of the restaurant satisfies, one predicate per concern. */
module Invariants {
  import opened Rings
  import opened Tables
  import opened Restaurant
  import opened History

  ghost predicate NoRepeats(s: seq<int>) {
    forall i, j :: 0 <= i < j < |s| ==> s[i] != s[j]
  }

  ghost predicate Ids(s: seq<int>, n: nat) {
    forall i :: 0 <= i < |s| ==> 0 <= s[i] < n
  }

  ghost predicate Shape(c: Config, w: World) {
    && c.Valid()
    && |w.gr| == |w.sh.groupStat| == |w.sh.assignedTable| == |w.sems.waitForTable| == c.groups
    && |w.sems.requestReceived| == |w.sems.foodArrived| == |w.sems.tableDone| == c.tables
    && (forall g :: 0 <= g < |w.gr| ==> 0 <= w.gr[g].pc <= G_DONE)
    && 0 <= w.rc.pc <= R_STUCK && 0 <= w.wt.pc <= W_STUCK && 0 <= w.ch.pc <= C_DONE
  }

  /** One token fewer at index i. */
  function Take(s: seq<nat>, i: int): seq<nat> {
    if 0 <= i < |s| && s[i] > 0 then s[i := s[i] - 1] else s
  }

  /** One token more at index i. */
  function Give(s: seq<nat>, i: int): seq<nat> {
    if 0 <= i < |s| then s[i := s[i] + 1] else s
  }

  // Mutual exclusion

  predicate GroupInside(pc: int) {
    pc in {G_DESK_STAT, G_DESK_UNLOCK, G_ORDER_STAT, G_ORDER_UNLOCK, G_WAIT_STAT, G_WAIT_UNLOCK,
           G_EAT_STAT, G_EAT_UNLOCK, G_PAY_STAT, G_PAY_UNLOCK, G_LEAVE_STAT, G_LEAVE_UNLOCK}
  }

  predicate ReceptionistInside(pc: int) {
    pc in {R_WAIT_STAT, R_WAIT_UNLOCK, R_ASSIGN_STAT, R_ASSIGN_UNLOCK, R_PAY_STAT, R_PAY_UNLOCK, R_STUCK}
  }

  predicate WaiterInside(pc: int) {
    pc in {W_WAIT_STAT, W_WAIT_UNLOCK, W_STUCK} || W_INFORM_GROUP <= pc <= W_INFORM_UNLOCK
    || W_TAKE_STAT <= pc <= W_TAKE_UNLOCK
  }

  predicate ChefInside(pc: int) {
    pc in {C_WAIT_STAT, C_WAIT_UNLOCK, C_COOK_STAT, C_COOK_UNLOCK, C_REST_STAT, C_REST_UNLOCK}
  }

  /** The process is between its semDown(mutex) and its semUp(mutex). */
  predicate Inside(w: World, p: Proc) {
    match p
    case Group(g) => g < |w.gr| && GroupInside(w.gr[g].pc)
    case Receptionist => ReceptionistInside(w.rc.pc)
    case Waiter => WaiterInside(w.wt.pc)
    case Chef => ChefInside(w.ch.pc)
  }

  ghost predicate MutexInv(w: World, holder: Option<Proc>) {
    && w.sems.mutex == (if holder.None? then 1 else 0)
    && (forall p :: Inside(w, p) <==> holder == Some(p))
  }

  // The receptionist's mailbox

  /** A request has been written and not yet read. */
  predicate Pending(turn: Turn) {
    turn.Written? || turn.Full? || turn.Taken?
  }

  ghost predicate DeskGroup(pc: int, g: nat, mail: Request, m: MailLog, d: DeskLog) {
    var asked := Pending(m.turn) && mail == Request(TABLEREQ, g);
    var billed := Pending(m.turn) && mail == Request(BILLREQ, g);
    && (pc in {G_ASK_WRITE, G_BILL_WRITE} <==> m.turn == Writing(Group(g)))
    && (pc in {G_ASK_POST, G_BILL_POST} <==> m.turn == Written(Group(g)))
    && (pc == G_ASK_POST ==> asked)
    && (pc == G_BILL_POST ==> billed)
    && (pc <= G_ASK_WRITE ==> g !in d.tableReqs && !asked)
    && (pc > G_ASK_WRITE ==> (g in d.tableReqs <==> !asked))
    && (pc <= G_BILL_WRITE ==> g !in d.billReqs && !billed)
    && (pc > G_BILL_WRITE ==> (g in d.billReqs <==> !billed))
  }

  ghost predicate DeskMail(v: Sems, gr: seq<GroupState>, rcPc: int, mail: Request, m: MailLog, d: DeskLog) {
    && v.deskPossible == (if m.turn.Free? then 1 else 0)
    && v.deskReq == (if m.turn.Full? then 1 else 0)
    && (m.turn.Taken? <==> rcPc == R_READ)
    && (m.turn.Read? <==> rcPc == R_RELEASE)
    && (m.turn.Writing? || m.turn.Written? ==> m.turn.p.Group? && m.turn.p.id < |gr|)
    && (Pending(m.turn) ==> mail.kind in {TABLEREQ, BILLREQ} && 0 <= mail.group < |gr|)
    && m.sent == m.read + (if Pending(m.turn) then [mail] else [])
    && (forall g :: 0 <= g < |gr| ==> DeskGroup(gr[g].pc, g, mail, m, d))
    && NoRepeats(d.tableReqs) && Ids(d.tableReqs, |gr|)
    && NoRepeats(d.billReqs) && Ids(d.billReqs, |gr|)
  }

  // The receptionist's counts, queue and tables

  /** A table request is in the receptionist's hands, read but not yet decided on. */
  predicate Fresh(rc: ReceptionistState) {
    rc.req.kind == TABLEREQ && (rc.pc == R_RELEASE || R_ASSIGN_LOCK <= rc.pc <= R_DECIDE)
  }

  /** A group taken off the waiting list is in the receptionist's hands. */
  predicate Recalled(rc: ReceptionistState) {
    rc.req.kind == BILLREQ && R_ASSIGN_LOCK <= rc.pc <= R_DECIDE
  }

  /** A bill is in the receptionist's hands, read but not yet processed. */
  predicate Paying(rc: ReceptionistState) {
    rc.req.kind == BILLREQ && (rc.pc == R_RELEASE || R_PAY_LOCK <= rc.pc <= R_PAY_FREE)
  }

  /** A payment has freed a table that the waiting list has not been offered yet. */
  predicate Vacated(rc: ReceptionistState) {
    Recalled(rc) || rc.pc == R_PAY_SIGNAL || rc.pc == R_PAY_NEXT
  }

  ghost predicate DeskCounts(c: Config, rc: ReceptionistState, readCount: nat, d: DeskLog) {
    && rc.nReq == |d.tableReqs| + |d.billReqs| - (if R_RELEASE <= rc.pc <= R_PAY_NEXT then 1 else 0)
    && readCount == |d.tableReqs| + |d.billReqs|
    && (R_HEAD < rc.pc < R_DONE ==> rc.nReq < 2 * c.groups)
    && (rc.pc == R_DONE ==> rc.nReq >= 2 * c.groups)
  }

  ghost predicate DeskHands(c: Config, rc: ReceptionistState) {
    && rc.pc <= R_DONE
    && (R_RELEASE <= rc.pc <= R_PAY_NEXT ==> rc.req.kind in {TABLEREQ, BILLREQ} && 0 <= rc.req.group < c.groups)
    && (R_PAY_LOCK <= rc.pc <= R_PAY_NEXT ==> rc.req.kind == BILLREQ)
    && (R_ASSIGN_LOCK <= rc.pc <= R_SEAT ==> 0 <= rc.arg < c.groups)
    && (Fresh(rc) || Paying(rc) ==> rc.pc == R_RELEASE || rc.arg == rc.req.group)
  }

  ghost predicate Fifo(c: Config, rc: ReceptionistState, d: DeskLog) {
    && d.tableReqs == (if Fresh(rc) then d.seated + d.waitlist + [rc.req.group]
                       else if Recalled(rc) then d.seated + [rc.arg] + d.waitlist
                       else d.seated + d.waitlist)
    && d.billReqs == d.paid + (if Paying(rc) then [rc.req.group] else [])
    && |d.paidAt| == |d.paid|
    && |d.seated| == |d.paid| + rc.board.count
    && Consistent(rc.board) && |rc.board.occupied| == c.tables
    && (d.waitlist != [] ==> rc.board.count == c.tables - (if Vacated(rc) then 1 else 0))
    && (Vacated(rc) ==> rc.board.count < c.tables && 0 <= rc.table < c.tables && !rc.board.occupied[rc.table])
    && (Recalled(rc) ==> rc.board.count == c.tables - 1)
  }

  /** The circular waiting list stores the waiting groups in order. */
  ghost predicate WaitingRing(c: Config, waiting: Ring<int>, waitlist: seq<int>) {
    |waiting.slots| == c.WaitSlots() && Holds(waiting, waitlist)
  }

  /** Slots are used once each: the write cursor counts the groups ever enqueued. */
  ghost predicate WaitingBound(c: Config, rc: ReceptionistState, d: DeskLog) {
    && rc.waiting.write == |d.enqueued|
    && |d.waitlist| <= |d.enqueued|
    && d.waitlist == d.enqueued[|d.enqueued| - |d.waitlist|..]
    && (d.enqueued != [] ==> |d.enqueued| + c.tables + (if Fresh(rc) then 1 else 0) <= |d.tableReqs|)
    && |d.tableReqs| <= c.groups
  }

  ghost predicate TablesHeld(c: Config, rc: ReceptionistState, assignedTable: seq<int>, d: DeskLog) {
    && |d.occupant| == |rc.board.occupied| == c.tables
    && (forall t :: 0 <= t < c.tables ==>
          -1 <= d.occupant[t] < |assignedTable| && (rc.board.occupied[t] <==> d.occupant[t] >= 0))
    && (forall g :: 0 <= g < |assignedTable| ==>
          -1 <= assignedTable[g] < c.tables && (assignedTable[g] >= 0 <==> g in d.seated && g !in d.paid))
    && (forall g, t :: 0 <= g < |assignedTable| && 0 <= t < c.tables ==>
          (assignedTable[g] == t <==> d.occupant[t] == g))
    && (rc.pc == R_PAY_FREE ==> 0 <= rc.arg < |assignedTable| && rc.table == assignedTable[rc.arg] >= 0)
    && (rc.pc == R_PAY_SIGNAL ==> 0 <= rc.table < c.tables)
  }

  /** A group has a pending waitForTable token exactly between being seated and going on. */
  ghost predicate TableToken(pc: int, g: int, token: nat, rc: ReceptionistState, seated: seq<int>) {
    var calling := rc.pc == R_SEAT && rc.arg == g;
    && (pc > G_AWAIT_TABLE ==> g in seated && !calling)
    && (calling ==> pc == G_AWAIT_TABLE && g in seated)
    && token == (if pc == G_AWAIT_TABLE && g in seated && !calling then 1 else 0)
  }

  ghost predicate TableTokens(gr: seq<GroupState>, tokens: seq<nat>, rc: ReceptionistState, seated: seq<int>) {
    |tokens| == |gr| && forall g :: 0 <= g < |gr| ==> TableToken(gr[g].pc, g, tokens[g], rc, seated)
  }

  /** The table a group remembers is the one it was given. */
  ghost predicate Remembers(me: GroupState, g: int, table: int, tables: nat, paid: seq<int>) {
    && (me.pc in {G_AWAIT_ACK, G_AWAIT_FOOD} || (me.pc > G_PAY_TABLE && g !in paid) ==> me.table == table)
    && (me.pc > G_PAY_TABLE ==> 0 <= me.table < tables)
  }

  ghost predicate TablesRemembered(gr: seq<GroupState>, assignedTable: seq<int>, tables: nat, paid: seq<int>) {
    |assignedTable| == |gr| && forall g :: 0 <= g < |gr| ==> Remembers(gr[g], g, assignedTable[g], tables, paid)
  }

  // Payments

  /** The groups that took a tableDone token at table t. */
  ghost function LeftFrom(gr: seq<GroupState>, t: int): set<int> {
    set g | 0 <= g < |gr| && gr[g].pc > G_AWAIT_DONE && gr[g].table == t
  }

  ghost predicate Payments(gr: seq<GroupState>, tokens: seq<nat>, rc: ReceptionistState, paidAt: seq<int>) {
    forall t :: 0 <= t < |tokens| ==>
      tokens[t] + |LeftFrom(gr, t)| + (if rc.pc == R_PAY_SIGNAL && rc.table == t then 1 else 0) == multiset(paidAt)[t]
  }

  ghost predicate PaidTables(gr: seq<GroupState>, paid: seq<int>, paidAt: seq<int>) {
    && |paid| == |paidAt|
    && forall i :: 0 <= i < |paid| ==> 0 <= paid[i] < |gr| && gr[paid[i]].pc >= G_AWAIT_DONE && gr[paid[i]].table == paidAt[i]
  }

  // The waiter's mailbox

  ghost predicate FoodGroup(pc: int, g: nat, mail: Request, m: MailLog, foodReqs: seq<int>) {
    var ordered := Pending(m.turn) && mail == Request(FOODREQ, g);
    && (pc == G_FOOD_WRITE <==> m.turn == Writing(Group(g)))
    && (pc == G_FOOD_POST <==> m.turn == Written(Group(g)))
    && (pc == G_FOOD_POST ==> ordered)
    && (pc <= G_FOOD_WRITE ==> g !in foodReqs && !ordered)
    && (pc > G_FOOD_WRITE ==> (g in foodReqs <==> !ordered))
  }

  ghost predicate WaiterMail(v: Sems, gr: seq<GroupState>, wtPc: int, chPc: int, mail: Request, m: MailLog, foodReqs: seq<int>) {
    && v.waiterPossible == (if m.turn.Free? then 1 else 0)
    && v.waiterReq == (if m.turn.Full? then 1 else 0)
    && (m.turn.Taken? <==> wtPc == W_READ)
    && (m.turn.Read? <==> wtPc == W_RELEASE)
    && (chPc == C_READY_WRITE <==> m.turn == Writing(Chef))
    && (chPc == C_READY_POST <==> m.turn == Written(Chef))
    && (chPc == C_READY_POST ==> mail.kind == FOODREADY)
    && (m.turn.Writing? || m.turn.Written? ==> m.turn.p.Chef? || (m.turn.p.Group? && m.turn.p.id < |gr|))
    && (Pending(m.turn) ==> mail.kind == FOODREADY || (mail.kind == FOODREQ && 0 <= mail.group < |gr|))
    && m.sent == m.read + (if Pending(m.turn) then [mail] else [])
    && (forall g :: 0 <= g < |gr| ==> FoodGroup(gr[g].pc, g, mail, m, foodReqs))
    && NoRepeats(foodReqs) && Ids(foodReqs, |gr|)
  }

  // The outstanding order

  ghost predicate OrderStage(wt: WaiterState, chPc: int, v: Sems, turn: Turn, mail: Request, k: KitchenLog) {
    && wt.pc <= W_DONE
    && (k.stage == Telling <==> W_INFORM_ORDER <= wt.pc <= W_INFORM_POST)
    && v.waitOrder == (if k.stage == Posted then 1 else 0)
    && (k.stage == Reading <==> chPc == C_READ)
    && (k.stage == Noted <==> chPc == C_ACK)
    && (k.stage == Cooking <==> C_COOK_LOCK <= chPc <= C_READY_POST)
    && (k.stage == Prepared <==> (turn.Full? || turn.Taken?) && mail.kind == FOODREADY)
    && (k.stage == Returned <==> wt.pc == W_RELEASE && wt.incoming.kind == FOODREADY)
    && (k.stage == Carrying <==> W_TAKE_LOCK <= wt.pc <= W_TAKE_FOOD)
    && (wt.pc == W_INFORM_AWAIT ==> k.stage in {Posted, Reading, Noted, Cooking, Prepared})
    && (k.stage in {Posted, Reading, Noted} ==> wt.pc == W_INFORM_AWAIT)
    && (wt.pc in {W_INFORM_TABLE, W_INFORM_ACK} ==> k.stage in {Cooking, Prepared})
    && (wt.pc in {W_INFORM_LOCK, W_INFORM_GROUP} ==> k.stage == Idle)
    && v.orderReceived == (if wt.pc == W_INFORM_AWAIT && k.stage in {Cooking, Prepared} then 1 else 0)
  }

  ghost predicate BusyFlag(wt: WaiterState, foodOrder: bool, k: KitchenLog) {
    && foodOrder == (k.stage != Idle && wt.pc != W_INFORM_ORDER && wt.pc != W_TAKE_FOOD)
    && (W_LOOP <= wt.pc <= W_RELEASE ==> wt.busy == foodOrder)
    && (W_LOOP < wt.pc <= W_RELEASE && !wt.busy ==> k.queue == [])
  }

  /** The waiter holds an order that it has taken off its queue and not yet told the chef. */
  predicate Announcing(wt: WaiterState) {
    W_INFORM_LOCK <= wt.pc <= W_INFORM_GROUP
  }

  /** Food requests read = handed to the chef, being announced, queued, just read. */
  ghost predicate OrderLists(wt: WaiterState, k: KitchenLog) {
    && k.foodReqs == k.informed + (if Announcing(wt) then [wt.cur] else []) + k.queue
                     + (if wt.pc == W_RELEASE && wt.incoming.kind == FOODREQ then [wt.incoming.group] else [])
    && (wt.pc == W_RELEASE ==> wt.incoming.kind in {FOODREQ, FOODREADY})
  }

  /** Orders are cooked, acknowledged and delivered in the order in which the chef was told. */
  ghost predicate OrderProgress(wtPc: int, k: KitchenLog) {
    && |k.informed| == |k.delivered| + (if k.stage == Idle then 0 else 1)
    && k.delivered <= k.informed
    && |k.informed| == |k.acked| + (if W_INFORM_ORDER <= wtPc <= W_INFORM_ACK then 1 else 0)
    && k.acked <= k.informed
    && |k.informed| == |k.cooked| + (if k.stage in {Telling, Posted, Reading} then 1 else 0)
    && k.cooked <= k.informed
  }

  /** Everyone who handles the outstanding order knows whose it is. */
  ghost predicate OrderNames(wt: WaiterState, ch: ChefState, foodGroup: int, mail: Request, k: KitchenLog) {
    && (k.informed != [] ==> foodGroup == k.informed[|k.informed| - 1])
    && (W_INFORM_ORDER <= wt.pc <= W_INFORM_ACK || k.stage == Carrying ==> wt.cur == foodGroup)
    && (k.stage == Noted || C_COOK_LOCK <= ch.pc <= C_READY_WRITE ==> ch.lastGroup == foodGroup)
    && (ch.pc == C_READY_POST || k.stage == Prepared ==> mail.group == foodGroup)
    && (k.stage == Returned ==> wt.incoming.group == foodGroup)
  }

  ghost predicate KitchenCounts(c: Config, wt: WaiterState, ch: ChefState, k: KitchenLog) {
    && wt.nReq == |k.informed| + |k.delivered| - (if W_INFORM_ORDER <= wt.pc <= W_INFORM_ACK then 1 else 0)
    && ch.nOrders == |k.cooked| - (if C_ACK <= ch.pc <= C_READY_POST then 1 else 0)
    && (W_HEAD < wt.pc < W_DONE ==> wt.nReq < 2 * c.groups)
    && (wt.pc == W_DONE ==> wt.nReq >= 2 * c.groups)
    && (C_HEAD < ch.pc < C_DONE ==> ch.nOrders < c.groups)
    && (ch.pc == C_DONE ==> ch.nOrders >= c.groups)
  }

  ghost function FoodRequests(s: seq<int>): seq<Request> {
    seq(|s|, i requires 0 <= i < |s| => Request(FOODREQ, s[i]))
  }

  ghost predicate OrderQueue(c: Config, queue: Ring<Request>, groups: seq<int>) {
    && |queue.slots| == c.tables
    && Holds(queue, FoodRequests(groups))
  }

  // Acknowledgements and meals

  ghost predicate MealToken(pc: int, g: int, table: int, v: Sems, k: KitchenLog) {
    && (pc > G_AWAIT_ACK ==> g in k.acked)
    && (pc > G_AWAIT_FOOD ==> g in k.delivered)
    && (0 <= table < |v.requestReceived| ==>
          v.requestReceived[table] == (if g in k.acked && pc <= G_AWAIT_ACK then 1 else 0))
    && (0 <= table < |v.foodArrived| ==>
          v.foodArrived[table] == (if g in k.delivered && pc <= G_AWAIT_FOOD then 1 else 0))
  }

  ghost predicate Meals(gr: seq<GroupState>, assignedTable: seq<int>, occupant: seq<int>, wt: WaiterState, v: Sems, k: KitchenLog) {
    && |assignedTable| == |gr|
    && |occupant| == |v.requestReceived| == |v.foodArrived|
    && (forall g :: 0 <= g < |gr| ==> MealToken(gr[g].pc, g, assignedTable[g], v, k))
    && (forall t :: 0 <= t < |occupant| && occupant[t] < 0 ==> v.requestReceived[t] == 0 && v.foodArrived[t] == 0)
    && (wt.pc == W_INFORM_ACK || W_TAKE_UNLOCK <= wt.pc <= W_TAKE_FOOD ==>
          0 <= wt.cur < |assignedTable| && wt.table == assignedTable[wt.cur] >= 0)
  }

  // Published states

  function StatAt(pc: int): GroupStat {
    if pc <= G_DESK_STAT then GOTOREST else if pc <= G_ORDER_STAT then ATRECEPTION
    else if pc <= G_WAIT_STAT then FOOD_REQUEST else if pc <= G_EAT_STAT then WAIT_FOR_FOOD
    else if pc <= G_PAY_STAT then EAT else if pc <= G_LEAVE_STAT then CHECKOUT else LEAVING
  }

  ghost predicate Stats(gr: seq<GroupState>, stats: seq<GroupStat>) {
    |stats| == |gr| && forall g :: 0 <= g < |gr| ==> stats[g] == StatAt(gr[g].pc)
  }

  /** The receptionist's books: only the receptionist writes them. */
  ghost predicate DeskBooks(c: Config, rc: ReceptionistState, assignedTable: seq<int>, readCount: nat, d: DeskLog) {
    && DeskCounts(c, rc, readCount, d)
    && DeskHands(c, rc)
    && Fifo(c, rc, d)
    && WaitingRing(c, rc.waiting, d.waitlist)
    && WaitingBound(c, rc, d)
    && TablesHeld(c, rc, assignedTable, d)
  }

  /** The receptionist's side of the house. */
  ghost predicate DeskInv(c: Config, w: World, h: Hist) {
    && Shape(c, w)
    && DeskMail(w.sems, w.gr, w.rc.pc, w.sh.deskMail, h.deskMail, h.desk)
    && DeskBooks(c, w.rc, w.sh.assignedTable, |h.deskMail.read|, h.desk)
    && TableTokens(w.gr, w.sems.waitForTable, w.rc, h.desk.seated)
    && TablesRemembered(w.gr, w.sh.assignedTable, c.tables, h.desk.paid)
    && Payments(w.gr, w.sems.tableDone, w.rc, h.desk.paidAt)
    && PaidTables(w.gr, h.desk.paid, h.desk.paidAt)
  }

  /** The waiter's and the chef's side. */
  ghost predicate KitchenInv(c: Config, w: World, h: Hist) {
    && WaiterMail(w.sems, w.gr, w.wt.pc, w.ch.pc, w.sh.waiterMail, h.waiterMail, h.kitchen.foodReqs)
    && OrderStage(w.wt, w.ch.pc, w.sems, h.waiterMail.turn, w.sh.waiterMail, h.kitchen)
    && BusyFlag(w.wt, w.sh.foodOrder, h.kitchen)
    && OrderLists(w.wt, h.kitchen)
    && OrderProgress(w.wt.pc, h.kitchen)
    && OrderNames(w.wt, w.ch, w.sh.foodGroup, w.sh.waiterMail, h.kitchen)
    && KitchenCounts(c, w.wt, w.ch, h.kitchen)
    && OrderQueue(c, w.wt.queue, h.kitchen.queue)
    && Meals(w.gr, w.sh.assignedTable, h.desk.occupant, w.wt, w.sems, h.kitchen)
  }

  ghost predicate Inv(c: Config, w: World, h: Hist) {
    MutexInv(w, h.holder) && DeskInv(c, w, h) && KitchenInv(c, w, h) && Stats(w.gr, w.sh.groupStat)
  }
}
