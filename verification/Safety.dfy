/** What holds at every moment of every run. */
module Safety {
  import opened Rings
  import opened Tables
  import opened Restaurant
  import opened History
  import opened Invariants
  import opened Seating
  import opened Kitchen
  import opened Progress
  import opened Reachable
  import KeptByReceptionist

  // Mutual exclusion and mailboxes

  lemma MutualExclusion(c: Config, run: seq<Proc>, p: Proc, q: Proc)
    requires c.Valid() && Possible(c, run)
    requires Inside(After(c, run).value, p) && Inside(After(c, run).value, q)
    ensures p == q && After(c, run).value.sems.mutex == 0
  {
    RunKeeps(c, run);
  }

  /** The groups between taking receptionistRequestPossible and raising receptionistReq. */
  ghost function DeskWriters(gr: seq<GroupState>): set<int> {
    set g | 0 <= g < |gr| && gr[g].pc in {G_ASK_WRITE, G_ASK_POST, G_BILL_WRITE, G_BILL_POST}
  }

  /** The groups between taking waiterRequestPossible and raising waiterRequest. */
  ghost function WaiterWriters(gr: seq<GroupState>): set<int> {
    set g | 0 <= g < |gr| && gr[g].pc in {G_FOOD_WRITE, G_FOOD_POST}
  }

  /** Requests are read in the order written; at most one is unread and it is in the mailbox. */
  ghost predicate Lossless(m: MailLog, mail: Request) {
    m.read <= m.sent && (m.sent == m.read || m.sent == m.read + [mail])
  }

  lemma DeskToken(c: Config, w: World, h: Hist)
    requires DeskMail(w.sems, w.gr, w.rc.pc, w.sh.deskMail, h.deskMail, h.desk)
    ensures w.sems.deskReq + w.sems.deskPossible + |DeskWriters(w.gr)|
            + (if w.rc.pc in {R_READ, R_RELEASE} then 1 else 0) == 1
  {
    var turn := h.deskMail.turn;
    DeskWriter(c, w, h);
    forall g | g in DeskWriters(w.gr)
      ensures turn in {Writing(Group(g)), Written(Group(g))}
    {
      assert DeskGroup(w.gr[g].pc, g, w.sh.deskMail, h.deskMail, h.desk);
    }
    if turn.Writing? || turn.Written? {
      assert DeskWriters(w.gr) == {turn.p.id};
    } else {
      assert DeskWriters(w.gr) == {};
    }
  }

  lemma WaiterToken(c: Config, w: World, h: Hist)
    requires WaiterMail(w.sems, w.gr, w.wt.pc, w.ch.pc, w.sh.waiterMail, h.waiterMail, h.kitchen.foodReqs)
    ensures w.sems.waiterReq + w.sems.waiterPossible + |WaiterWriters(w.gr)|
            + (if w.ch.pc in {C_READY_WRITE, C_READY_POST} then 1 else 0)
            + (if w.wt.pc in {W_READ, W_RELEASE} then 1 else 0) == 1
  {
    var turn := h.waiterMail.turn;
    WaiterWriter(c, w, h);
    forall g | g in WaiterWriters(w.gr)
      ensures turn in {Writing(Group(g)), Written(Group(g))}
    {
      assert FoodGroup(w.gr[g].pc, g, w.sh.waiterMail, h.waiterMail, h.kitchen.foodReqs);
    }
    if (turn.Writing? || turn.Written?) && turn.p.Group? {
      assert WaiterWriters(w.gr) == {turn.p.id};
    } else {
      assert WaiterWriters(w.gr) == {};
    }
  }

  /** Each mailbox has one token - "request pending", "request possible", or a writer or the
      reader in between - and loses, duplicates and reorders nothing. */
  lemma MailboxesExact(c: Config, run: seq<Proc>)
    requires c.Valid() && Possible(c, run)
    ensures var w, h := After(c, run).value, Log(c, run);
            && w.sems.deskReq + w.sems.deskPossible + |DeskWriters(w.gr)|
               + (if w.rc.pc in {R_READ, R_RELEASE} then 1 else 0) == 1
            && Lossless(h.deskMail, w.sh.deskMail)
            && w.sems.waiterReq + w.sems.waiterPossible + |WaiterWriters(w.gr)|
               + (if w.ch.pc in {C_READY_WRITE, C_READY_POST} then 1 else 0)
               + (if w.wt.pc in {W_READ, W_RELEASE} then 1 else 0) == 1
            && Lossless(h.waiterMail, w.sh.waiterMail)
  {
    RunKeeps(c, run);
    DeskToken(c, After(c, run).value, Log(c, run));
    WaiterToken(c, After(c, run).value, Log(c, run));
  }

  // Tables

  /** No two groups hold the same table, a table is marked occupied exactly when a group holds
      it, and the counter counts the marks. */
  lemma TablesExclusive(c: Config, run: seq<Proc>)
    requires c.Valid() && Possible(c, run)
    ensures var w := After(c, run).value;
            && |w.sh.assignedTable| == c.groups && |w.rc.board.occupied| == c.tables
            && (forall g, x :: 0 <= g < x < c.groups && w.sh.assignedTable[g] >= 0 ==> w.sh.assignedTable[g] != w.sh.assignedTable[x])
            && (forall t :: 0 <= t < c.tables ==>
                  (w.rc.board.occupied[t] <==> exists g :: 0 <= g < c.groups && w.sh.assignedTable[g] == t))
            && w.rc.board.count == Count(w.rc.board.occupied)
  {
    RunKeeps(c, run);
    var w, h := After(c, run).value, Log(c, run);
    forall g, x | 0 <= g < x < c.groups && w.sh.assignedTable[g] >= 0
      ensures w.sh.assignedTable[g] != w.sh.assignedTable[x]
    {
      OwnSeat(c, w, h, g, x);
    }
    forall t | 0 <= t < c.tables
      ensures w.rc.board.occupied[t] <==> exists g :: 0 <= g < c.groups && w.sh.assignedTable[g] == t
    {
      if h.desk.occupant[t] >= 0 {
        assert w.sh.assignedTable[h.desk.occupant[t]] == t;
      }
    }
  }

  /** The groups that publish FOOD_REQUEST, WAIT_FOR_FOOD or EAT. */
  ghost function Dining(stats: seq<GroupStat>): set<int> {
    set g | 0 <= g < |stats| && stats[g] in {FOOD_REQUEST, WAIT_FOR_FOOD, EAT}
  }

  lemma {:induction false} AsSequence<A>(s: set<A>) returns (q: seq<A>)
    ensures |q| == |s| && (forall x :: x in q <==> x in s)
    ensures forall i, j :: 0 <= i < j < |q| ==> q[i] != q[j]
  {
    if s == {} {
      q := [];
    } else {
      var x :| x in s;
      var rest := AsSequence(s - {x});
      q := rest + [x];
    }
  }

  lemma DinersSit(w: World, s: seq<int>)
    requires Stats(w.gr, w.sh.groupStat) && forall x :: x in s ==> x in Dining(w.sh.groupStat)
    ensures forall i :: 0 <= i < |s| ==> 0 <= s[i] < |w.gr| && G_AWAIT_TABLE < w.gr[s[i]].pc <= G_BILL_POST
  {
    assert forall i :: 0 <= i < |s| ==> s[i] in s;
  }

  lemma DinersFit(c: Config, w: World, h: Hist)
    requires DeskInv(c, w, h) && Stats(w.gr, w.sh.groupStat)
    ensures |Dining(w.sh.groupStat)| <= c.tables
  {
    var s := AsSequence(Dining(w.sh.groupStat));
    DinersSit(w, s);
    SeatedFit(c, w, h, s);
  }

  lemma AtMostTablesDine(c: Config, run: seq<Proc>)
    requires c.Valid() && Possible(c, run)
    ensures |Dining(After(c, run).value.sh.groupStat)| <= c.tables
  {
    RunKeeps(c, run);
    DinersFit(c, After(c, run).value, Log(c, run));
  }

  // Seating order

  function Min(a: int, b: int): int {
    if a < b then a else b
  }

  /** The receptionist is between two requests. */
  predicate Resting(rc: ReceptionistState) {
    rc.pc <= R_READ || rc.pc == R_DONE
  }

  /** Groups are seated strictly in the order in which their requests were read. */
  lemma SeatingIsFifo(c: Config, run: seq<Proc>)
    requires c.Valid() && Possible(c, run)
    ensures var d := Log(c, run).desk;
            d.seated <= d.tableReqs && NoRepeats(d.tableReqs) && d.paid <= d.billReqs
  {
    RunKeeps(c, run);
  }

  /** As many groups are seated, in order of arrival, as payments and tables allow, and
      everybody else is on the waiting list. */
  ghost predicate SeatedInTurn(d: DeskLog, tables: nat) {
    var k := Min(|d.tableReqs|, |d.paid| + tables);
    d.seated == d.tableReqs[..k] && d.waitlist == d.tableReqs[k..]
  }

  lemma BooksInTurn(c: Config, w: World, h: Hist)
    requires Inv(c, w, h) && Resting(w.rc)
    ensures SeatedInTurn(h.desk, c.tables)
  {
    BoardLimit(c, w.rc, h.desk);
  }

  lemma BoardLimit(c: Config, rc: ReceptionistState, d: DeskLog)
    requires Fifo(c, rc, d) && Resting(rc)
    ensures SeatedInTurn(d, c.tables)
  {
    assert d.tableReqs == d.seated + d.waitlist;
    CountFull(rc.board.occupied);
  }

  /** Between requests the tables are given out exactly in turn. */
  lemma SeatingIsExact(c: Config, run: seq<Proc>)
    requires c.Valid() && Possible(c, run) && Resting(After(c, run).value.rc)
    ensures SeatedInTurn(Log(c, run).desk, c.tables)
  {
    RunKeeps(c, run);
    BooksInTurn(c, After(c, run).value, Log(c, run));
  }

  lemma {:induction false} LogGrows(c: Config, run: seq<Proc>, more: seq<Proc>)
    requires c.Valid() && Possible(c, run) && Possible(c, run + more)
    ensures Log(c, run).desk.tableReqs <= Log(c, run + more).desk.tableReqs
    ensures |Log(c, run).desk.paid| <= |Log(c, run + more).desk.paid|
    decreases |more|
  {
    if more == [] {
      assert run + more == run;
    } else {
      var most := more[..|more| - 1];
      assert (run + more)[..|run + more| - 1] == run + most;
      LogGrows(c, run, most);
    }
  }

  /** A group put on the waiting list with k groups ahead of it is seated by exactly the
      (k+1)-th later payment. */
  lemma ExactWait(c: Config, run: seq<Proc>, more: seq<Proc>, k: nat)
    requires c.Valid() && Possible(c, run) && Possible(c, run + more)
    requires Resting(After(c, run).value.rc) && Resting(After(c, run + more).value.rc)
    requires k < |Log(c, run).desk.waitlist|
    ensures var g := Log(c, run).desk.waitlist[k];
            var later := |Log(c, run + more).desk.paid| - |Log(c, run).desk.paid|;
            g in Log(c, run + more).desk.seated <==> later >= k + 1
  {
    SeatingIsExact(c, run);
    SeatingIsExact(c, run + more);
    SeatingIsFifo(c, run + more);
    LogGrows(c, run, more);
    SeatedFromPosition(c.tables, Log(c, run).desk, Log(c, run + more).desk, k);
  }

  lemma SeatedFromPosition(tables: nat, d: DeskLog, d': DeskLog, k: nat)
    requires SeatedInTurn(d, tables) && SeatedInTurn(d', tables)
    requires d.tableReqs <= d'.tableReqs && NoRepeats(d'.tableReqs) && k < |d.waitlist|
    ensures d.waitlist[k] in d'.seated <==> |d'.paid| - |d.paid| >= k + 1
  {
    var i := |d.paid| + tables + k;
    assert d.waitlist[k] == d.tableReqs[i] == d'.tableReqs[i];
    if i < |d'.seated| {
      assert d'.seated[i] == d.waitlist[k];
    }
  }

  /** The head of the waiting list gets the very table that was just paid for. */
  lemma VacatedTableHandedOver(c: Config, run: seq<Proc>)
    requires c.Valid() && Possible(c, run)
    requires var rc := After(c, run).value.rc; rc.pc == R_DECIDE && Recalled(rc)
    ensures var rc := After(c, run).value.rc; Decide(rc.board) == rc.table >= 0
  {
    RunKeeps(c, run);
    var b, t := After(c, run).value.rc.board, After(c, run).value.rc.table;
    DecideIsFree(b);
    CountUpdate(b.occupied, t, true);
    CountFull(b.occupied[t := true]);
    assert forall u :: 0 <= u < |b.occupied| && u != t ==> b.occupied[t := true][u] == b.occupied[u];
  }

  /** The waiting list without any wrapping, and within the bytes of groupRecord (the list
      starts at byte 16). */
  ghost predicate StraightList(c: Config, waiting: Ring<int>, d: DeskLog) {
    && (d.enqueued != [] ==> |d.enqueued| <= c.groups - c.tables)
    && waiting.write == |d.enqueued| < |waiting.slots| == 4 * (c.maxGroups - 2)
    && waiting.read == |d.enqueued| - |d.waitlist| && waiting.len == |d.waitlist|
    && 0 <= waiting.read <= waiting.write && waiting.slots[waiting.read..waiting.write] == d.waitlist
    && (c.maxGroups >= 5 ==> 16 + |d.enqueued| <= 4 * c.maxGroups)
  }

  /** At most n - tables groups are ever put on the waiting list, each in a slot of its own:
      the cursors never wrap and no slot from n - tables on is written. */
  lemma WaitingListBounded(c: Config, run: seq<Proc>)
    requires c.Valid() && Possible(c, run)
    ensures StraightList(c, After(c, run).value.rc.waiting, Log(c, run).desk)
  {
    RunKeeps(c, run);
    ListBounded(c, After(c, run).value.rc, Log(c, run).desk);
  }

  lemma ListBounded(c: Config, rc: ReceptionistState, d: DeskLog)
    requires c.Valid() && WaitingRing(c, rc.waiting, d.waitlist) && WaitingBound(c, rc, d)
    ensures StraightList(c, rc.waiting, d)
  {
    CursorStraight(rc.waiting, d.waitlist, |d.enqueued|);
  }

  lemma CursorStraight(r: Ring<int>, s: seq<int>, written: nat)
    requires Holds(r, s) && r.write == written && |s| <= written < |r.slots|
    ensures r.read == written - |s| && r.slots[r.read..r.write] == s
  {
    var m := |r.slots|;
    if r.read + r.len < m {
      ModUnique(r.read + r.len, 0, r.read + r.len, m);
    } else {
      ModUnique(r.read + r.len, 1, r.read + r.len - m, m);
    }
    forall i | 0 <= i < |s|
      ensures r.slots[r.read + i] == s[i]
    {
      ModUnique(r.read + i, 0, r.read + i, m);
    }
  }

  // Payments

  /** Per table, receipts are conserved: those still in the semaphore, those taken by groups
      and the one about to be raised add up to the payments made there. */
  lemma ReceiptsConserved(c: Config, run: seq<Proc>, t: nat)
    requires c.Valid() && Possible(c, run) && t < c.tables
    ensures var w, paidAt := After(c, run).value, Log(c, run).desk.paidAt;
            && |w.sems.tableDone| == c.tables
            && w.sems.tableDone[t] + |LeftFrom(w.gr, t)|
               + (if w.rc.pc == R_PAY_SIGNAL && w.rc.table == t then 1 else 0) == multiset(paidAt)[t]
            && |LeftFrom(w.gr, t)| <= multiset(paidAt)[t]
  {
    RunKeeps(c, run);
  }

  // Orders and meals

  /** Group g sits at a table and waits for an acknowledgement that has not been given. */
  ghost predicate WaitsForAck(c: Config, w: World, g: nat) {
    && g < |w.gr| && G_FOOD_POST < w.gr[g].pc <= G_AWAIT_ACK
    && 0 <= At(w.sh.assignedTable, g, -1) < c.tables
    && At(w.sems.requestReceived, At(w.sh.assignedTable, g, -1), 1) == 0
  }

  ghost predicate QueuedWait(c: Config, w: World, q: seq<int>) {
    NoRepeats(q) && forall i :: 0 <= i < |q| ==> 0 <= q[i] && WaitsForAck(c, w, q[i])
  }

  /** The waiter's queue of tables many slots never overflows: it holds distinct groups, all
      seated and waiting for an acknowledgement they do not have; a slot is free whenever
      a request is pushed, and one slot is spare while an order is being cooked. */
  lemma QueueNeverOverflows(c: Config, run: seq<Proc>)
    requires c.Valid() && Possible(c, run)
    ensures var w, q := After(c, run).value, Log(c, run).kitchen.queue;
            && Holds(w.wt.queue, FoodRequests(q)) && |w.wt.queue.slots| == c.tables
            && w.wt.queue.len == |q| <= c.tables && QueuedWait(c, w, q)
            && (w.sh.foodOrder ==> |q| <= c.tables - 1)
            && (w.wt.pc == W_RELEASE && w.wt.incoming.kind == FOODREQ ==> |q| < c.tables)
  {
    RunKeeps(c, run);
    var w, h := After(c, run).value, Log(c, run);
    QueueFits(c, w, h);
    QueueWaits(c, w, h);
  }

  lemma QueueWaits(c: Config, w: World, h: Hist)
    requires DeskInv(c, w, h) && KitchenInv(c, w, h)
    ensures QueuedWait(c, w, h.kitchen.queue)
  {
    var k, q := h.kitchen, h.kitchen.queue;
    UnservedWait(c, w, h);
    assert forall i :: 0 <= i < |q| ==> q[i] == Unserved(w.wt, k)[i];
    forall i | 0 <= i < |q|
      ensures 0 <= q[i] < |w.gr| && WaitsForAck(c, w, q[i])
    {
      NotAckedYet(w, h, i);
      WaitsAtTable(c, w, h, q[i]);
    }
  }

  lemma WaitsAtTable(c: Config, w: World, h: Hist, g: nat)
    requires DeskInv(c, w, h) && KitchenInv(c, w, h)
    requires g < |w.gr| && g in h.kitchen.foodReqs && g !in h.kitchen.acked && w.gr[g].pc <= G_AWAIT_FOOD
    ensures WaitsForAck(c, w, g)
  {
    assert FoodGroup(w.gr[g].pc, g, w.sh.waiterMail, h.waiterMail, h.kitchen.foodReqs);
    assert MealToken(w.gr[g].pc, g, w.sh.assignedTable[g], w.sems, h.kitchen);
    Sits(c, w, g, h);
  }

  lemma NotAckedYet(w: World, h: Hist, i: nat)
    requires OrderLists(w.wt, h.kitchen) && OrderProgress(w.wt.pc, h.kitchen) && NoRepeats(h.kitchen.foodReqs)
    requires i < |h.kitchen.queue|
    ensures h.kitchen.queue[i] in h.kitchen.foodReqs && h.kitchen.queue[i] !in h.kitchen.acked
  {
    var k := h.kitchen;
    var m := |k.informed| + (if Announcing(w.wt) then 1 else 0);
    assert k.foodReqs[m + i] == k.queue[i];
    assert forall j :: 0 <= j < |k.acked| ==> k.acked[j] == k.foodReqs[j];
  }

  /** Food requests are cooked, acknowledged and delivered in the order in which the waiter
      read them. */
  lemma CookedInOrder(c: Config, run: seq<Proc>)
    requires c.Valid() && Possible(c, run)
    ensures var k := Log(c, run).kitchen;
            && k.cooked <= k.informed <= k.foodReqs && NoRepeats(k.foodReqs)
            && k.delivered <= k.cooked
            && k.acked <= k.cooked
  {
    RunKeeps(c, run);
  }

  /** The last group the chef was told of is the one being dealt with; the others are served. */
  ghost predicate SingleOrder(w: World, turn: Turn, k: KitchenLog) {
    && |k.informed| - 1 <= |k.delivered| <= |k.informed|
    && (w.sh.foodOrder <==> |k.delivered| < |k.informed| && w.wt.pc != W_INFORM_ORDER && w.wt.pc != W_TAKE_FOOD)
    && (w.wt.pc == W_INFORM_GROUP ==> k.delivered == k.cooked == k.informed)
    && (w.ch.pc == C_READ ==> |k.cooked| < |k.informed| && w.sh.foodGroup == k.informed[|k.cooked|])
    && (Pending(turn) && w.sh.waiterMail.kind == FOODREADY ==>
          |k.delivered| < |k.informed| && w.sh.waiterMail.group == k.informed[|k.delivered|])
    && (w.wt.pc == W_TAKE_FOOD ==> |k.delivered| < |k.informed| && w.wt.cur == k.informed[|k.delivered|])
  }

  lemma OrdersAreSingle(w: World, turn: Turn, k: KitchenLog)
    requires OrderStage(w.wt, w.ch.pc, w.sems, turn, w.sh.waiterMail, k)
    requires turn.Written? && w.sh.waiterMail.kind == FOODREADY ==> w.ch.pc == C_READY_POST
    requires BusyFlag(w.wt, w.sh.foodOrder, k) && OrderProgress(w.wt.pc, k)
    requires OrderNames(w.wt, w.ch, w.sh.foodGroup, w.sh.waiterMail, k)
    ensures SingleOrder(w, turn, k)
  {
  }

  /** At most one order is in flight, and everybody who handles it knows whose it is: foodGroup
      is still the new order's when the chef reads it, foodOrder is true from informChef to the
      delivery, and a FOODREADY names the group whose order is outstanding. */
  lemma OneOrderInFlight(c: Config, run: seq<Proc>)
    requires c.Valid() && Possible(c, run)
    ensures SingleOrder(After(c, run).value, Log(c, run).waiterMail.turn, Log(c, run).kitchen)
  {
    RunKeeps(c, run);
    var w, h := After(c, run).value, Log(c, run);
    ReadyIsChefs(w, h);
    OrdersAreSingle(w, h.waiterMail.turn, h.kitchen);
  }

  lemma ReadyIsChefs(w: World, h: Hist)
    requires WaiterMail(w.sems, w.gr, w.wt.pc, w.ch.pc, w.sh.waiterMail, h.waiterMail, h.kitchen.foodReqs)
    ensures h.waiterMail.turn.Written? && w.sh.waiterMail.kind == FOODREADY ==> w.ch.pc == C_READY_POST
  {
    var turn := h.waiterMail.turn;
    if turn.Written? && turn.p.Group? {
      assert FoodGroup(w.gr[turn.p.id].pc, turn.p.id, w.sh.waiterMail, h.waiterMail, h.kitchen.foodReqs);
    }
  }

  /** A group eats only after the chef has cooked its own order and the waiter has brought it. */
  lemma EatsOwnMeal(c: Config, run: seq<Proc>, g: nat)
    requires c.Valid() && Possible(c, run) && g < c.groups
    ensures var w, k := After(c, run).value, Log(c, run).kitchen;
            && |w.sh.groupStat| == c.groups
            && (w.sh.groupStat[g] in {WAIT_FOR_FOOD, EAT} ==> g in k.acked && g in k.cooked)
            && (w.sh.groupStat[g] in {EAT, CHECKOUT, LEAVING} ==> g in k.delivered && g in k.cooked)
  {
    RunKeeps(c, run);
    MealComesFirst(c, After(c, run).value, Log(c, run), g);
  }

  lemma MealComesFirst(c: Config, w: World, h: Hist, g: nat)
    requires KitchenInv(c, w, h) && Stats(w.gr, w.sh.groupStat) && g < |w.gr|
    ensures w.sh.groupStat[g] in {WAIT_FOR_FOOD, EAT} ==> g in h.kitchen.acked && g in h.kitchen.cooked
    ensures w.sh.groupStat[g] in {EAT, CHECKOUT, LEAVING} ==> g in h.kitchen.delivered && g in h.kitchen.cooked
  {
    assert MealToken(w.gr[g].pc, g, w.sh.assignedTable[g], w.sems, h.kitchen);
  }

  /** A token at table t, for a group that is still waiting for it there. */
  ghost predicate HeldFor(w: World, t: int, token: nat, owners: seq<int>, last: int) {
    token == 1 && exists g :: 0 <= g < |w.gr| && At(w.sh.assignedTable, g, -1) == t && g in owners
                              && G_FOOD_WRITE < w.gr[g].pc <= last
  }

  /** The waiter's tokens at a table belong to the group now sitting there, and there are none
      when the table is given to a group. */
  ghost predicate TokensOwned(w: World, k: KitchenLog, t: nat) {
    && t < |w.sems.requestReceived| == |w.sems.foodArrived|
    && (w.sems.requestReceived[t] > 0 ==> HeldFor(w, t, w.sems.requestReceived[t], k.acked, G_AWAIT_ACK))
    && (w.sems.foodArrived[t] > 0 ==> HeldFor(w, t, w.sems.foodArrived[t], k.delivered, G_AWAIT_FOOD))
    && (w.rc.pc == R_DECIDE && Decide(w.rc.board) == t ==> w.sems.requestReceived[t] == 0 && w.sems.foodArrived[t] == 0)
  }

  lemma OccupantOwnsTokens(c: Config, w: World, h: Hist, t: nat)
    requires DeskInv(c, w, h) && KitchenInv(c, w, h) && t < c.tables
    ensures TokensOwned(w, h.kitchen, t)
  {
    var x := h.desk.occupant[t];
    DecideIsFree(w.rc.board);
    if x >= 0 {
      assert At(w.sh.assignedTable, x, -1) == t;
      assert MealToken(w.gr[x].pc, x, w.sh.assignedTable[x], w.sems, h.kitchen);
      AckedOrdered(w.wt, h.kitchen, x);
      assert FoodGroup(w.gr[x].pc, x, w.sh.waiterMail, h.waiterMail, h.kitchen.foodReqs);
    }
  }

  lemma TokensBelongToOccupant(c: Config, run: seq<Proc>, t: nat)
    requires c.Valid() && Possible(c, run) && t < c.tables
    ensures TokensOwned(After(c, run).value, Log(c, run).kitchen, t)
  {
    RunKeeps(c, run);
    OccupantOwnsTokens(c, After(c, run).value, Log(c, run), t);
  }

  /** What the bookkeeping methods of the receptionist require of their callers holds whenever
      the protocol reaches them. */
  ghost predicate DeskReady(c: Config, rc: ReceptionistState, assignedTable: seq<int>, waitlist: seq<int>) {
    && Consistent(rc.board) && |rc.board.occupied| == c.tables && Holds(rc.waiting, waitlist)
    && (rc.pc == R_DECIDE ==> 0 <= rc.arg < |assignedTable| && |waitlist| < |rc.waiting.slots|)
    && (rc.pc == R_PAY_TABLE ==>
          && 0 <= rc.arg < |assignedTable| && 0 <= assignedTable[rc.arg] < c.tables
          && rc.board.occupied[assignedTable[rc.arg]]
          && (waitlist != [] ==> rc.board.count == c.tables)
          && Ids(waitlist, |assignedTable|))
  }

  lemma BooksReady(c: Config, rc: ReceptionistState, assignedTable: seq<int>, readCount: nat, d: DeskLog)
    requires DeskBooks(c, rc, assignedTable, readCount, d) && c.Valid()
    requires Ids(d.tableReqs, |assignedTable|) && |assignedTable| == c.groups
    requires rc.pc == R_PAY_TABLE ==> 0 <= rc.arg < |assignedTable| && assignedTable[rc.arg] >= 0
    ensures DeskReady(c, rc, assignedTable, d.waitlist)
  {
    if rc.pc == R_PAY_TABLE {
      assert d.occupant[assignedTable[rc.arg]] == rc.arg;
      assert forall i :: 0 <= i < |d.waitlist| ==> d.waitlist[i] == d.tableReqs[|d.seated| + i];
    }
  }

  lemma BookkeepingReady(c: Config, run: seq<Proc>)
    requires c.Valid() && Possible(c, run)
    ensures var w := After(c, run).value; DeskReady(c, w.rc, w.sh.assignedTable, Log(c, run).desk.waitlist)
  {
    RunKeeps(c, run);
    var w, h := After(c, run).value, Log(c, run);
    KeptByReceptionist.ReliesHolds(c, w, h);
    BooksReady(c, w.rc, w.sh.assignedTable, |h.deskMail.read|, h.desk);
  }

  /** The "BUG" branches are unreachable and every table looked up is a valid index. */
  lemma NoBugBranch(c: Config, run: seq<Proc>)
    requires c.Valid() && Possible(c, run)
    ensures var w := After(c, run).value;
            && w.rc.pc !in {R_BUG, R_STUCK} && w.wt.pc !in {W_BUG, W_STUCK}
            && (R_PAY_FREE <= w.rc.pc <= R_PAY_SIGNAL ==> 0 <= w.rc.table < c.tables)
            && (w.wt.pc == W_INFORM_ACK || W_TAKE_UNLOCK <= w.wt.pc <= W_TAKE_FOOD ==> 0 <= w.wt.table < c.tables)
            && (w.ch.pc == C_ACK ==> w.ch.lastGroup >= 0)
            && (forall g :: 0 <= g < |w.gr| && w.gr[g].pc in {G_AWAIT_ACK, G_AWAIT_FOOD, G_AWAIT_DONE} ==>
                  0 <= w.gr[g].table < c.tables)
  {
    RunKeeps(c, run);
    var w, h := After(c, run).value, Log(c, run);
    ChefHasGroup(w, h, |w.gr|);
    forall g | 0 <= g < |w.gr| && w.gr[g].pc in {G_AWAIT_ACK, G_AWAIT_FOOD, G_AWAIT_DONE}
      ensures 0 <= w.gr[g].table < c.tables
    {
      assert Remembers(w.gr[g], g, w.sh.assignedTable[g], c.tables, h.desk.paid);
      if w.gr[g].pc != G_AWAIT_DONE { Sits(c, w, g, h); }
    }
  }
}
