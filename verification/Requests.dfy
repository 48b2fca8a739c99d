/** The requests that go through the two mailboxes, and what became of them: the log's lists
    of groups are exactly the requests read, and a group has sent a request exactly when its
    published state has come far enough. */
module Requests {
  import opened Rings
  import opened Tables
  import opened Restaurant
  import opened History
  import opened Invariants
  import opened Reachable

  /** The groups named in the requests of this kind, in order. */
  function Naming(requests: seq<Request>, kind: int): seq<int> {
    if requests == [] then []
    else
      var last := requests[|requests| - 1];
      Naming(requests[..|requests| - 1], kind) + (if last.kind == kind then [last.group] else [])
  }

  lemma NamingAppend(s: seq<Request>, r: Request, kind: int)
    ensures Naming(s + [r], kind) == Naming(s, kind) + (if r.kind == kind then [r.group] else [])
  {
    assert (s + [r])[..|s|] == s;
  }

  lemma {:induction false} NamingMember(s: seq<Request>, kind: int, g: int)
    ensures g in Naming(s, kind) <==> Request(kind, g) in s
  {
    if s != [] {
      var n := |s| - 1;
      NamingMember(s[..n], kind, g);
      assert s == s[..n] + [s[n]];
    }
  }

  /** The dishes read are those of the orders told to the chef, in that order. */
  ghost predicate DishesAgree(read: seq<Request>, k: KitchenLog) {
    && Naming(read, FOODREADY) <= k.informed
    && |Naming(read, FOODREADY)| == |k.delivered| + (if k.stage in {Returned, Carrying} then 1 else 0)
  }

  ghost predicate LogsAgree(h: Hist) {
    && h.desk.tableReqs == Naming(h.deskMail.read, TABLEREQ)
    && h.desk.billReqs == Naming(h.deskMail.read, BILLREQ)
    && h.kitchen.foodReqs == Naming(h.waiterMail.read, FOODREQ)
    && DishesAgree(h.waiterMail.read, h.kitchen)
  }

  lemma GroupKeepsLogs(w: World, g: nat, h: Hist)
    requires LogsAgree(h) && g < |w.gr|
    ensures LogsAgree(GroupNote(w, g, h))
  {
  }

  lemma ReceptionistKeepsLogs(w: World, h: Hist)
    requires LogsAgree(h)
    ensures LogsAgree(ReceptionistNote(w, h))
  {
    NamingAppend(h.deskMail.read, w.sh.deskMail, TABLEREQ);
    NamingAppend(h.deskMail.read, w.sh.deskMail, BILLREQ);
  }

  /** A dish that comes back is the last order told, the only one not delivered. */
  lemma DishReturns(w: World, h: Hist)
    requires DishesAgree(h.waiterMail.read, h.kitchen) && w.wt.pc == W_READ
    requires w.sh.waiterMail.kind == FOODREADY ==> h.kitchen.stage == Prepared && w.sh.waiterMail.group == w.sh.foodGroup
    requires h.kitchen.stage !in {Returned, Carrying} && OrderProgress(w.wt.pc, h.kitchen)
    requires h.kitchen.informed != [] ==> w.sh.foodGroup == h.kitchen.informed[|h.kitchen.informed| - 1]
    ensures DishesAgree(WaiterNote(w, h).waiterMail.read, WaiterNote(w, h).kitchen)
  {
    NamingAppend(h.waiterMail.read, w.sh.waiterMail, FOODREADY);
  }

  lemma WaiterKeepsLogs(w: World, h: Hist)
    requires LogsAgree(h) && 0 <= w.wt.pc
    requires OrderStage(w.wt, w.ch.pc, w.sems, h.waiterMail.turn, w.sh.waiterMail, h.kitchen)
    requires OrderProgress(w.wt.pc, h.kitchen) && OrderNames(w.wt, w.ch, w.sh.foodGroup, w.sh.waiterMail, h.kitchen)
    requires w.wt.pc == W_READ ==> h.waiterMail.turn.Taken?
    ensures LogsAgree(WaiterNote(w, h))
  {
    var mail := w.sh.waiterMail;
    if w.wt.pc == W_READ {
      NamingAppend(h.waiterMail.read, mail, FOODREQ);
      DishReturns(w, h);
    }
  }

  lemma ChefKeepsLogs(w: World, h: Hist)
    requires LogsAgree(h) && 0 <= w.ch.pc <= C_DONE
    requires OrderStage(w.wt, w.ch.pc, w.sems, h.waiterMail.turn, w.sh.waiterMail, h.kitchen)
    requires w.ch.pc == C_AWAIT ==> w.sems.waitOrder > 0
    ensures LogsAgree(ChefNote(w, h))
  {
  }

  lemma StepKeepsLogs(c: Config, w: World, p: Proc, h: Hist)
    requires Inv(c, w, h) && LogsAgree(h) && Enabled(w, p)
    ensures LogsAgree(Note(w, p, h))
  {
    match p
    case Group(g) => GroupKeepsLogs(w, g, h);
    case Receptionist => ReceptionistKeepsLogs(w, h);
    case Waiter => WaiterKeepsLogs(w, h);
    case Chef => ChefKeepsLogs(w, h);
  }

  /** The log's lists are the requests read, in order; the chef's messages come in the order in
      which the chef was told. */
  lemma {:induction false} LogsMatchReads(c: Config, run: seq<Proc>)
    requires c.Valid() && Possible(c, run)
    ensures LogsAgree(Log(c, run))
  {
    if run != [] {
      var before, p := run[..|run| - 1], run[|run| - 1];
      LogsMatchReads(c, before);
      RunKeeps(c, before);
      StepKeepsLogs(c, After(c, before).value, p, Log(c, before));
    }
  }

  /** Which requests group g has sent, by its location. */
  ghost predicate SentSoFar(pc: int, g: nat, sentToDesk: seq<Request>, sentToWaiter: seq<Request>) {
    && (Request(TABLEREQ, g) in sentToDesk <==> pc > G_ASK_WRITE)
    && (Request(FOODREQ, g) in sentToWaiter <==> pc > G_FOOD_WRITE)
    && (Request(BILLREQ, g) in sentToDesk <==> pc > G_BILL_WRITE)
  }

  lemma SentByGroup(c: Config, w: World, h: Hist, g: nat)
    requires DeskMail(w.sems, w.gr, w.rc.pc, w.sh.deskMail, h.deskMail, h.desk)
    requires WaiterMail(w.sems, w.gr, w.wt.pc, w.ch.pc, w.sh.waiterMail, h.waiterMail, h.kitchen.foodReqs)
    requires LogsAgree(h) && g < |w.gr|
    ensures SentSoFar(w.gr[g].pc, g, h.deskMail.sent, h.waiterMail.sent)
  {
    assert DeskGroup(w.gr[g].pc, g, w.sh.deskMail, h.deskMail, h.desk);
    assert FoodGroup(w.gr[g].pc, g, w.sh.waiterMail, h.waiterMail, h.kitchen.foodReqs);
    NamingMember(h.deskMail.read, TABLEREQ, g);
    NamingMember(h.deskMail.read, BILLREQ, g);
    NamingMember(h.waiterMail.read, FOODREQ, g);
  }

  /** What the state that group g publishes says about the requests it has sent. */
  ghost predicate StatTells(stat: GroupStat, g: nat, h: Hist) {
    var asked, ordered, billed :=
      Request(TABLEREQ, g) in h.deskMail.sent, Request(FOODREQ, g) in h.waiterMail.sent, Request(BILLREQ, g) in h.deskMail.sent;
    && (stat == GOTOREST ==> !asked)
    && (stat in {GOTOREST, ATRECEPTION} ==> !ordered)
    && (stat in {FOOD_REQUEST, WAIT_FOR_FOOD, EAT, CHECKOUT, LEAVING} ==> asked && g in h.desk.seated)
    && (stat in {WAIT_FOR_FOOD, EAT, CHECKOUT, LEAVING} ==> ordered)
    && (billed ==> stat in {CHECKOUT, LEAVING})
    && (stat == LEAVING ==> billed)
  }

  lemma StateTells(w: World, h: Hist, g: nat)
    requires g < |w.gr| && Stats(w.gr, w.sh.groupStat)
    requires SentSoFar(w.gr[g].pc, g, h.deskMail.sent, h.waiterMail.sent)
    requires TableTokens(w.gr, w.sems.waitForTable, w.rc, h.desk.seated)
    ensures StatTells(w.sh.groupStat[g], g, h)
  {
    assert TableToken(w.gr[g].pc, g, w.sems.waitForTable[g], w.rc, h.desk.seated);
  }

  lemma StatesMatchRequests(c: Config, run: seq<Proc>, g: nat)
    requires c.Valid() && Possible(c, run) && g < c.groups
    ensures |After(c, run).value.sh.groupStat| == c.groups
    ensures StatTells(After(c, run).value.sh.groupStat[g], g, Log(c, run))
  {
    RunKeeps(c, run);
    LogsMatchReads(c, run);
    SentByGroup(c, After(c, run).value, Log(c, run), g);
    StateTells(After(c, run).value, Log(c, run), g);
  }
}
