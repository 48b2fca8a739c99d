/** Every run is finite: a weight that counts the remaining work drops at each step. */
module Termination {
  import opened Rings
  import opened Tables
  import opened Restaurant
  import opened History
  import opened Invariants
  import opened Seating
  import opened Progress
  import opened Reachable

  function GroupWork(gr: seq<GroupState>): int {
    if gr == [] then 0 else (G_DONE - gr[0].pc) + GroupWork(gr[1..])
  }

  /** Steps left in the receptionist's current iteration; a recalled group is seated last. */
  function ReceptionistRank(pc: int): int {
    if pc <= R_RELEASE then 19 - pc
    else if R_ASSIGN_LOCK <= pc <= R_SEAT then 12 - pc
    else if R_PAY_LOCK <= pc <= R_PAY_NEXT then 24 - pc
    else 0
  }

  /** Steps left for the waiter until it reads its next message or finishes its errand. */
  function WaiterRank(pc: int): int {
    if pc <= W_READ then 17 - pc
    else if pc == W_RELEASE then 16
    else if pc <= W_INFORM_ACK then 18 - pc
    else 24 - pc
  }

  /** Messages for the waiter that have not been read yet. */
  function Unread(c: Config, k: KitchenLog): int {
    2 * c.groups - |k.foodReqs| - |k.delivered| - (if k.stage in {Returned, Carrying} then 1 else 0)
  }

  function Weight(c: Config, w: World, k: KitchenLog): int {
    GroupWork(w.gr)
    + 20 * (2 * c.groups - w.rc.nReq) + ReceptionistRank(w.rc.pc)
    + 20 * (2 * c.groups - w.wt.nReq) + 10 * Unread(c, k) + WaiterRank(w.wt.pc)
    + 17 * (c.groups - w.ch.nOrders) + (C_DONE - w.ch.pc)
  }

  lemma {:induction false} GroupWorkStep(gr: seq<GroupState>, g: nat, me: GroupState)
    requires g < |gr| && me.pc == gr[g].pc + 1
    ensures GroupWork(gr[g := me]) == GroupWork(gr) - 1
  {
    if g == 0 {
      assert gr[g := me][1..] == gr[1..];
    } else {
      GroupWorkStep(gr[1..], g - 1, me);
      assert gr[g := me][1..] == gr[1..][g - 1 := me];
    }
  }

  lemma {:induction false} GroupWorkBounds(gr: seq<GroupState>)
    requires forall g :: 0 <= g < |gr| ==> 0 <= gr[g].pc <= G_DONE
    ensures 0 <= GroupWork(gr) <= G_DONE * |gr|
  {
    if gr != [] {
      assert 0 <= gr[0].pc <= G_DONE;
      assert forall g :: 0 <= g < |gr[1..]| ==> gr[1..][g] == gr[g + 1];
      GroupWorkBounds(gr[1..]);
    }
  }

  lemma GroupDrops(c: Config, w: World, g: nat, h: Hist)
    requires Inv(c, w, h) && Enabled(w, Group(g))
    ensures Weight(c, GroupNext(w, g), GroupNote(w, g, h).kitchen) == Weight(c, w, h.kitchen) - 1
  {
    GroupWorkStep(w.gr, g, GroupMove(w.gr[g], g, w.sh));
  }

  lemma ReceptionistDrops(c: Config, w: World, h: Hist)
    requires DeskHands(c, w.rc) && 0 <= w.rc.pc && Enabled(w, Receptionist)
    ensures Weight(c, ReceptionistNext(c, w), ReceptionistNote(w, h).kitchen) < Weight(c, w, h.kitchen)
  {
  }

  lemma WaiterDrops(c: Config, w: World, h: Hist)
    requires 0 <= w.wt.pc && Enabled(w, Waiter)
    requires OrderStage(w.wt, w.ch.pc, w.sems, h.waiterMail.turn, w.sh.waiterMail, h.kitchen)
    requires w.wt.pc == W_READ <==> h.waiterMail.turn.Taken?
    requires w.wt.pc == W_READ ==> w.sh.waiterMail.kind in {FOODREQ, FOODREADY}
    requires w.wt.pc == W_RELEASE ==> w.wt.incoming.kind in {FOODREQ, FOODREADY}
    ensures Weight(c, WaiterNext(c, w), WaiterNote(w, h).kitchen) < Weight(c, w, h.kitchen)
  {
  }

  lemma ChefDrops(c: Config, w: World, h: Hist)
    requires 0 <= w.ch.pc <= C_DONE && Enabled(w, Chef)
    requires OrderStage(w.wt, w.ch.pc, w.sems, h.waiterMail.turn, w.sh.waiterMail, h.kitchen)
    ensures Weight(c, ChefNext(c, w), ChefNote(w, h).kitchen) < Weight(c, w, h.kitchen)
  {
  }

  lemma StepDrops(c: Config, w: World, p: Proc, h: Hist)
    requires Inv(c, w, h) && Enabled(w, p)
    ensures Weight(c, Next(c, w, p), Note(w, p, h).kitchen) < Weight(c, w, h.kitchen)
  {
    match p
    case Group(g) => GroupDrops(c, w, g, h);
    case Receptionist => ReceptionistDrops(c, w, h);
    case Waiter => WaiterDrops(c, w, h);
    case Chef => ChefDrops(c, w, h);
  }

  lemma DeskWeight(c: Config, w: World, h: Hist)
    requires DeskInv(c, w, h)
    ensures w.rc.nReq <= 2 * c.groups && ReceptionistRank(w.rc.pc) >= 0
  {
    NoRepeatsFits(h.desk.tableReqs, c.groups);
    NoRepeatsFits(h.desk.billReqs, c.groups);
  }

  lemma KitchenWeight(c: Config, w: World, h: Hist)
    requires KitchenInv(c, w, h) && |w.gr| == c.groups
    ensures w.wt.nReq <= 2 * c.groups && w.ch.nOrders <= c.groups
    ensures Unread(c, h.kitchen) >= 0 && WaiterRank(w.wt.pc) >= 0
  {
    UnreadOrder(c, w, h);
  }

  lemma WeightPositive(c: Config, w: World, h: Hist)
    requires Inv(c, w, h)
    ensures Weight(c, w, h.kitchen) >= 0
  {
    GroupWorkBounds(w.gr);
    DeskWeight(c, w, h);
    KitchenWeight(c, w, h);
  }

  /** No schedule is longer than this. */
  function Bound(c: Config): nat {
    151 * c.groups + 52
  }

  lemma {:induction false} RunWeight(c: Config, run: seq<Proc>)
    requires c.Valid() && Possible(c, run)
    ensures |run| + Weight(c, After(c, run).value, Log(c, run).kitchen) <= Bound(c)
  {
    if run == [] {
      GroupWorkBounds(Initial(c).gr);
    } else {
      var before, p := run[..|run| - 1], run[|run| - 1];
      RunWeight(c, before);
      RunKeeps(c, before);
      StepDrops(c, After(c, before).value, p, Log(c, before));
    }
  }
}
