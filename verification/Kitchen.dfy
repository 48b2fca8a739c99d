/** Consequences of the kitchen's invariants: whose order the waiter is busy with, and
    why the waiter's queue has room. */
module Kitchen {
  import opened Rings
  import opened Tables
  import opened Restaurant
  import opened History
  import opened Invariants
  import opened Seating

  lemma AckedOrdered(wt: WaiterState, k: KitchenLog, g: int)
    requires OrderLists(wt, k) && OrderProgress(wt.pc, k)
    ensures g in k.acked || g in k.delivered || g in k.cooked ==> g in k.informed
    ensures g in k.informed || g in k.queue ==> g in k.foodReqs
  {
  }

  /** A group that has not asked for food has been neither acknowledged nor served. */
  lemma NotYetServed(c: Config, w: World, h: Hist, g: nat)
    requires KitchenInv(c, w, h) && g < |w.gr| && w.gr[g].pc <= G_FOOD_WRITE
    ensures g !in h.kitchen.acked && g !in h.kitchen.delivered
  {
    assert FoodGroup(w.gr[g].pc, g, w.sh.waiterMail, h.waiterMail, h.kitchen.foodReqs);
    AckedOrdered(w.wt, h.kitchen, g);
  }

  /** The last order handed to the chef is new. */
  lemma LastIsNew(wt: WaiterState, k: KitchenLog)
    requires OrderLists(wt, k) && OrderProgress(wt.pc, k) && NoRepeats(k.foodReqs) && k.informed != []
    ensures var g := k.informed[|k.informed| - 1];
            && g in k.foodReqs
            && (|k.acked| < |k.informed| ==> g !in k.acked)
            && (|k.delivered| < |k.informed| ==> g !in k.delivered)
  {
    assert forall i :: 0 <= i < |k.informed| ==> k.informed[i] == k.foodReqs[i];
  }

  /** At C_ACK the chef holds a real group, so it always goes on to cook. */
  lemma ChefHasGroup(w: World, h: Hist, n: nat)
    requires OrderStage(w.wt, w.ch.pc, w.sems, h.waiterMail.turn, w.sh.waiterMail, h.kitchen)
    requires OrderLists(w.wt, h.kitchen) && OrderProgress(w.wt.pc, h.kitchen)
    requires OrderNames(w.wt, w.ch, w.sh.foodGroup, w.sh.waiterMail, h.kitchen)
    requires Ids(h.kitchen.foodReqs, n)
    ensures w.ch.pc == C_ACK ==> w.ch.lastGroup >= 0
  {
    if w.ch.pc == C_ACK {
      var i := |h.kitchen.informed| - 1;
      assert h.kitchen.foodReqs[i] == h.kitchen.informed[i];
    }
  }

  /** The group the waiter is dealing with still waits at its table. */
  lemma CurrentWaits(c: Config, w: World, h: Hist)
    requires KitchenInv(c, w, h)
    requires W_INFORM_ORDER <= w.wt.pc <= W_INFORM_ACK || W_TAKE_LOCK <= w.wt.pc <= W_TAKE_FOOD
    ensures 0 <= w.wt.cur < |w.gr| && w.wt.cur in h.kitchen.informed
    ensures W_INFORM_ORDER <= w.wt.pc <= W_INFORM_ACK ==>
              w.wt.cur !in h.kitchen.acked && G_FOOD_WRITE < w.gr[w.wt.cur].pc <= G_AWAIT_ACK
    ensures W_TAKE_LOCK <= w.wt.pc <= W_TAKE_FOOD ==>
              w.wt.cur !in h.kitchen.delivered && G_FOOD_WRITE < w.gr[w.wt.cur].pc <= G_AWAIT_FOOD
  {
    var g, k := w.wt.cur, h.kitchen;
    LastIsNew(w.wt, k);
    assert FoodGroup(w.gr[g].pc, g, w.sh.waiterMail, h.waiterMail, k.foodReqs);
    assert MealToken(w.gr[g].pc, g, w.sh.assignedTable[g], w.sems, k);
  }

  /** The groups whose orders the waiter has read and not acknowledged, the one
      being cooked for last. */
  ghost function Unserved(wt: WaiterState, k: KitchenLog): seq<int> {
    k.queue
    + (if wt.pc == W_RELEASE && wt.incoming.kind == FOODREQ then [wt.incoming.group] else [])
    + (if k.stage != Idle && k.informed != [] then [k.informed[|k.informed| - 1]] else [])
  }

  lemma UnservedOnce(wt: WaiterState, k: KitchenLog)
    requires OrderLists(wt, k) && OrderProgress(wt.pc, k) && NoRepeats(k.foodReqs)
    ensures NoRepeats(Unserved(wt, k))
    ensures forall i :: 0 <= i < |Unserved(wt, k)| ==> Unserved(wt, k)[i] in k.foodReqs && Unserved(wt, k)[i] !in k.delivered
  {
    var m := |k.informed| + (if Announcing(wt) then 1 else 0);
    var tail := k.queue + (if wt.pc == W_RELEASE && wt.incoming.kind == FOODREQ then [wt.incoming.group] else []);
    assert forall i :: 0 <= i < |tail| ==> tail[i] == k.foodReqs[m + i];
    assert forall i :: 0 <= i < |k.informed| ==> k.informed[i] == k.foodReqs[i];
    if k.stage != Idle { LastIsNew(wt, k); }
  }

  lemma UnservedWait(c: Config, w: World, h: Hist)
    requires KitchenInv(c, w, h)
    ensures var s := Unserved(w.wt, h.kitchen);
            && NoRepeats(s) && Ids(s, |w.gr|)
            && forall i :: 0 <= i < |s| ==> G_FOOD_WRITE < w.gr[s[i]].pc <= G_AWAIT_FOOD
  {
    var k, s := h.kitchen, Unserved(w.wt, h.kitchen);
    UnservedOnce(w.wt, k);
    forall i | 0 <= i < |s|
      ensures 0 <= s[i] < |w.gr|
      ensures G_FOOD_WRITE < w.gr[s[i]].pc <= G_AWAIT_FOOD
    {
      assert FoodGroup(w.gr[s[i]].pc, s[i], w.sh.waiterMail, h.waiterMail, k.foodReqs);
      assert MealToken(w.gr[s[i]].pc, s[i], w.sh.assignedTable[s[i]], w.sems, k);
    }
  }

  /** The order queue has room: together with the group being cooked for, the groups
      in it sit at different tables. */
  lemma QueueFits(c: Config, w: World, h: Hist)
    requires DeskInv(c, w, h) && KitchenInv(c, w, h)
    ensures |Unserved(w.wt, h.kitchen)| <= c.tables
  {
    UnservedWait(c, w, h);
    SeatedFit(c, w, h, Unserved(w.wt, h.kitchen));
  }
}
