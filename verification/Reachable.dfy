/** Every reachable state satisfies the invariants. */
module Reachable {
  import opened Rings
  import opened Tables
  import opened Restaurant
  import opened History
  import opened Invariants
  import KeptByGroup
  import KeptByReceptionist
  import KeptByWaiter
  import KeptByChef

  lemma InitialBooks(c: Config)
    requires c.Valid()
    ensures var w := Initial(c); DeskBooks(c, w.rc, w.sh.assignedTable, 0, NoHistory(c).desk)
  {
    NoneOccupied(Initial(c).rc.board.occupied);
  }

  lemma InitialDesk(c: Config)
    requires c.Valid()
    ensures DeskInv(c, Initial(c), NoHistory(c))
  {
    var w := Initial(c);
    InitialBooks(c);
    forall t
      ensures LeftFrom(w.gr, t) == {}
    {
    }
  }

  lemma InitialKitchen(c: Config)
    requires c.Valid()
    ensures KitchenInv(c, Initial(c), NoHistory(c))
  {
  }

  lemma InitialHolder(c: Config)
    requires c.Valid()
    ensures MutexInv(Initial(c), None) && Stats(Initial(c).gr, Initial(c).sh.groupStat)
  {
  }

  lemma InitialInv(c: Config)
    requires c.Valid()
    ensures Inv(c, Initial(c), NoHistory(c))
    ensures var sh := Initial(c).sh;
            && sh.receptionistStat == WAITING && sh.waiterStat == WAIT_FOR_REQUEST && sh.chefStat == WAIT_FOR_ORDER
            && (forall g :: 0 <= g < c.groups ==> sh.groupStat[g] == GOTOREST && sh.assignedTable[g] == -1)
  {
    InitialHolder(c);
    InitialDesk(c);
    InitialKitchen(c);
  }

  lemma StepKeeps(c: Config, w: World, p: Proc, h: Hist)
    requires Inv(c, w, h) && Enabled(w, p)
    ensures Inv(c, Next(c, w, p), Note(w, p, h))
  {
    match p
    case Group(g) => KeptByGroup.Kept(c, w, g, h);
    case Receptionist => KeptByReceptionist.Kept(c, w, h);
    case Waiter => KeptByWaiter.Kept(c, w, h);
    case Chef => KeptByChef.Kept(c, w, h);
  }

  lemma {:induction false} RunKeeps(c: Config, run: seq<Proc>)
    requires c.Valid() && Possible(c, run)
    ensures Inv(c, After(c, run).value, Log(c, run))
  {
    if run == [] {
      InitialInv(c);
    } else {
      var before, p := run[..|run| - 1], run[|run| - 1];
      RunKeeps(c, before);
      StepKeeps(c, After(c, before).value, p, Log(c, before));
    }
  }
}
