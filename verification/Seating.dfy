/** Consequences of the receptionist's invariants: who sits where. */
module Seating {
  import opened Rings
  import opened Tables
  import opened Restaurant
  import opened History
  import opened Invariants

  lemma AppendNew(s: seq<int>, x: int)
    requires NoRepeats(s) && x !in s
    ensures NoRepeats(s + [x])
  {
  }

  lemma {:induction false} NoRepeatsFits(s: seq<int>, n: nat)
    requires NoRepeats(s) && Ids(s, n)
    ensures |s| <= n
    ensures |s| == n ==> forall g :: 0 <= g < n ==> g in s
    decreases n
  {
    if |s| > 0 {
      assert 0 <= s[0] < n;
      if n - 1 in s {
        var i :| 0 <= i < |s| && s[i] == n - 1;
        var rest := s[..i] + s[i + 1..];
        NoRepeatsFits(rest, n - 1);
        assert forall g :: g in rest ==> g in s;
      } else {
        NoRepeatsFits(s, n - 1);
      }
    }
  }

  /** A group between being called and sending its bill sits at a table. */
  lemma SitsAtTable(c: Config, w: World, g: nat, h: Hist)
    requires g < |w.gr|
    requires DeskGroup(w.gr[g].pc, g, w.sh.deskMail, h.deskMail, h.desk)
    requires Fifo(c, w.rc, h.desk)
    requires TablesHeld(c, w.rc, w.sh.assignedTable, h.desk)
    requires TableTokens(w.gr, w.sems.waitForTable, w.rc, h.desk.seated)
    requires |w.sh.assignedTable| == |w.gr|
    requires G_AWAIT_TABLE < w.gr[g].pc <= G_BILL_POST
    ensures 0 <= w.sh.assignedTable[g] < c.tables && g !in h.desk.paid
  {
    assert g in h.desk.paid ==> g in h.desk.billReqs;
    assert TableToken(w.gr[g].pc, g, w.sems.waitForTable[g], w.rc, h.desk.seated);
  }

  lemma Sits(c: Config, w: World, g: nat, h: Hist)
    requires DeskInv(c, w, h) && g < |w.gr|
    requires G_AWAIT_TABLE < w.gr[g].pc <= G_BILL_POST
    ensures 0 <= w.sh.assignedTable[g] < c.tables
  {
    assert DeskGroup(w.gr[g].pc, g, w.sh.deskMail, h.deskMail, h.desk);
    SitsAtTable(c, w, g, h);
  }

  /** Different groups sit at different tables. */
  lemma OwnSeat(c: Config, w: World, h: Hist, g: nat, x: nat)
    requires TablesHeld(c, w.rc, w.sh.assignedTable, h.desk)
    requires g < |w.sh.assignedTable| && x < |w.sh.assignedTable| && g != x
    requires w.sh.assignedTable[g] >= 0
    ensures w.sh.assignedTable[g] != w.sh.assignedTable[x]
  {
    assert h.desk.occupant[w.sh.assignedTable[g]] == g;
  }

  /** No more groups can sit than there are tables. */
  lemma SeatedFit(c: Config, w: World, h: Hist, s: seq<int>)
    requires DeskInv(c, w, h) && NoRepeats(s) && Ids(s, |w.gr|)
    requires forall i :: 0 <= i < |s| ==> G_AWAIT_TABLE < w.gr[s[i]].pc <= G_BILL_POST
    ensures |s| <= c.tables
  {
    var seats := seq(|s|, i requires 0 <= i < |s| && Ids(s, |w.sh.assignedTable|) => w.sh.assignedTable[s[i]]);
    forall i | 0 <= i < |s|
      ensures 0 <= seats[i] < c.tables
    {
      Sits(c, w, s[i], h);
    }
    forall i, j | 0 <= i < j < |s|
      ensures seats[i] != seats[j]
    {
      OwnSeat(c, w, h, s[i], s[j]);
    }
    NoRepeatsFits(seats, c.tables);
  }
}
