/** How the semaphores' roles are laid out over the indices of one semaphore set, and how
    the deadlock report finds the role of an index again. */
module SemaphoreLayout {
  import opened Restaurant

  // WAITFORTABLE, FOODARRIVED, REQUESTRECEIVED, TABLEDONE and SEM_NU
  const WAITFORTABLE := 8

  function FoodArrivedBase(c: Config): int {
    WAITFORTABLE + c.groups
  }

  function RequestReceivedBase(c: Config): int {
    FoodArrivedBase(c) + c.tables
  }

  function TableDoneBase(c: Config): int {
    RequestReceivedBase(c) + c.tables
  }

  function SemaphoreCount(c: Config): int {
    7 + c.groups + 3 * c.tables
  }

  /** A role that exists in this configuration. */
  predicate Exists(c: Config, s: Sem) {
    match s
    case WaitForTable(g) => 0 <= g < c.groups
    case RequestReceived(t) => 0 <= t < c.tables
    case FoodArrived(t) => 0 <= t < c.tables
    case TableDone(t) => 0 <= t < c.tables
    case _ => true
  }

  function IdOf(c: Config, s: Sem): int {
    match s
    case Mutex => 1
    case DeskReq => 2
    case DeskPossible => 3
    case WaiterReq => 4
    case WaiterPossible => 5
    case WaitOrder => 6
    case OrderReceived => 7
    case WaitForTable(g) => WAITFORTABLE + g
    case FoodArrived(t) => FoodArrivedBase(c) + t
    case RequestReceived(t) => RequestReceivedBase(c) + t
    case TableDone(t) => TableDoneBase(c) + t
  }

  /** What get_semaphore_name makes of an index. */
  datatype Name = Role(sem: Sem) | NullBug | Unknown

  function NameOf(c: Config, index: int): Name {
    if index == 0 then NullBug
    else if index == 1 then Role(Mutex)
    else if index == 2 then Role(DeskReq)
    else if index == 3 then Role(DeskPossible)
    else if index == 4 then Role(WaiterReq)
    else if index == 5 then Role(WaiterPossible)
    else if index == 6 then Role(WaitOrder)
    else if index == 7 then Role(OrderReceived)
    else if WAITFORTABLE <= index < FoodArrivedBase(c) then Role(WaitForTable(index - WAITFORTABLE))
    else if FoodArrivedBase(c) <= index < RequestReceivedBase(c) then Role(FoodArrived(index - FoodArrivedBase(c)))
    else if RequestReceivedBase(c) <= index < TableDoneBase(c) then Role(RequestReceived(index - RequestReceivedBase(c)))
    else if TableDoneBase(c) <= index < TableDoneBase(c) + c.tables then Role(TableDone(index - TableDoneBase(c)))
    else Unknown
  }

  /** The layout is a bijection between the roles and 1..SEM_NU, and naming inverts it. */
  lemma LayoutIsBijection(c: Config)
    ensures forall s :: Exists(c, s) ==> 1 <= IdOf(c, s) <= SemaphoreCount(c) && NameOf(c, IdOf(c, s)) == Role(s)
    ensures forall s, s' :: Exists(c, s) && Exists(c, s') && IdOf(c, s) == IdOf(c, s') ==> s == s'
    ensures forall i :: 1 <= i <= SemaphoreCount(c) <==> NameOf(c, i).Role?
    ensures forall i :: NameOf(c, i).Role? ==> Exists(c, NameOf(c, i).sem) && IdOf(c, NameOf(c, i).sem) == i
  {
    forall s | Exists(c, s)
      ensures NameOf(c, IdOf(c, s)) == Role(s)
    {
    }
  }

  /** The roles of 0 to 7, and of the ranges that follow: groups, then tables three times. */
  lemma RolesInOrder(c: Config)
    ensures NameOf(c, 0) == NullBug && NameOf(c, SemaphoreCount(c) + 1) == Unknown
    ensures seq(7, i => NameOf(c, i + 1)) == [Role(Mutex), Role(DeskReq), Role(DeskPossible), Role(WaiterReq),
                                              Role(WaiterPossible), Role(WaitOrder), Role(OrderReceived)]
    ensures forall g :: 0 <= g < c.groups ==> NameOf(c, 8 + g) == Role(WaitForTable(g))
    ensures forall t :: 0 <= t < c.tables ==> NameOf(c, 8 + c.groups + t) == Role(FoodArrived(t))
    ensures forall t :: 0 <= t < c.tables ==> NameOf(c, 8 + c.groups + c.tables + t) == Role(RequestReceived(t))
    ensures forall t :: 0 <= t < c.tables ==> NameOf(c, 8 + c.groups + 2 * c.tables + t) == Role(TableDone(t))
  {
    var fixed := seq(7, i => NameOf(c, i + 1));
    assert fixed == [fixed[0], fixed[1], fixed[2], fixed[3], fixed[4], fixed[5], fixed[6]];
  }

  lemma RoleAt(c: Config, k: nat)
    ensures k < c.groups ==> NameOf(c, 8 + k) == Role(WaitForTable(k))
    ensures k < c.tables ==> NameOf(c, 8 + c.groups + k) == Role(FoodArrived(k))
    ensures k < c.tables ==> NameOf(c, 8 + c.groups + c.tables + k) == Role(RequestReceived(k))
    ensures k < c.tables ==> NameOf(c, 8 + c.groups + 2 * c.tables + k) == Role(TableDone(k))
  {
  }

  /** The index arrays that main fills in before it creates the semaphore set. */
  method FillIds(c: Config, maxGroups: nat)
    returns (waitForTable: array<int>, foodArrived: array<int>, requestReceived: array<int>, tableDone: array<int>)
    requires c.groups <= maxGroups
    ensures fresh(waitForTable) && fresh(foodArrived) && fresh(requestReceived) && fresh(tableDone)
    ensures waitForTable.Length == maxGroups && foodArrived.Length == requestReceived.Length == tableDone.Length == c.tables
    ensures forall g :: 0 <= g < c.groups ==> waitForTable[g] == 8 + g
    ensures forall t :: 0 <= t < c.tables ==>
              foodArrived[t] == 8 + c.groups + t
    ensures forall t :: 0 <= t < c.tables ==>
              requestReceived[t] == 8 + c.groups + c.tables + t
    ensures forall t :: 0 <= t < c.tables ==>
              tableDone[t] == 8 + c.groups + 2 * c.tables + t
  {
    waitForTable := new int[maxGroups];
    foodArrived, requestReceived, tableDone := new int[c.tables], new int[c.tables], new int[c.tables];
    for g := 0 to c.groups
      invariant forall i :: 0 <= i < g ==> waitForTable[i] == WAITFORTABLE + i
    {
      waitForTable[g] := WAITFORTABLE + g;
    }
    for t := 0 to c.tables
      invariant forall i :: 0 <= i < t ==> foodArrived[i] == FoodArrivedBase(c) + i
      invariant forall i :: 0 <= i < t ==> requestReceived[i] == RequestReceivedBase(c) + i
      invariant forall i :: 0 <= i < t ==> tableDone[i] == TableDoneBase(c) + i
      invariant forall i :: 0 <= i < c.groups ==> waitForTable[i] == WAITFORTABLE + i
    {
      foodArrived[t] := FoodArrivedBase(c) + t;
      tableDone[t] := TableDoneBase(c) + t;
      requestReceived[t] := RequestReceivedBase(c) + t;
    }
  }

  /** Every id filled in decodes to its own role. */
  method AssignIds(c: Config, maxGroups: nat)
    returns (waitForTable: array<int>, foodArrived: array<int>, requestReceived: array<int>, tableDone: array<int>)
    requires c.groups <= maxGroups
    ensures fresh(waitForTable) && fresh(foodArrived) && fresh(requestReceived) && fresh(tableDone)
    ensures waitForTable.Length == maxGroups && foodArrived.Length == requestReceived.Length == tableDone.Length == c.tables
    ensures forall g :: 0 <= g < c.groups ==> waitForTable[g] == 8 + g && NameOf(c, waitForTable[g]) == Role(WaitForTable(g))
    ensures forall t :: 0 <= t < c.tables ==>
              foodArrived[t] == 8 + c.groups + t && NameOf(c, foodArrived[t]) == Role(FoodArrived(t))
    ensures forall t :: 0 <= t < c.tables ==>
              requestReceived[t] == 8 + c.groups + c.tables + t && NameOf(c, requestReceived[t]) == Role(RequestReceived(t))
    ensures forall t :: 0 <= t < c.tables ==>
              tableDone[t] == 8 + c.groups + 2 * c.tables + t && NameOf(c, tableDone[t]) == Role(TableDone(t))
  {
    waitForTable, foodArrived, requestReceived, tableDone := FillIds(c, maxGroups);
    forall k: nat | k < c.groups
      ensures NameOf(c, waitForTable[k]) == Role(WaitForTable(k))
    {
      RoleAt(c, k);
    }
    forall k: nat | k < c.tables
      ensures NameOf(c, foodArrived[k]) == Role(FoodArrived(k))
      ensures NameOf(c, requestReceived[k]) == Role(RequestReceived(k))
      ensures NameOf(c, tableDone[k]) == Role(TableDone(k))
    {
      RoleAt(c, k);
    }
  }
}
