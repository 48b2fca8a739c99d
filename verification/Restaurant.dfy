/** The restaurant as a transition system: n groups, a receptionist, a waiter and a chef
    share memory and counting semaphores. Each process has a location; every semaphore
    operation and every access to shared memory is one step, and the scheduler picks
    which process steps next. */
module Restaurant {
  import opened Rings
  import opened Tables

  /** groups = nGroups, tables = NUMTABLES (2 as shipped), maxGroups = MAXGROUPS (16). */
  datatype Config = Config(groups: nat, tables: nat, maxGroups: nat) {
    predicate Valid() {
      groups <= maxGroups && 1 <= tables && 3 <= maxGroups
    }

    /** Number of one-byte slots of the waiting list: (MAXGROUPS-2) * sizeof(int). */
    function WaitSlots(): int {
      (maxGroups - 2) * 4
    }
  }

  const TABLEREQ := 1
  const BILLREQ := 2
  const FOODREQ := 3
  const FOODREADY := 4

  datatype Request = Request(kind: int, group: int)

  datatype Proc = Group(id: nat) | Receptionist | Waiter | Chef

  // Semaphores

  datatype Sem =
    | Mutex
    | DeskReq           // receptionistReq
    | DeskPossible      // receptionistRequestPossible
    | WaiterReq         // waiterRequest
    | WaiterPossible    // waiterRequestPossible
    | WaitOrder
    | OrderReceived
    | WaitForTable(group: int)
    | RequestReceived(table: int)
    | FoodArrived(table: int)
    | TableDone(table: int)

  datatype Sems = Sems(mutex: nat, deskReq: nat, deskPossible: nat, waiterReq: nat, waiterPossible: nat,
                       waitOrder: nat, orderReceived: nat, waitForTable: seq<nat>,
                       requestReceived: seq<nat>, foodArrived: seq<nat>, tableDone: seq<nat>)

  function Value(v: Sems, s: Sem): nat {
    match s
    case Mutex => v.mutex
    case DeskReq => v.deskReq
    case DeskPossible => v.deskPossible
    case WaiterReq => v.waiterReq
    case WaiterPossible => v.waiterPossible
    case WaitOrder => v.waitOrder
    case OrderReceived => v.orderReceived
    case WaitForTable(g) => At(v.waitForTable, g, 0)
    case RequestReceived(t) => At(v.requestReceived, t, 0)
    case FoodArrived(t) => At(v.foodArrived, t, 0)
    case TableDone(t) => At(v.tableDone, t, 0)
  }

  function Set(v: Sems, s: Sem, k: nat): Sems {
    match s
    case Mutex => v.(mutex := k)
    case DeskReq => v.(deskReq := k)
    case DeskPossible => v.(deskPossible := k)
    case WaiterReq => v.(waiterReq := k)
    case WaiterPossible => v.(waiterPossible := k)
    case WaitOrder => v.(waitOrder := k)
    case OrderReceived => v.(orderReceived := k)
    case WaitForTable(g) => v.(waitForTable := Put(v.waitForTable, g, k))
    case RequestReceived(t) => v.(requestReceived := Put(v.requestReceived, t, k))
    case FoodArrived(t) => v.(foodArrived := Put(v.foodArrived, t, k))
    case TableDone(t) => v.(tableDone := Put(v.tableDone, t, k))
  }

  /** What the instruction at a location does to the semaphores; Halt has no successor. */
  datatype Op = Down(sem: Sem) | Up(sem: Sem) | Local | Halt

  predicate Ready(v: Sems, op: Op) {
    match op
    case Down(s) => Value(v, s) > 0
    case Up(_) => true
    case Local => true
    case Halt => false
  }

  function Perform(v: Sems, op: Op): Sems
    requires Ready(v, op)
  {
    match op
    case Down(s) => Set(v, s, Value(v, s) - 1)
    case Up(s) => Set(v, s, Value(v, s) + 1)
    case Local => v
  }

  // Shared memory and the processes' own variables

  datatype GroupStat = GOTOREST | ATRECEPTION | FOOD_REQUEST | WAIT_FOR_FOOD | EAT | CHECKOUT | LEAVING
  datatype ChefStat = WAIT_FOR_ORDER | COOK | REST
  datatype WaiterStat = WAIT_FOR_REQUEST | INFORM_CHEF | TAKE_TO_TABLE
  datatype ReceptionistStat = WAITING | ASSIGNTABLE | RECVPAY

  datatype Shared = Shared(groupStat: seq<GroupStat>, receptionistStat: ReceptionistStat,
                           waiterStat: WaiterStat, chefStat: ChefStat, assignedTable: seq<int>,
                           foodOrder: bool, foodGroup: int, deskMail: Request, waiterMail: Request)

  datatype GroupState = GroupState(pc: int, table: int)

  /** waiting.len is the shared groupsWaiting, which only the receptionist touches. */
  datatype ReceptionistState = ReceptionistState(pc: int, req: Request, arg: int, table: int, nReq: int,
                                                 board: Board, waiting: Ring<int>)

  datatype WaiterState = WaiterState(pc: int, busy: bool, cur: int, incoming: Request, table: int, nReq: int,
                                     queue: Ring<Request>)

  datatype ChefState = ChefState(pc: int, lastGroup: int, nOrders: int)

  datatype World = World(sems: Sems, sh: Shared, gr: seq<GroupState>, rc: ReceptionistState,
                         wt: WaiterState, ch: ChefState)

  // Locations of a group, in program order

  const G_DESK_LOCK := 0      // checkInAtReception
  const G_DESK_STAT := 1
  const G_DESK_UNLOCK := 2
  const G_ASK_ACQUIRE := 3
  const G_ASK_WRITE := 4
  const G_ASK_POST := 5
  const G_AWAIT_TABLE := 6
  const G_ORDER_LOCK := 7     // orderFood
  const G_ORDER_STAT := 8
  const G_ORDER_UNLOCK := 9
  const G_FOOD_ACQUIRE := 10
  const G_FOOD_WRITE := 11
  const G_FOOD_POST := 12
  const G_ORDER_TABLE := 13
  const G_AWAIT_ACK := 14
  const G_WAIT_LOCK := 15     // waitFood
  const G_WAIT_STAT := 16
  const G_WAIT_UNLOCK := 17
  const G_WAIT_TABLE := 18
  const G_AWAIT_FOOD := 19
  const G_EAT_LOCK := 20
  const G_EAT_STAT := 21
  const G_EAT_UNLOCK := 22
  const G_PAY_TABLE := 23     // eat, then checkOutAtReception
  const G_PAY_LOCK := 24
  const G_PAY_STAT := 25
  const G_PAY_UNLOCK := 26
  const G_BILL_ACQUIRE := 27
  const G_BILL_WRITE := 28
  const G_BILL_POST := 29
  const G_AWAIT_DONE := 30
  const G_LEAVE_LOCK := 31
  const G_LEAVE_STAT := 32
  const G_LEAVE_UNLOCK := 33
  const G_DONE := 34

  function GroupOp(me: GroupState, g: int): Op {
    if me.pc in {G_DESK_LOCK, G_ORDER_LOCK, G_WAIT_LOCK, G_EAT_LOCK, G_PAY_LOCK, G_LEAVE_LOCK} then Down(Mutex)
    else if me.pc in {G_DESK_UNLOCK, G_ORDER_UNLOCK, G_WAIT_UNLOCK, G_EAT_UNLOCK, G_PAY_UNLOCK, G_LEAVE_UNLOCK} then Up(Mutex)
    else if me.pc == G_ASK_ACQUIRE || me.pc == G_BILL_ACQUIRE then Down(DeskPossible)
    else if me.pc == G_ASK_POST || me.pc == G_BILL_POST then Up(DeskReq)
    else if me.pc == G_AWAIT_TABLE then Down(WaitForTable(g))
    else if me.pc == G_FOOD_ACQUIRE then Down(WaiterPossible)
    else if me.pc == G_FOOD_POST then Up(WaiterReq)
    else if me.pc == G_AWAIT_ACK then Down(RequestReceived(me.table))
    else if me.pc == G_AWAIT_FOOD then Down(FoodArrived(me.table))
    else if me.pc == G_AWAIT_DONE then Down(TableDone(me.table))
    else if me.pc == G_DONE then Halt
    else Local
  }

  function GroupMove(me: GroupState, g: int, sh: Shared): GroupState {
    GroupState(me.pc + 1,
               if me.pc == G_ORDER_TABLE || me.pc == G_WAIT_TABLE || me.pc == G_PAY_TABLE
               then At(sh.assignedTable, g, -1) else me.table)
  }

  function GroupWrite(pc: int, g: int, sh: Shared): Shared {
    if pc == G_DESK_STAT then sh.(groupStat := Put(sh.groupStat, g, ATRECEPTION))
    else if pc == G_ASK_WRITE then sh.(deskMail := Request(TABLEREQ, g))
    else if pc == G_ORDER_STAT then sh.(groupStat := Put(sh.groupStat, g, FOOD_REQUEST))
    else if pc == G_FOOD_WRITE then sh.(waiterMail := Request(FOODREQ, g))
    else if pc == G_WAIT_STAT then sh.(groupStat := Put(sh.groupStat, g, WAIT_FOR_FOOD))
    else if pc == G_EAT_STAT then sh.(groupStat := Put(sh.groupStat, g, EAT))
    else if pc == G_PAY_STAT then sh.(groupStat := Put(sh.groupStat, g, CHECKOUT))
    else if pc == G_BILL_WRITE then sh.(deskMail := Request(BILLREQ, g))
    else if pc == G_LEAVE_STAT then sh.(groupStat := Put(sh.groupStat, g, LEAVING))
    else sh
  }

  // Locations of the receptionist

  const R_HEAD := 0           // loop test
  const R_WAIT_LOCK := 1      // waitForGroup
  const R_WAIT_STAT := 2
  const R_WAIT_UNLOCK := 3
  const R_GET := 4
  const R_READ := 5
  const R_RELEASE := 6
  const R_ASSIGN_LOCK := 7    // provideTableOrWaitingRoom
  const R_ASSIGN_STAT := 8
  const R_ASSIGN_UNLOCK := 9
  const R_DECIDE := 10
  const R_SEAT := 11
  const R_PAY_LOCK := 12      // receivePayment
  const R_PAY_STAT := 13
  const R_PAY_UNLOCK := 14
  const R_PAY_TABLE := 15
  const R_PAY_FREE := 16
  const R_PAY_SIGNAL := 17
  const R_PAY_NEXT := 18
  const R_DONE := 19
  const R_BUG := 20           // "Table not found!"
  const R_STUCK := 21

  function ReceptionistOp(me: ReceptionistState): Op {
    if me.pc in {R_WAIT_LOCK, R_ASSIGN_LOCK, R_PAY_LOCK, R_BUG} then Down(Mutex)
    else if me.pc in {R_WAIT_UNLOCK, R_ASSIGN_UNLOCK, R_PAY_UNLOCK} then Up(Mutex)
    else if me.pc == R_GET then Down(DeskReq)
    else if me.pc == R_RELEASE then Up(DeskPossible)
    else if me.pc == R_SEAT then Up(WaitForTable(me.arg))
    else if me.pc == R_PAY_SIGNAL then Up(TableDone(me.table))
    else if me.pc == R_DONE || me.pc == R_STUCK then Halt
    else Local
  }

  function NextRequest(me: ReceptionistState): ReceptionistState {
    me.(pc := R_HEAD, nReq := me.nReq + 1)
  }

  function ReceptionistMove(c: Config, me: ReceptionistState, sh: Shared): ReceptionistState {
    if me.pc == R_HEAD then
      me.(pc := if me.nReq < 2 * c.groups then R_WAIT_LOCK else R_DONE)
    else if me.pc == R_READ then
      me.(pc := R_RELEASE, req := sh.deskMail)
    else if me.pc == R_RELEASE then
      if me.req.kind == TABLEREQ then me.(pc := R_ASSIGN_LOCK, arg := me.req.group)
      else if me.req.kind == BILLREQ then me.(pc := R_PAY_LOCK, arg := me.req.group)
      else NextRequest(me)
    else if me.pc == R_DECIDE then
      var t := Decide(me.board);
      if t > -1 then me.(pc := R_SEAT, board := Occupy(me.board, t))
      else NextRequest(me.(waiting := Push(me.waiting, me.arg)))
    else if me.pc == R_SEAT then
      NextRequest(me)
    else if me.pc == R_PAY_TABLE then
      var t := At(sh.assignedTable, me.arg, -1);
      me.(pc := if t < 0 then R_BUG else R_PAY_FREE, table := t)
    else if me.pc == R_PAY_FREE then
      me.(pc := R_PAY_SIGNAL, board := Vacate(me.board, me.table))
    else if me.pc == R_PAY_NEXT then
      if me.waiting.len != 0 then
        var g := Front(me.waiting, -1);
        var me' := me.(arg := g, waiting := Pop(me.waiting));
        if g > -1 then me'.(pc := R_ASSIGN_LOCK) else NextRequest(me')
      else NextRequest(me)
    else
      me.(pc := me.pc + 1)
  }

  function ReceptionistWrite(me: ReceptionistState, sh: Shared): Shared {
    if me.pc == R_WAIT_STAT then sh.(receptionistStat := WAITING)
    else if me.pc == R_ASSIGN_STAT then sh.(receptionistStat := ASSIGNTABLE)
    else if me.pc == R_PAY_STAT then sh.(receptionistStat := RECVPAY)
    else if me.pc == R_DECIDE && Decide(me.board) > -1 then
      sh.(assignedTable := Put(sh.assignedTable, me.arg, Decide(me.board)))
    else if me.pc == R_PAY_FREE then sh.(assignedTable := Put(sh.assignedTable, me.arg, -1))
    else sh
  }

  // Locations of the waiter

  const W_HEAD := 0           // loop test
  const W_BUSY := 1           // waitForClientOrChef
  const W_LOOP := 2
  const W_WAIT_LOCK := 3
  const W_WAIT_STAT := 4
  const W_WAIT_UNLOCK := 5
  const W_GET := 6
  const W_READ := 7
  const W_RELEASE := 8
  const W_INFORM_LOCK := 9    // informChef
  const W_INFORM_GROUP := 10
  const W_INFORM_ORDER := 11
  const W_INFORM_STAT := 12
  const W_INFORM_UNLOCK := 13
  const W_INFORM_POST := 14
  const W_INFORM_AWAIT := 15
  const W_INFORM_TABLE := 16
  const W_INFORM_ACK := 17
  const W_TAKE_LOCK := 18     // takeFoodToTable
  const W_TAKE_STAT := 19
  const W_TAKE_TABLE := 20
  const W_TAKE_UNLOCK := 21
  const W_TAKE_CLEAR := 22
  const W_TAKE_FOOD := 23
  const W_DONE := 24
  const W_BUG := 25           // "Wrong request."
  const W_STUCK := 26

  function WaiterOp(me: WaiterState): Op {
    if me.pc in {W_WAIT_LOCK, W_INFORM_LOCK, W_TAKE_LOCK, W_BUG} then Down(Mutex)
    else if me.pc in {W_WAIT_UNLOCK, W_INFORM_UNLOCK, W_TAKE_UNLOCK} then Up(Mutex)
    else if me.pc == W_GET then Down(WaiterReq)
    else if me.pc == W_RELEASE then Up(WaiterPossible)
    else if me.pc == W_INFORM_POST then Up(WaitOrder)
    else if me.pc == W_INFORM_AWAIT then Down(OrderReceived)
    else if me.pc == W_INFORM_ACK then Up(RequestReceived(me.table))
    else if me.pc == W_TAKE_FOOD then Up(FoodArrived(me.table))
    else if me.pc == W_DONE || me.pc == W_STUCK then Halt
    else Local
  }

  function NextErrand(me: WaiterState): WaiterState {
    me.(pc := W_HEAD, nReq := me.nReq + 1)
  }

  /** The waiter's main loop acts on the request that waitForClientOrChef returned. */
  function Dispatch(me: WaiterState, out: Request): WaiterState {
    if out.kind == FOODREQ then me.(pc := W_INFORM_LOCK, cur := out.group)
    else if out.kind == FOODREADY then me.(pc := W_TAKE_LOCK, cur := out.group)
    else NextErrand(me)
  }

  function WaiterMove(c: Config, me: WaiterState, sh: Shared): WaiterState {
    if me.pc == W_HEAD then
      me.(pc := if me.nReq < 2 * c.groups then W_BUSY else W_DONE)
    else if me.pc == W_BUSY then
      me.(pc := W_LOOP, busy := sh.foodOrder)
    else if me.pc == W_LOOP then
      if me.queue.len > 0 && !me.busy then
        Dispatch(me.(queue := Pop(me.queue)), Front(me.queue, Request(-1, -1)))
      else
        me.(pc := if sh.waiterStat != WAIT_FOR_REQUEST then W_WAIT_LOCK else W_GET)
    else if me.pc == W_READ then
      me.(pc := W_RELEASE, incoming := sh.waiterMail)
    else if me.pc == W_RELEASE then
      if me.incoming.kind == FOODREQ then me.(pc := W_LOOP, queue := Push(me.queue, me.incoming))
      else if me.incoming.kind == FOODREADY then Dispatch(me, me.incoming)
      else me.(pc := W_BUG)
    else if me.pc == W_INFORM_TABLE || me.pc == W_TAKE_TABLE then
      me.(pc := me.pc + 1, table := At(sh.assignedTable, me.cur, -1))
    else if me.pc == W_INFORM_ACK || me.pc == W_TAKE_FOOD then
      NextErrand(me)
    else
      me.(pc := me.pc + 1)
  }

  function WaiterWrite(me: WaiterState, sh: Shared): Shared {
    if me.pc == W_WAIT_STAT then sh.(waiterStat := WAIT_FOR_REQUEST)
    else if me.pc == W_INFORM_GROUP then sh.(foodGroup := me.cur)
    else if me.pc == W_INFORM_ORDER then sh.(foodOrder := true)
    else if me.pc == W_INFORM_STAT then sh.(waiterStat := INFORM_CHEF)
    else if me.pc == W_TAKE_STAT then sh.(waiterStat := TAKE_TO_TABLE)
    else if me.pc == W_TAKE_CLEAR then sh.(foodOrder := false)
    else sh
  }

  // Locations of the chef

  const C_HEAD := 0           // loop test
  const C_WAIT_LOCK := 1      // waitForOrder
  const C_WAIT_STAT := 2
  const C_WAIT_UNLOCK := 3
  const C_AWAIT := 4
  const C_READ := 5
  const C_ACK := 6
  const C_COOK_LOCK := 7      // processOrder
  const C_COOK_STAT := 8
  const C_COOK_UNLOCK := 9
  const C_REST_LOCK := 10
  const C_REST_STAT := 11
  const C_REST_UNLOCK := 12
  const C_READY_ACQUIRE := 13
  const C_READY_WRITE := 14
  const C_READY_POST := 15
  const C_DONE := 16

  function ChefOp(me: ChefState): Op {
    if me.pc in {C_WAIT_LOCK, C_COOK_LOCK, C_REST_LOCK} then Down(Mutex)
    else if me.pc in {C_WAIT_UNLOCK, C_COOK_UNLOCK, C_REST_UNLOCK} then Up(Mutex)
    else if me.pc == C_AWAIT then Down(WaitOrder)
    else if me.pc == C_ACK then Up(OrderReceived)
    else if me.pc == C_READY_ACQUIRE then Down(WaiterPossible)
    else if me.pc == C_READY_POST then Up(WaiterReq)
    else if me.pc == C_DONE then Halt
    else Local
  }

  function NextOrder(me: ChefState): ChefState {
    me.(pc := C_HEAD, nOrders := me.nOrders + 1)
  }

  function ChefMove(c: Config, me: ChefState, sh: Shared): ChefState {
    if me.pc == C_HEAD then me.(pc := if me.nOrders < c.groups then C_WAIT_LOCK else C_DONE)
    else if me.pc == C_WAIT_UNLOCK then me.(pc := C_AWAIT, lastGroup := -1)
    else if me.pc == C_READ then me.(pc := C_ACK, lastGroup := sh.foodGroup)
    else if me.pc == C_ACK then if me.lastGroup < 0 then NextOrder(me) else me.(pc := C_COOK_LOCK)
    else if me.pc == C_READY_WRITE then me.(pc := C_READY_POST, lastGroup := 0xFFFF)
    else if me.pc == C_READY_POST then NextOrder(me)
    else me.(pc := me.pc + 1)
  }

  function ChefWrite(me: ChefState, sh: Shared): Shared {
    if me.pc == C_WAIT_STAT then sh.(chefStat := WAIT_FOR_ORDER)
    else if me.pc == C_COOK_STAT then sh.(chefStat := COOK)
    else if me.pc == C_REST_STAT then sh.(chefStat := REST)
    else if me.pc == C_READY_WRITE then sh.(waiterMail := Request(FOODREADY, me.lastGroup))
    else sh
  }

  // Steps and runs

  function Initial(c: Config): World
    requires c.Valid()
  {
    World(Sems(1, 0, 1, 0, 1, 0, 0, seq(c.groups, _ => 0), seq(c.tables, _ => 0), seq(c.tables, _ => 0), seq(c.tables, _ => 0)),
          Shared(seq(c.groups, _ => GOTOREST), WAITING, WAIT_FOR_REQUEST, WAIT_FOR_ORDER, seq(c.groups, _ => -1),
                 false, 0, Request(0, 0), Request(0, 0)),
          seq(c.groups, _ => GroupState(G_DESK_LOCK, 0)),
          ReceptionistState(R_HEAD, Request(0, 0), 0, 0, 0, Board(seq(c.tables, _ => false), 0, 0),
                            Ring(seq(c.WaitSlots(), _ => 0), 0, 0, 0)),
          WaiterState(W_HEAD, false, 0, Request(0, 0), 0, 0, Ring(seq(c.tables, _ => Request(0, 0)), 0, 0, 0)),
          ChefState(C_HEAD, 0, 0))
  }

  function OpOf(w: World, p: Proc): Op {
    match p
    case Group(g) => if g < |w.gr| then GroupOp(w.gr[g], g) else Halt
    case Receptionist => ReceptionistOp(w.rc)
    case Waiter => WaiterOp(w.wt)
    case Chef => ChefOp(w.ch)
  }

  predicate Enabled(w: World, p: Proc) {
    Ready(w.sems, OpOf(w, p))
  }

  function GroupNext(w: World, g: nat): World
    requires g < |w.gr| && Ready(w.sems, GroupOp(w.gr[g], g))
  {
    var me := w.gr[g];
    w.(sems := Perform(w.sems, GroupOp(me, g)), sh := GroupWrite(me.pc, g, w.sh), gr := w.gr[g := GroupMove(me, g, w.sh)])
  }

  function ReceptionistNext(c: Config, w: World): World
    requires Ready(w.sems, ReceptionistOp(w.rc))
  {
    w.(sems := Perform(w.sems, ReceptionistOp(w.rc)), sh := ReceptionistWrite(w.rc, w.sh), rc := ReceptionistMove(c, w.rc, w.sh))
  }

  function WaiterNext(c: Config, w: World): World
    requires Ready(w.sems, WaiterOp(w.wt))
  {
    w.(sems := Perform(w.sems, WaiterOp(w.wt)), sh := WaiterWrite(w.wt, w.sh), wt := WaiterMove(c, w.wt, w.sh))
  }

  function ChefNext(c: Config, w: World): World
    requires Ready(w.sems, ChefOp(w.ch))
  {
    w.(sems := Perform(w.sems, ChefOp(w.ch)), sh := ChefWrite(w.ch, w.sh), ch := ChefMove(c, w.ch, w.sh))
  }

  function Next(c: Config, w: World, p: Proc): World
    requires Enabled(w, p)
  {
    match p
    case Group(g) => GroupNext(w, g)
    case Receptionist => ReceptionistNext(c, w)
    case Waiter => WaiterNext(c, w)
    case Chef => ChefNext(c, w)
  }

  /** Every process has left its loop or come to the end of its life cycle. */
  predicate AllDone(w: World) {
    && (forall g :: 0 <= g < |w.gr| ==> w.gr[g].pc == G_DONE)
    && w.rc.pc == R_DONE && w.wt.pc == W_DONE && w.ch.pc == C_DONE
  }

  ghost predicate Stuck(w: World) {
    forall p :: !Enabled(w, p)
  }
}
