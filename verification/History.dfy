/** Runs of the restaurant and what an observer writes down about them. The log is a
    fold over the schedule: it never influences which steps are possible. */
module History {
  import opened Rings
  import opened Tables
  import opened Restaurant

  datatype Option<A> = None | Some(value: A)

  /** Where a one-slot mailbox is in its cycle: free, being written by p, written but not yet
      announced by p, announced, taken by the reader, read but not yet handed back. */
  datatype Turn = Free | Writing(p: Proc) | Written(p: Proc) | Full | Taken | Read

  /** Where the single outstanding food order is. */
  datatype Stage = Idle | Telling | Posted | Reading | Noted | Cooking | Prepared | Returned | Carrying

  /** A mailbox: whose turn it is, every request written to it and every request read from it. */
  datatype MailLog = MailLog(turn: Turn, sent: seq<Request>, read: seq<Request>)

  datatype DeskLog = DeskLog(
    tableReqs: seq<int>,      // groups whose TABLEREQ was read
    billReqs: seq<int>,       // groups whose BILLREQ was read
    seated: seq<int>,         // groups given a table
    seatedAt: seq<int>,       // and the tables they were given
    paid: seq<int>,           // groups whose payment was processed
    paidAt: seq<int>,         // and the tables they left
    enqueued: seq<int>,       // groups ever put on the waiting list
    waitlist: seq<int>,       // groups on the waiting list
    occupant: seq<int>)       // per table, the group seated there or -1

  datatype KitchenLog = KitchenLog(
    foodReqs: seq<int>,       // groups whose FOODREQ was read
    queue: seq<int>,          // groups in the waiter's queue
    informed: seq<int>,       // groups whose order was handed to the chef
    cooked: seq<int>,         // groups whose order the chef read
    acked: seq<int>,          // groups told that their order was received
    delivered: seq<int>,      // groups whose food was brought
    stage: Stage)

  datatype Hist = Hist(holder: Option<Proc>, deskMail: MailLog, desk: DeskLog, waiterMail: MailLog, kitchen: KitchenLog)

  function NoHistory(c: Config): Hist {
    Hist(None,
         MailLog(Free, [], []), DeskLog([], [], [], [], [], [], [], [], seq(c.tables, _ => -1)),
         MailLog(Free, [], []), KitchenLog([], [], [], [], [], [], Idle))
  }

  function NoteHolder(op: Op, p: Proc, holder: Option<Proc>): Option<Proc> {
    if op == Down(Mutex) then Some(p) else if op == Up(Mutex) then None else holder
  }

  function GroupNotesDesk(pc: int, g: nat, m: MailLog): MailLog {
    if pc == G_ASK_ACQUIRE || pc == G_BILL_ACQUIRE then m.(turn := Writing(Group(g)))
    else if pc == G_ASK_WRITE then m.(turn := Written(Group(g)), sent := m.sent + [Request(TABLEREQ, g)])
    else if pc == G_BILL_WRITE then m.(turn := Written(Group(g)), sent := m.sent + [Request(BILLREQ, g)])
    else if pc == G_ASK_POST || pc == G_BILL_POST then m.(turn := Full)
    else m
  }

  function GroupNotesWaiter(pc: int, g: nat, m: MailLog): MailLog {
    if pc == G_FOOD_ACQUIRE then m.(turn := Writing(Group(g)))
    else if pc == G_FOOD_WRITE then m.(turn := Written(Group(g)), sent := m.sent + [Request(FOODREQ, g)])
    else if pc == G_FOOD_POST then m.(turn := Full)
    else m
  }

  function ReceptionistNotesMail(pc: int, mail: Request, m: MailLog): MailLog {
    if pc == R_GET then m.(turn := Taken)
    else if pc == R_READ then m.(turn := Read, read := m.read + [mail])
    else if pc == R_RELEASE then m.(turn := Free)
    else m
  }

  function ReceptionistNotes(me: ReceptionistState, mail: Request, d: DeskLog): DeskLog {
    if me.pc == R_READ then
      d.(tableReqs := if mail.kind == TABLEREQ then d.tableReqs + [mail.group] else d.tableReqs,
         billReqs := if mail.kind == BILLREQ then d.billReqs + [mail.group] else d.billReqs)
    else if me.pc == R_DECIDE then
      var t := Decide(me.board);
      if t > -1 then d.(seated := d.seated + [me.arg], seatedAt := d.seatedAt + [t], occupant := Put(d.occupant, t, me.arg))
      else d.(waitlist := d.waitlist + [me.arg], enqueued := d.enqueued + [me.arg])
    else if me.pc == R_PAY_FREE then
      d.(paid := d.paid + [me.arg], paidAt := d.paidAt + [me.table], occupant := Put(d.occupant, me.table, -1))
    else if me.pc == R_PAY_NEXT && me.waiting.len != 0 && d.waitlist != [] then
      d.(waitlist := d.waitlist[1..])
    else d
  }

  function WaiterNotesMail(pc: int, mail: Request, m: MailLog): MailLog {
    if pc == W_GET then m.(turn := Taken)
    else if pc == W_READ then m.(turn := Read, read := m.read + [mail])
    else if pc == W_RELEASE then m.(turn := Free)
    else m
  }

  function WaiterNotes(me: WaiterState, mail: Request, k: KitchenLog): KitchenLog {
    if me.pc == W_LOOP && me.queue.len > 0 && !me.busy && k.queue != [] then
      k.(queue := k.queue[1..])
    else if me.pc == W_READ then
      k.(foodReqs := if mail.kind == FOODREQ then k.foodReqs + [mail.group] else k.foodReqs,
         stage := if mail.kind == FOODREADY then Returned else k.stage)
    else if me.pc == W_RELEASE then
      k.(queue := if me.incoming.kind == FOODREQ then k.queue + [me.incoming.group] else k.queue,
         stage := if me.incoming.kind == FOODREADY then Carrying else k.stage)
    else if me.pc == W_INFORM_GROUP then k.(informed := k.informed + [me.cur], stage := Telling)
    else if me.pc == W_INFORM_POST then k.(stage := Posted)
    else if me.pc == W_INFORM_ACK then k.(acked := k.acked + [me.cur])
    else if me.pc == W_TAKE_FOOD then k.(delivered := k.delivered + [me.cur], stage := Idle)
    else k
  }

  function ChefNotesMail(me: ChefState, m: MailLog): MailLog {
    if me.pc == C_READY_ACQUIRE then m.(turn := Writing(Chef))
    else if me.pc == C_READY_WRITE then m.(turn := Written(Chef), sent := m.sent + [Request(FOODREADY, me.lastGroup)])
    else if me.pc == C_READY_POST then m.(turn := Full)
    else m
  }

  function ChefNotes(pc: int, foodGroup: int, k: KitchenLog): KitchenLog {
    if pc == C_AWAIT then k.(stage := Reading)
    else if pc == C_READ then k.(stage := Noted, cooked := k.cooked + [foodGroup])
    else if pc == C_ACK then k.(stage := Cooking)
    else if pc == C_READY_POST then k.(stage := Prepared)
    else k
  }

  function GroupNote(w: World, g: nat, h: Hist): Hist
    requires g < |w.gr|
  {
    var pc := w.gr[g].pc;
    h.(holder := NoteHolder(GroupOp(w.gr[g], g), Group(g), h.holder),
       deskMail := GroupNotesDesk(pc, g, h.deskMail), waiterMail := GroupNotesWaiter(pc, g, h.waiterMail))
  }

  function ReceptionistNote(w: World, h: Hist): Hist {
    h.(holder := NoteHolder(ReceptionistOp(w.rc), Receptionist, h.holder),
       deskMail := ReceptionistNotesMail(w.rc.pc, w.sh.deskMail, h.deskMail),
       desk := ReceptionistNotes(w.rc, w.sh.deskMail, h.desk))
  }

  function WaiterNote(w: World, h: Hist): Hist {
    h.(holder := NoteHolder(WaiterOp(w.wt), Waiter, h.holder),
       waiterMail := WaiterNotesMail(w.wt.pc, w.sh.waiterMail, h.waiterMail),
       kitchen := WaiterNotes(w.wt, w.sh.waiterMail, h.kitchen))
  }

  function ChefNote(w: World, h: Hist): Hist {
    h.(holder := NoteHolder(ChefOp(w.ch), Chef, h.holder),
       waiterMail := ChefNotesMail(w.ch, h.waiterMail),
       kitchen := ChefNotes(w.ch.pc, w.sh.foodGroup, h.kitchen))
  }

  function Note(w: World, p: Proc, h: Hist): Hist
    requires Enabled(w, p)
  {
    match p
    case Group(g) => GroupNote(w, g, h)
    case Receptionist => ReceptionistNote(w, h)
    case Waiter => WaiterNote(w, h)
    case Chef => ChefNote(w, h)
  }

  // Runs

  /** The world after the scheduler has let the processes step in this order, if it can. */
  function After(c: Config, run: seq<Proc>): Option<World>
    requires c.Valid()
  {
    if run == [] then Some(Initial(c))
    else
      var before := After(c, run[..|run| - 1]);
      var p := run[|run| - 1];
      if before.Some? && Enabled(before.value, p) then Some(Next(c, before.value, p)) else None
  }

  ghost predicate Possible(c: Config, run: seq<Proc>)
    requires c.Valid()
  {
    After(c, run).Some?
  }

  function Log(c: Config, run: seq<Proc>): Hist
    requires c.Valid() && Possible(c, run)
  {
    if run == [] then NoHistory(c)
    else
      var before := run[..|run| - 1];
      Note(After(c, before).value, run[|run| - 1], Log(c, before))
  }
}
