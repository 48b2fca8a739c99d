/** The waiter's private order queue and the loop that picks the next thing to do. */
module WaiterDesk {
  import opened Rings
  import opened Restaurant
  import opened Invariants

  /** What waitForClientOrChef comes to: a request to act on, waiting for more messages, or
      the "Wrong request" branch; line is what the queue then holds, unread the messages not
      yet read. */
  datatype Outcome =
    | Serve(request: Request, line: seq<int>, unread: seq<Request>)
    | Wait(line: seq<int>)
    | Wrong(line: seq<int>, unread: seq<Request>)

  /** The next thing to do, with the groups in line, the chef busy or not and the messages
      arriving in this order. */
  function Choose(line: seq<int>, busy: bool, arriving: seq<Request>): Outcome
    decreases |arriving|
  {
    if line != [] && !busy then Serve(Request(FOODREQ, line[0]), line[1..], arriving)
    else if arriving == [] then Wait(line)
    else if arriving[0].kind == FOODREQ then Choose(line + [arriving[0].group], busy, arriving[1..])
    else if arriving[0].kind == FOODREADY then Serve(arriving[0], line, arriving[1..])
    else Wrong(line, arriving[1..])
  }

  /** A slot is free whenever an order joins the line: what Safety.QueueNeverOverflows gives
      at each step of the protocol. */
  ghost predicate Fits(slots: nat, line: seq<int>, busy: bool, arriving: seq<Request>)
    decreases |arriving|
  {
    (line != [] && !busy) || arriving == [] || arriving[0].kind != FOODREQ
    || (|line| < slots && Fits(slots, line + [arriving[0].group], busy, arriving[1..]))
  }

  /** The groups named in a batch of requests. */
  function GroupsOf(requests: seq<Request>): seq<int> {
    if requests == [] then [] else [requests[0].group] + GroupsOf(requests[1..])
  }

  ghost predicate AllOrders(requests: seq<Request>) {
    forall i :: 0 <= i < |requests| ==> requests[i].kind == FOODREQ
  }

  /** What a call may come to, read off its outcome: the messages read are a prefix of those that
      arrived, every order among them is in the line or being served, in order and once, and
      the call ends for the right reason. */
  ghost predicate Accounts(line: seq<int>, busy: bool, arriving: seq<Request>, out: Outcome) {
    match out
    case Serve(request, rest, unread) =>
      && |unread| <= |arriving| && unread == arriving[|arriving| - |unread|..]
      && var read := arriving[..|arriving| - |unread|];
      && (if request.kind == FOODREQ then
            && !busy && AllOrders(read) && [request.group] + rest == line + GroupsOf(read)
            && |read| == (if line == [] then 1 else 0)
          else
            && request.kind == FOODREADY && read != [] && request == read[|read| - 1]
            && AllOrders(read[..|read| - 1]) && rest == line + GroupsOf(read[..|read| - 1])
            && (busy || rest == []))
    case Wait(rest) =>
      AllOrders(arriving) && rest == line + GroupsOf(arriving) && (busy || rest == [])
    case Wrong(rest, unread) =>
      && |unread| < |arriving| && unread == arriving[|arriving| - |unread|..]
      && var n := |arriving| - |unread| - 1;
      && arriving[n].kind !in {FOODREQ, FOODREADY}
      && AllOrders(arriving[..n]) && rest == line + GroupsOf(arriving[..n])
      && (busy || rest == [])
  }

  lemma {:induction false} GroupsOfLength(a: seq<Request>)
    ensures |GroupsOf(a)| == |a|
  {
    if a != [] { GroupsOfLength(a[1..]); }
  }

  /** For a busy waiter: orders first, then the message that ends the call, if any. */
  lemma {:induction false} ChooseBusy(line: seq<int>, orders: seq<Request>, later: seq<Request>)
    requires AllOrders(orders) && (later == [] || later[0].kind != FOODREQ)
    ensures Choose(line, true, orders + later) ==
            (if later == [] then Wait(line + GroupsOf(orders))
             else if later[0].kind == FOODREADY then Serve(later[0], line + GroupsOf(orders), later[1..])
             else Wrong(line + GroupsOf(orders), later[1..]))
    decreases |orders|
  {
    if orders == [] {
      assert orders + later == later;
      assert line + GroupsOf(orders) == line;
    } else {
      assert (orders + later)[1..] == orders[1..] + later;
      ChooseBusy(line + [orders[0].group], orders[1..], later);
      assert line + GroupsOf(orders) == line + [orders[0].group] + GroupsOf(orders[1..]);
    }
  }

  /** The orders that arrive before anything else. */
  lemma {:induction false} LeadingOrders(arriving: seq<Request>) returns (n: nat)
    ensures n <= |arriving| && AllOrders(arriving[..n]) && (n < |arriving| ==> arriving[n].kind != FOODREQ)
  {
    if arriving == [] || arriving[0].kind != FOODREQ {
      n := 0;
    } else {
      var m := LeadingOrders(arriving[1..]);
      n := m + 1;
      assert arriving[..n] == [arriving[0]] + arriving[1..][..m];
    }
  }

  lemma BusyAccounts(line: seq<int>, arriving: seq<Request>)
    ensures Accounts(line, true, arriving, Choose(line, true, arriving))
  {
    var n := LeadingOrders(arriving);
    assert arriving == arriving[..n] + arriving[n..];
    ChooseBusy(line, arriving[..n], arriving[n..]);
    if n < |arriving| {
      assert arriving[n..][1..] == arriving[n + 1..];
      assert arriving[..n + 1][..n] == arriving[..n];
    } else {
      assert arriving[..n] == arriving;
    }
  }

  lemma IdleAccounts(line: seq<int>, arriving: seq<Request>)
    ensures Accounts(line, false, arriving, Choose(line, false, arriving))
  {
    var out := Choose(line, false, arriving);
    if line != [] {
      assert arriving[..0] == [] && [line[0]] + line[1..] == line + GroupsOf([]);
    } else if arriving != [] {
      var first := arriving[0];
      assert arriving[..1] == [first] && [first][..0] == [] && arriving[..0] == [];
      assert GroupsOf([first]) == [first.group] + GroupsOf([first][1..]);
      assert out == if first.kind == FOODREQ then Choose([first.group], false, arriving[1..])
                    else if first.kind == FOODREADY then Serve(first, [], arriving[1..]) else Wrong([], arriving[1..]);
    }
  }

  ghost predicate Lead(arriving: seq<Request>, n: int) {
    0 <= n <= |arriving| && AllOrders(arriving[..n]) && (n < |arriving| ==> arriving[n].kind != FOODREQ)
  }

  lemma LeadIsUnique(arriving: seq<Request>, n: int, m: int)
    requires Lead(arriving, n) && Lead(arriving, m)
    ensures n == m
  {
  }

  /** How many orders a busy waiter read before the call ended. */
  function OrdersRead(arriving: seq<Request>, out: Outcome): int {
    match out
    case Serve(_, _, unread) => |arriving| - |unread| - 1
    case Wait(_) => |arriving|
    case Wrong(_, unread) => |arriving| - |unread| - 1
  }

  lemma OrdersLead(line: seq<int>, arriving: seq<Request>, out: Outcome)
    requires Accounts(line, true, arriving, out)
    ensures Lead(arriving, OrdersRead(arriving, out))
  {
    var n := OrdersRead(arriving, out);
    if out.Wait? {
      assert arriving[..n] == arriving;
    } else {
      assert arriving[..n + 1][..n] == arriving[..n];
    }
  }

  lemma BusyAgree(line: seq<int>, arriving: seq<Request>, a: Outcome, b: Outcome)
    requires Accounts(line, true, arriving, a) && Accounts(line, true, arriving, b)
    ensures a == b
  {
    OrdersLead(line, arriving, a);
    OrdersLead(line, arriving, b);
    var n := OrdersRead(arriving, a);
    LeadIsUnique(arriving, n, OrdersRead(arriving, b));
    if n < |arriving| {
      assert arriving[..n + 1][..n] == arriving[..n];
    } else {
      assert arriving[..n] == arriving;
    }
  }

  /** With orders in line, an idle waiter reads nothing; otherwise it reads one message, if any. */
  lemma IdleAgree(line: seq<int>, arriving: seq<Request>, out: Outcome)
    requires Accounts(line, false, arriving, out)
    ensures out == Choose(line, false, arriving)
  {
    var n := match out
      case Serve(_, _, unread) => |arriving| - |unread|
      case Wait(_) => |arriving|
      case Wrong(_, unread) => |arriving| - |unread| - 1;
    GroupsOfLength(arriving[..n]);
    if out.Serve? && out.request.kind == FOODREQ {
      IdleOrder(line, arriving, out, n);
    } else {
      if out.Serve? {
        GroupsOfLength(arriving[..n][..n - 1]);
      } else if out.Wait? {
        assert arriving[..n] == arriving;
      }
      assert line == [];
    }
  }

  lemma IdleOrder(line: seq<int>, arriving: seq<Request>, out: Outcome, n: nat)
    requires Accounts(line, false, arriving, out)
    requires out.Serve? && out.request.kind == FOODREQ && n == |arriving| - |out.unread|
    ensures out == Choose(line, false, arriving)
  {
    var all := [out.request.group] + out.line;
    assert out.line == all[1..] && out.request.group == all[0];
    if line == [] {
      var first := arriving[0];
      assert arriving[..1] == [first];
      assert GroupsOf([first]) == [first.group] + GroupsOf([first][1..]);
      assert all == [first.group];
      assert first == [first][0];
    } else {
      assert all == line;
    }
  }

  /** The choice is the one outcome that accounts for every order. */
  lemma ChooseAccounts(line: seq<int>, busy: bool, arriving: seq<Request>, out: Outcome)
    ensures Accounts(line, busy, arriving, out) <==> out == Choose(line, busy, arriving)
  {
    if busy { BusyAccounts(line, arriving); } else { IdleAccounts(line, arriving); }
    if Accounts(line, busy, arriving, out) {
      if busy { BusyAgree(line, arriving, out, Choose(line, true, arriving)); } else { IdleAgree(line, arriving, out); }
    }
  }

  /** A busy waiter that runs out of messages keeps every order, in order. */
  lemma BusyWaitKeepsAll(line: seq<int>, orders: seq<Request>)
    requires AllOrders(orders)
    ensures Choose(line, true, orders) == Wait(line + GroupsOf(orders))
  {
    assert orders + [] == orders;
    ChooseBusy(line, orders, []);
  }

  /** While the chef is busy every order that comes in joins the line, in order, and the
      first dish that is ready is served before any of them. */
  lemma {:induction false} BusyServesDish(line: seq<int>, orders: seq<Request>, dish: Request, later: seq<Request>)
    requires AllOrders(orders) && dish.kind == FOODREADY
    ensures Choose(line, true, orders + [dish] + later) == Serve(dish, line + GroupsOf(orders), later)
    decreases |orders|
  {
    var all := orders + [dish] + later;
    if orders == [] {
      assert all[1..] == later;
      assert line + GroupsOf(orders) == line;
    } else {
      assert all[1..] == orders[1..] + [dish] + later;
      BusyServesDish(line + [orders[0].group], orders[1..], dish, later);
      assert line + GroupsOf(orders) == line + [orders[0].group] + GroupsOf(orders[1..]);
    }
  }

  /** While the chef is idle the oldest order goes first and nothing is overtaken. */
  lemma IdleServesOldest(line: seq<int>, arriving: seq<Request>)
    requires line != [] || (arriving != [] && arriving[0].kind == FOODREQ)
    ensures var out := Choose(line, false, arriving);
            && out.Serve? && out.request.kind == FOODREQ
            && [out.request.group] + out.line + GroupsOf(out.unread) == line + GroupsOf(arriving)
  {
    if line != [] {
      assert [line[0]] + line[1..] == line;
    } else {
      assert [arriving[0].group] + [] + GroupsOf(arriving[1..]) == [] + GroupsOf(arriving);
    }
  }

  lemma OrderJoins(r: Ring<Request>, line: seq<int>, order: Request)
    requires Holds(r, FoodRequests(line)) && |line| < |r.slots| && order.kind == FOODREQ
    ensures Holds(Push(r, order), FoodRequests(line + [order.group]))
  {
    PushKeepsOrder(r, FoodRequests(line), order);
    assert FoodRequests(line + [order.group]) == FoodRequests(line) + [order];
  }

  lemma OrderLeaves(r: Ring<Request>, line: seq<int>)
    requires Holds(r, FoodRequests(line)) && line != []
    ensures Front(r, Request(-1, -1)) == Request(FOODREQ, line[0])
    ensures Holds(Pop(r), FoodRequests(line[1..]))
  {
    PopKeepsOrder(r, FoodRequests(line), Request(-1, -1));
    assert FoodRequests(line[1..]) == FoodRequests(line)[1..];
  }

  class OrderQueue {
    const queue: array<Request>
    var qlength: int
    var qreadNext: int
    var qwriteNext: int

    ghost function Stored(): Ring<Request>
      reads this, queue
    {
      Ring(queue[..], qlength, qreadNext, qwriteNext)
    }

    constructor (tables: nat)
      requires 1 <= tables
      ensures fresh(queue) && queue.Length == tables && Holds(Stored(), FoodRequests([]))
    {
      queue := new Request[tables](_ => Request(0, 0));
      qlength, qreadNext, qwriteNext := 0, 0, 0;
    }

    /** The loop over arriving messages, tied to the choice of which ChooseAccounts speaks. It
        ends with a request, out of messages (ok, no request) or at a message of the wrong
        kind (not ok). */
    method WaitForClientOrChef(busy: bool, arriving: seq<Request>, ghost line: seq<int>)
      returns (ok: bool, outgoing: Request, used: nat)
      requires Holds(Stored(), FoodRequests(line)) && Fits(queue.Length, line, busy, arriving)
      modifies this, queue
      ensures used <= |arriving|
      ensures match Choose(line, busy, arriving)
              case Serve(request, rest, unread) =>
                ok && outgoing == request && unread == arriving[used..] && Holds(Stored(), FoodRequests(rest))
              case Wait(rest) =>
                ok && outgoing.kind == -1 && used == |arriving| && Holds(Stored(), FoodRequests(rest))
              case Wrong(rest, unread) =>
                !ok && unread == arriving[used..] && Holds(Stored(), FoodRequests(rest))
    {
      ok, outgoing, used := true, Request(-1, -1), 0;
      ghost var waiting := line;
      while outgoing.kind == -1
        invariant ok && used <= |arriving|
        invariant outgoing.kind == -1 ==>
                    && Fits(queue.Length, waiting, busy, arriving[used..])
                    && Holds(Stored(), FoodRequests(waiting))
                    && Choose(waiting, busy, arriving[used..]) == Choose(line, busy, arriving)
        invariant outgoing.kind != -1 ==>
                    && Choose(line, busy, arriving) == Serve(outgoing, waiting, arriving[used..])
                    && Holds(Stored(), FoodRequests(waiting))
        decreases if outgoing.kind == -1 then 1 else 0, |arriving| - used
      {
        if qlength > 0 && !busy {
          OrderLeaves(Stored(), waiting);
          ghost var before := Stored();
          outgoing := queue[qreadNext];
          qreadNext := (qreadNext + 1) % queue.Length;
          qlength := qlength - 1;
          assert Stored() == Pop(before);
          waiting := waiting[1..];
        } else if used == |arriving| {
          return;
        } else {
          var incoming := arriving[used];
          used := used + 1;
          assert arriving[used - 1..][1..] == arriving[used..];
          if incoming.kind == FOODREQ {
            OrderJoins(Stored(), waiting, incoming);
            ghost var before := Stored();
            queue[qwriteNext] := incoming;
            qwriteNext := (qwriteNext + 1) % queue.Length;
            qlength := qlength + 1;
            assert Stored() == Push(before, incoming);
            waiting := waiting + [incoming.group];
          } else if incoming.kind == FOODREADY {
            outgoing := incoming;
          } else {
            ok := false;
            return;
          }
        }
      }
    }
  }
}
