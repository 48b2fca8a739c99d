/** The per-process ring of semaphore events kept for deadlock reports. */
module EventLog {
  import opened Rings

  datatype Action = UNDEFINED | DOWN | UP

  datatype Event = Event(action: Action, index: int, reason: string)

  const MAX_REASON := 100

  /** strlcpy into a field of 100 bytes, the last of which ends the string. */
  function Clip(reason: string): (r: string)
    ensures r <= reason
    ensures |r| == if |reason| < 100 then |reason| else 99
  {
    if |reason| < MAX_REASON then reason else reason[..MAX_REASON - 1]
  }

  /** The last n events of a history, or all of it. */
  function LastEvents(history: seq<Event>, n: nat): (r: seq<Event>)
    ensures |r| == if |history| < n then |history| else n
    ensures forall i :: 0 <= i < |r| ==> r[i] == history[|history| - |r| + i]
  {
    if |history| <= n then history else history[|history| - n..]
  }

  class EventBuffer {
    const events: array<Event>
    var nextSlot: int
    ghost var history: seq<Event>   // everything ever written

    /** The most recent event sits just before nextSlot, the one before it a slot further back. */
    ghost predicate Valid()
      reads this, events
    {
      && events.Length > 0
      && 0 <= nextSlot < events.Length
      && nextSlot == |history| % events.Length
      && (forall i :: 0 <= i < |history| ==> history[i].action != UNDEFINED)
      && (forall s :: 0 <= s < events.Length ==> events[s] == Stored(history, events.Length, s))
    }

    /** SEMDEBUG_MAX_EVENTS slots (20 as shipped); the shared block starts zeroed. */
    constructor (slots: nat)
      requires slots > 0
      ensures Valid() && fresh(events) && events.Length == slots && history == []
    {
      events := new Event[slots](_ => Event(UNDEFINED, 0, ""));
      nextSlot, history := 0, [];
      new;
      forall s | 0 <= s < slots
        ensures Stored([], slots, s) == Event(UNDEFINED, 0, "")
      {
      }
    }
  }

  /** What slot s of a ring with cap slots holds after this history. */
  ghost function Stored(history: seq<Event>, cap: nat, s: nat): Event
    requires cap > 0
  {
    if history == [] then Event(UNDEFINED, 0, "")
    else if (|history| - 1) % cap == s then history[|history| - 1]
    else Stored(history[..|history| - 1], cap, s)
  }

  method WriteEvent(buffer: EventBuffer?, action: Action, index: int, reason: string)
    requires action != UNDEFINED
    requires buffer != null ==> buffer.Valid()
    modifies buffer, if buffer == null then {} else {buffer.events}
    ensures buffer != null ==>
              && buffer.Valid()
              && buffer.history == old(buffer.history) + [Event(action, index, Clip(reason))]
  {
    if buffer == null {
      return;
    }
    var out := buffer.nextSlot;
    buffer.events[out] := Event(action, index, Clip(reason));
    ModAdd(|buffer.history|, 1, buffer.events.Length);
    buffer.nextSlot := (buffer.nextSlot + 1) % buffer.events.Length;
    ghost var before := buffer.history;
    buffer.history := buffer.history + [Event(action, index, Clip(reason))];
    assert buffer.history[..|before|] == before;
  }

  /** The event in the slot i places after the next one to be overwritten. */
  lemma {:induction false} StoredAt(history: seq<Event>, cap: nat, k: nat)
    requires cap > 0 && k < cap
    ensures k < |history| ==> Stored(history, cap, (|history| - 1 - k) % cap) == history[|history| - 1 - k]
    ensures k >= |history| ==> Stored(history, cap, (|history| - 1 - k) % cap).action == UNDEFINED
    decreases |history|
  {
    var n := |history|;
    if n > 0 {
      if k > 0 {
        StoredAt(history[..n - 1], cap, k - 1);
        ModDistinct(n - 1 - k, 0, k, cap);
      }
    }
  }

  /** The slot visited i-th from nextSlot holds the event i - cap places from the end of the
      history, if there is one. */
  lemma SlotHolds(history: seq<Event>, cap: nat, next: int, i: nat)
    requires i < cap && next == |history| % cap
    requires forall j :: 0 <= j < |history| ==> history[j].action != UNDEFINED
    ensures var e := Stored(history, cap, (next + i) % cap);
            if |history| - cap + i >= 0 then e == history[|history| - cap + i] && e.action != UNDEFINED
            else e.action == UNDEFINED
  {
    StoredAt(history, cap, cap - 1 - i);
    assert |history| - 1 - (cap - 1 - i) == |history| - cap + i;
    SameSlot(|history|, i, cap);
  }

  lemma SameSlot(n: nat, i: nat, cap: nat)
    requires i < cap
    ensures (n % cap + i) % cap == (n - cap + i) % cap
  {
    var x := n - cap + i;
    ModAdd(n, i, cap);
    assert (x / cap + 1) * cap == (x / cap) * cap + cap;
    ModUnique(n + i, x / cap + 1, x % cap, cap);
  }

  /** The events found in the first i slots visited. */
  ghost function Found(history: seq<Event>, cap: nat, i: nat): seq<Event>
    requires i <= cap
  {
    var n := |LastEvents(history, cap)|;
    LastEvents(history, cap)[..if i + n < cap then 0 else i + n - cap]
  }

  lemma FindNext(history: seq<Event>, cap: nat, next: int, i: nat)
    requires i < cap && next == |history| % cap
    requires forall j :: 0 <= j < |history| ==> history[j].action != UNDEFINED
    ensures var e := Stored(history, cap, (next + i) % cap);
            Found(history, cap, i + 1) == Found(history, cap, i) + (if e.action == UNDEFINED then [] else [e])
  {
    SlotHolds(history, cap, next, i);
  }

  /** Copies the recorded events out, oldest first; 0 if either argument is missing. */
  method GetAllEventsSorted(buffer: EventBuffer?, out: array?<Event>) returns (written: nat)
    requires buffer != null ==> buffer.Valid()
    requires buffer != null && out != null ==> out != buffer.events && out.Length >= buffer.events.Length
    modifies out
    ensures buffer == null || out == null ==> written == 0
    ensures buffer != null && out != null ==>
              && written == |LastEvents(buffer.history, buffer.events.Length)| <= out.Length
              && out[..written] == LastEvents(buffer.history, buffer.events.Length)
  {
    written := 0;
    if buffer == null || out == null {
      return;
    }
    ghost var h, cap := buffer.history, buffer.events.Length;
    for i := 0 to buffer.events.Length
      invariant buffer.Valid() && buffer.history == h
      invariant written == |Found(h, cap, i)| <= i
      invariant out[..written] == Found(h, cap, i)
    {
      FindNext(h, cap, buffer.nextSlot, i);
      var slot := (buffer.nextSlot + i) % buffer.events.Length;
      var ev := buffer.events[slot];
      if ev.action != UNDEFINED {
        out[written] := ev;
        written := written + 1;
      }
    }
    assert Found(h, cap, cap) == LastEvents(h, cap);
  }

  // The wrappers that log before they operate

  class Semaphore {
    var value: nat
  }

  /** The down is logged first, so a process that then blocks has it as its last event. */
  method SemDownOrExit(buffer: EventBuffer?, sem: Semaphore, index: int, reason: string) returns (blocked: bool)
    requires buffer != null ==> buffer.Valid()
    modifies buffer, if buffer == null then {} else {buffer.events}, sem
    ensures buffer != null ==>
              buffer.Valid() && buffer.history == old(buffer.history) + [Event(DOWN, index, Clip(reason))]
    ensures blocked <==> old(sem.value) == 0
    ensures sem.value == if blocked then 0 else old(sem.value) - 1
  {
    WriteEvent(buffer, DOWN, index, reason);
    blocked := sem.value == 0;
    if !blocked {
      sem.value := sem.value - 1;
    }
  }

  method SemUpOrExit(buffer: EventBuffer?, sem: Semaphore, index: int, reason: string)
    requires buffer != null ==> buffer.Valid()
    modifies buffer, if buffer == null then {} else {buffer.events}, sem
    ensures buffer != null ==>
              buffer.Valid() && buffer.history == old(buffer.history) + [Event(UP, index, Clip(reason))]
    ensures sem.value == old(sem.value) + 1
  {
    WriteEvent(buffer, UP, index, reason);
    sem.value := sem.value + 1;
  }

  /** The report on a process that is blocked in a down ends with that down. */
  method ReportOfBlocked(buffer: EventBuffer, sem: Semaphore, index: int, reason: string, out: array<Event>)
    returns (blocked: bool, written: nat)
    requires buffer.Valid() && out != buffer.events && out.Length >= buffer.events.Length
    modifies buffer, buffer.events, sem, out
    ensures blocked <==> old(sem.value) == 0
    ensures 0 < written <= out.Length && out[written - 1] == Event(DOWN, index, Clip(reason))
  {
    blocked := SemDownOrExit(buffer, sem, index, reason);
    written := GetAllEventsSorted(buffer, out);
    ghost var h := buffer.history;
    assert LastEvents(h, buffer.events.Length)[written - 1] == h[|h| - 1];
  }
}
