/** The monitor's event loop: which asynchronous operations are pending, and how handlers
    re-arm them (`monitor_events`, `monitor_screen`, `monitor_timer`,
    src/udev/provider_udev.cpp). */
module UdevLoop {

  /** A timer wait: running, expired with its completion queued, or cancelled with its
      completion queued. Cancelling does not reach a completion that is already queued. */
  datatype Wait = Waiting | Expired | Aborted

  datatype Loop = Loop(
    screenOpen: bool, stopped: bool, udevReads: nat, screenReads: nat,
    waits: map<nat, Wait>, issued: nat)

  /** What a completion finds: an error code, a handler that throws, or neither. */
  datatype Outcome = Fine | ErrorCode | Throws

  datatype Event =
    | UdevReady(outcome: Outcome)
    | ScreenReady(outcome: Outcome)
    | TimerDone(id: nat, throws: bool)
    | TimeUp(id: nat)

  function Cancel(l: Loop): Loop {
    l.(waits := map i | i in l.waits :: if l.waits[i] == Waiting then Aborted else l.waits[i])
  }

  /** Setting a new expiry cancels the running wait; then a new wait starts. */
  function Arm(l: Loop): Loop {
    l.(waits := Cancel(l).waits[l.issued := Waiting], issued := l.issued + 1)
  }

  function MonitorEvents(l: Loop): Loop {
    Arm(l).(udevReads := l.udevReads + 1)
  }

  function MonitorScreen(l: Loop, restart: bool): Loop {
    var l1 := if restart then Arm(l) else l;
    if l.screenOpen then l1.(screenReads := l.screenReads + 1) else l1
  }

  function Begin(l: Loop): Loop {
    MonitorScreen(MonitorEvents(l), false)
  }

  predicate Possible(l: Loop, ev: Event) {
    !l.stopped &&
    match ev
    case UdevReady(_) => l.udevReads > 0
    case ScreenReady(_) => l.screenReads > 0
    case TimerDone(id, _) => id in l.waits && l.waits[id] != Waiting
    case TimeUp(id) => id in l.waits && l.waits[id] == Waiting
  }

  function Step(l: Loop, ev: Event): Loop
    requires Possible(l, ev)
  {
    match ev
    case UdevReady(o) =>
      var l1 := Cancel(l.(udevReads := l.udevReads - 1));
      (match o
       case Fine => MonitorEvents(l1)
       case ErrorCode => l1.(stopped := true)
       case Throws => l1)
    case ScreenReady(o) =>
      var l1 := Cancel(l.(screenReads := l.screenReads - 1));
      (match o
       case Fine => MonitorScreen(l1, true)
       case ErrorCode => l1.(stopped := true)
       case Throws => l1)
    case TimerDone(id, throws) =>
      var l1 := l.(waits := l.waits - {id});
      if l.waits[id] == Aborted || throws then l1 else Arm(l1)
    case TimeUp(id) => l.(waits := l.waits[id := Expired])
  }

  /** Exactly one udev read, one screen read if the stream is open, and one wait that
      nothing has cancelled or replaced: the newest. Every other wait still in the queue
      has been cancelled or had expired before it could be. */
  predicate Armed(l: Loop) {
    && !l.stopped && l.udevReads == 1 && l.screenReads == (if l.screenOpen then 1 else 0)
    && l.issued > 0 && l.issued - 1 in l.waits && l.waits[l.issued - 1] != Aborted
    && forall i | i in l.waits :: i < l.issued && (l.waits[i] == Waiting ==> i == l.issued - 1)
  }

  /** The handler of this event throws or finds an error, and that costs the loop an
      operation: for a timer, only the handler of the newest wait matters. */
  predicate Breaks(l: Loop, ev: Event) {
    match ev
    case UdevReady(o) => o != Fine
    case ScreenReady(o) => o != Fine
    case TimerDone(id, throws) => throws && id == l.issued - 1
    case TimeUp(_) => false
  }

  predicate IsNew(l: Loop) {
    !l.stopped && l.udevReads == 0 && l.screenReads == 0 && l.waits == map[] && l.issued == 0
  }

  /** The start leaves one wait, and nothing cancelled. */
  lemma BeginArms(l: Loop)
    requires IsNew(l)
    ensures Armed(Begin(l)) && Begin(l).waits == map[0 := Waiting]
  {
  }

  /** An error code stops the loop for good: no event is possible any more. */
  lemma ErrorStops(l: Loop, ev: Event, next: Event)
    requires Possible(l, ev) && (ev == UdevReady(ErrorCode) || ev == ScreenReady(ErrorCode))
    ensures Step(l, ev).stopped && !Possible(Step(l, ev), next)
  {
  }

  /** A poll: when the running wait of an armed loop is up, its handler can run, and unless it
      throws it leaves a new running wait in place of the old one. */
  lemma PollRearms(l: Loop)
    requires Armed(l) && l.waits[l.issued - 1] == Waiting
    ensures var id := l.issued - 1;
      && Possible(l, TimeUp(id)) && Possible(Step(l, TimeUp(id)), TimerDone(id, false))
      && var r := Step(Step(l, TimeUp(id)), TimerDone(id, false));
         && Armed(r) && r.issued == l.issued + 1 && r.waits[r.issued - 1] == Waiting && id !in r.waits
         && r.udevReads == l.udevReads && r.screenReads == l.screenReads
  {
  }

  /** An armed loop stays armed over an event exactly when its handler does not break it,
      also when a timer completion was queued before its cancellation. */
  lemma StaysArmedIff(l: Loop, ev: Event)
    requires Armed(l) && Possible(l, ev)
    ensures Armed(Step(l, ev)) <==> !Breaks(l, ev)
  {
    var r := Step(l, ev);
    match ev
    case UdevReady(_) =>
    case ScreenReady(_) =>
    case TimerDone(id, throws) =>
      if throws && id == l.issued - 1 {
        assert l.issued - 1 !in r.waits;
      }
    case TimeUp(_) =>
  }

  /** An armed loop has at most one running wait. */
  lemma OneRunningWait(l: Loop)
    requires Armed(l)
    ensures (set i | i in l.waits && l.waits[i] == Waiting) ==
      if l.waits[l.issued - 1] == Waiting then {l.issued - 1} else {}
  {
  }

  predicate Follows(l: Loop, evs: seq<Event>)
    decreases |evs|
  {
    evs == [] || (Possible(l, evs[0]) && Follows(Step(l, evs[0]), evs[1..]))
  }

  function Run(l: Loop, evs: seq<Event>): Loop
    requires Follows(l, evs)
    decreases |evs|
  {
    if evs == [] then l else Run(Step(l, evs[0]), evs[1..])
  }

  /** No handler along the run breaks the loop. */
  predicate Smooth(l: Loop, evs: seq<Event>)
    requires Follows(l, evs)
    decreases |evs|
  {
    evs == [] || (!Breaks(l, evs[0]) && Smooth(Step(l, evs[0]), evs[1..]))
  }

  lemma {:induction false} RunStaysArmed(l: Loop, evs: seq<Event>)
    requires Armed(l) && Follows(l, evs) && Smooth(l, evs)
    ensures Armed(Run(l, evs))
    decreases |evs|
  {
    if evs != [] {
      StaysArmedIff(l, evs[0]);
      RunStaysArmed(Step(l, evs[0]), evs[1..]);
    }
  }

  /** In every reachable state of a loop whose handlers neither threw nor failed, exactly
      the right operations are pending. */
  lemma ReachableLoopsAreArmed(l: Loop, evs: seq<Event>)
    requires IsNew(l) && Follows(Begin(l), evs) && Smooth(Begin(l), evs)
    ensures Armed(Run(Begin(l), evs))
  {
    BeginArms(l);
    RunStaysArmed(Begin(l), evs);
  }

  /** The udev read never comes back once its handler has thrown, whatever happens next. */
  lemma {:induction false} UdevReadIsLost(l: Loop, evs: seq<Event>)
    requires l.udevReads == 0 && Follows(l, evs)
    ensures Run(l, evs).udevReads == 0
    decreases |evs|
  {
    if evs != [] {
      UdevReadIsLost(Step(l, evs[0]), evs[1..]);
    }
  }

  /** The first event can lose it, if the device library fails with an exception; attributes
      that cannot be read are no such failure. The wait is cancelled by then. */
  lemma ThrowLosesUdevRead(l: Loop, evs: seq<Event>)
    requires IsNew(l)
    ensures Possible(Begin(l), UdevReady(Throws))
    ensures var r := Step(Begin(l), UdevReady(Throws));
      && (forall i | i in r.waits :: r.waits[i] == Aborted)
      && (Follows(r, evs) ==> Run(r, evs).udevReads == 0)
  {
    var r := Step(Begin(l), UdevReady(Throws));
    if Follows(r, evs) {
      UdevReadIsLost(r, evs);
    }
  }

  /** The screen read does not come back either. */
  lemma {:induction false} ScreenReadIsLost(l: Loop, evs: seq<Event>)
    requires l.screenReads == 0 && Follows(l, evs)
    ensures Run(l, evs).screenReads == 0
    decreases |evs|
  {
    if evs != [] {
      ScreenReadIsLost(Step(l, evs[0]), evs[1..]);
    }
  }

  /** The first event can lose it: if `read_some` fails on the screen property it throws.
      The handler has cancelled the wait by then, so no poll follows until the next udev
      event, and the screen is never looked at again. */
  lemma FailedReadLosesScreen(l: Loop, evs: seq<Event>)
    requires IsNew(l) && l.screenOpen
    ensures Possible(Begin(l), ScreenReady(Throws))
    ensures var r := Step(Begin(l), ScreenReady(Throws));
      && r.udevReads == 1 && (forall i | i in r.waits :: r.waits[i] == Aborted)
      && (Follows(r, evs) ==> Run(r, evs).screenReads == 0)
  {
    var r := Step(Begin(l), ScreenReady(Throws));
    if Follows(r, evs) {
      ScreenReadIsLost(r, evs);
    }
  }

  class EventLoop {
    const screenOpen: bool
    var stopped: bool
    var udevReads: nat
    var screenReads: nat
    var waits: map<nat, Wait>
    var issued: nat

    ghost function Abs(): Loop
      reads this
    {
      Loop(screenOpen, stopped, udevReads, screenReads, waits, issued)
    }

    constructor (screenOpen: bool)
      ensures IsNew(Abs()) && this.screenOpen == screenOpen
    {
      this.screenOpen := screenOpen;
      stopped, udevReads, screenReads, waits, issued := false, 0, 0, map[], 0;
    }

    method CancelTimer()
      modifies this`waits
      ensures Abs() == Cancel(old(Abs()))
    {
      waits := map i | i in waits :: if waits[i] == Waiting then Aborted else waits[i];
    }

    method MonitorTimer()
      modifies this`waits, this`issued
      ensures Abs() == Arm(old(Abs()))
    {
      CancelTimer();
      waits := waits[issued := Waiting];
      issued := issued + 1;
    }

    method WatchEvents()
      modifies this
      ensures Abs() == MonitorEvents(old(Abs()))
    {
      MonitorTimer();
      udevReads := udevReads + 1;
    }

    method WatchScreen(restart: bool)
      modifies this
      ensures Abs() == MonitorScreen(old(Abs()), restart)
    {
      if restart {
        MonitorTimer();
      }
      if !screenOpen {
        return;
      }
      screenReads := screenReads + 1;
    }

    method Start()
      modifies this
      ensures Abs() == Begin(old(Abs()))
    {
      WatchEvents();
      WatchScreen(false);
    }

    method OnEvent(o: Outcome)
      requires Possible(Abs(), UdevReady(o))
      modifies this
      ensures Abs() == Step(old(Abs()), UdevReady(o))
    {
      udevReads := udevReads - 1;
      CancelTimer();
      if o == ErrorCode {
        stopped := true;
        return;
      }
      if o == Throws {
        return;
      }
      WatchEvents();
    }

    method OnScreen(o: Outcome)
      requires Possible(Abs(), ScreenReady(o))
      modifies this
      ensures Abs() == Step(old(Abs()), ScreenReady(o))
    {
      screenReads := screenReads - 1;
      CancelTimer();
      if o == ErrorCode {
        stopped := true;
        return;
      }
      if o == Throws {
        return;
      }
      WatchScreen(true);
    }

    method OnTimer(id: nat, throws: bool)
      requires Possible(Abs(), TimerDone(id, throws))
      modifies this
      ensures Abs() == Step(old(Abs()), TimerDone(id, throws))
    {
      var aborted := waits[id] == Aborted;
      waits := waits - {id};
      if aborted || throws {
        return;
      }
      MonitorTimer();
    }
  }
}
