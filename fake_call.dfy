/** The fake incoming call: a ringing screen that is accepted, rejected or
    rejected automatically, a call clock, and a long press on the button that
    raises an SOS alert. Timers are identified by the ids `setTimeout` and
    `setInterval` hand out; their firing is an explicit event. */
module FakeCall {
  import opened Platform
  import opened Text

  /** The four React state fields, the three timer refs, and the timers that
      are still scheduled. */
  datatype CallState = CallState(
    incoming: bool,
    inCall: bool,
    seconds: nat,
    shake: bool,
    autoRejectRef: Option<nat>,
    timerRef: Option<nat>,
    longPressRef: Option<nat>,
    timeouts: set<nat>,    // auto-reject timeouts neither cleared nor fired
    intervals: set<nat>,   // one-second intervals not cleared
    presses: set<nat>,     // long-press timeouts neither cleared nor fired
    nextTimer: nat)        // the id the next timer receives

  /** `clearTimeout(ref.current)` / `clearInterval(ref.current)`; a null ref clears nothing. */
  function Cleared(ids: set<nat>, ref: Option<nat>): (r: set<nat>)
    ensures r <= ids
    ensures ref.Some? ==> ref.value !in r && ids - r <= {ref.value}
    ensures ref.None? ==> r == ids
  {
    match ref
    case None => ids
    case Some(id) => ids - {id}
  }

  const Initial := CallState(false, false, 0, false, None, None, None, {}, {}, {}, 1)

  /** `startFakeCall`: ring, shake, and schedule the auto-reject. */
  function StartFakeCall(s: CallState): (r: CallState)
    ensures r.incoming && r.shake && r.inCall == s.inCall && r.seconds == s.seconds
    ensures r.autoRejectRef == Some(s.nextTimer) && r.timeouts == s.timeouts + {s.nextTimer}
  {
    s.(incoming := true, shake := true,
       autoRejectRef := Some(s.nextTimer), timeouts := s.timeouts + {s.nextTimer},
       nextTimer := s.nextTimer + 1)
  }

  /** `pickCall`: cancel the auto-reject, stop ringing, and start the clock. */
  function PickCall(s: CallState): (r: CallState)
    ensures !r.incoming && !r.shake && r.inCall && r.seconds == s.seconds
    ensures r.timeouts == Cleared(s.timeouts, s.autoRejectRef)
    ensures r.timerRef == Some(s.nextTimer) && r.intervals == s.intervals + {s.nextTimer}
  {
    s.(timeouts := Cleared(s.timeouts, s.autoRejectRef),
       incoming := false, shake := false, inCall := true,
       timerRef := Some(s.nextTimer), intervals := s.intervals + {s.nextTimer},
       nextTimer := s.nextTimer + 1)
  }

  /** `endCall`: cancel the auto-reject and the clock and reset every field. */
  function EndCall(s: CallState): (r: CallState)
    ensures !r.incoming && !r.inCall && !r.shake && r.seconds == 0
    ensures r.timeouts == Cleared(s.timeouts, s.autoRejectRef)
    ensures r.intervals == Cleared(s.intervals, s.timerRef)
    ensures r.presses == s.presses
  {
    s.(timeouts := Cleared(s.timeouts, s.autoRejectRef),
       intervals := Cleared(s.intervals, s.timerRef),
       incoming := false, inCall := false, shake := false, seconds := 0)
  }

  /** An auto-reject timeout fires: it runs `endCall` when it is still scheduled. */
  function AutoRejectFires(s: CallState, id: nat): CallState
  {
    if id in s.timeouts then EndCall(s.(timeouts := s.timeouts - {id})) else s
  }

  /** A one-second interval fires: `setSeconds(prev => prev + 1)` when it still runs. */
  function IntervalFires(s: CallState, id: nat): (r: CallState)
    ensures id in s.intervals ==> r.seconds == s.seconds + 1
    ensures id !in s.intervals ==> r == s
  {
    if id in s.intervals then s.(seconds := s.seconds + 1) else s
  }

  /** `handleMouseDown`: schedule the long-press alert. */
  function PressStart(s: CallState): CallState
  {
    s.(longPressRef := Some(s.nextTimer), presses := s.presses + {s.nextTimer},
       nextTimer := s.nextTimer + 1)
  }

  /** `handleMouseUp`: cancel the long-press alert the ref points to. */
  function PressEnd(s: CallState): CallState
  {
    s.(presses := Cleared(s.presses, s.longPressRef))
  }

  /** A long-press timeout fires; the flag says whether the SOS alert is raised. */
  function LongPressFires(s: CallState, id: nat): (CallState, bool)
  {
    if id in s.presses then (s.(presses := s.presses - {id}), true) else (s, false)
  }

  /** The cleanup on unmount: clear the three refs. */
  function Unmount(s: CallState): CallState
  {
    s.(timeouts := Cleared(s.timeouts, s.autoRejectRef),
       presses := Cleared(s.presses, s.longPressRef),
       intervals := Cleared(s.intervals, s.timerRef))
  }

  /** `startFakeCall` leaves `inCall` and `seconds` alone, `pickCall` leaves
      `seconds` alone, and one tick of a running interval adds exactly one second. */
  lemma TransitionsKeepWhatTheyDoNotSet(s: CallState)
    ensures StartFakeCall(s).inCall == s.inCall && StartFakeCall(s).seconds == s.seconds
    ensures PickCall(s).seconds == s.seconds
    ensures IntervalFires(PickCall(s), PickCall(s).timerRef.value).seconds == s.seconds + 1
  {
  }

  /** `endCall` brings back the four initial state fields from any state, and a
      second `endCall` changes nothing more. */
  lemma EndCallResetsAndIsIdempotent(s: CallState)
    ensures var e := EndCall(s);
      && e.incoming == Initial.incoming && e.inCall == Initial.inCall
      && e.seconds == Initial.seconds && e.shake == Initial.shake
    ensures EndCall(EndCall(s)) == EndCall(s)
  {
  }

  /** The auto-reject timeout the ref points to does exactly what `endCall` does. */
  lemma AutoRejectIsEndCall(s: CallState)
    requires s.autoRejectRef.Some? && s.autoRejectRef.value in s.timeouts
    ensures AutoRejectFires(s, s.autoRejectRef.value) == EndCall(s)
  {
    var id := s.autoRejectRef.value;
    assert (s.timeouts - {id}) - {id} == s.timeouts - {id};
  }

  /** The SOS alert comes only when the long-press timer fires before the
      press ends. */
  lemma LongPressFiresUnlessReleased(s: CallState)
    ensures LongPressFires(PressStart(s), s.nextTimer).1
    ensures !LongPressFires(PressEnd(PressStart(s)), s.nextTimer).1
  {
  }

  /** The mouse-up clears only the timer the ref holds: after two presses and
      one release, the timer of the first press still raises the alert. */
  lemma EarlierPressOutlivesRelease(s: CallState)
    ensures LongPressFires(PressEnd(PressStart(PressStart(s))), s.nextTimer).1
    ensures !LongPressFires(PressEnd(PressStart(PressStart(s))), s.nextTimer + 1).1
  {
  }

  /** What the user can do on the page. The ringing and call screens cover
      the page for the pointer, so the long press cannot start under them; the
      accept and reject buttons exist only on the ringing screen, the end
      button only in a call. The fake-call button stays focusable under the
      screens, so a keyboard or assistive activation can click it at any time.
      Timers can fire at any time. */
  datatype Event =
    | ClickFakeCall
    | ClickAccept
    | ClickReject
    | ClickEnd
    | Press
    | Release
    | AutoRejectTimer(id: nat)
    | ClockTick(id: nat)
    | LongPressTimer(id: nat)

  predicate Enabled(s: CallState, e: Event)
  {
    match e
    case Press => !s.incoming && !s.inCall
    case ClickAccept => s.incoming
    case ClickReject => s.incoming
    case ClickEnd => s.inCall
    case _ => true
  }

  /** The event is one a pointer can cause: the fake-call button is clicked
      only while no screen covers it. */
  predicate ByPointer(s: CallState, e: Event)
  {
    e.ClickFakeCall? ==> !s.incoming && !s.inCall
  }

  function Apply(s: CallState, e: Event): CallState
  {
    match e
    case ClickFakeCall => StartFakeCall(s)
    case ClickAccept => PickCall(s)
    case ClickReject => EndCall(s)
    case ClickEnd => EndCall(s)
    case Press => PressStart(s)
    case Release => PressEnd(s)
    case AutoRejectTimer(id) => AutoRejectFires(s, id)
    case ClockTick(id) => IntervalFires(s, id)
    case LongPressTimer(id) => LongPressFires(s, id).0
  }

  /** Every event of `events` is possible when it happens. */
  predicate Admissible(s: CallState, events: seq<Event>)
    decreases |events|
  {
    events == [] || (Enabled(s, events[0]) && Admissible(Apply(s, events[0]), events[1..]))
  }

  /** Every event of `events` is possible and caused by pointer or timer. */
  predicate PointerAdmissible(s: CallState, events: seq<Event>)
    decreases |events|
  {
    || events == []
    || (&& Enabled(s, events[0]) && ByPointer(s, events[0])
        && PointerAdmissible(Apply(s, events[0]), events[1..]))
  }

  function Run(s: CallState, events: seq<Event>): CallState
    decreases |events|
  {
    if events == [] then s else Run(Apply(s, events[0]), events[1..])
  }

  /** What holds on every run: the phone shakes exactly while ringing, the
      ringing screen always has its auto-reject pending, and a call always has
      its clock running. */
  ghost predicate Sane(s: CallState)
  {
    && s.shake == s.incoming
    && (s.incoming ==> s.autoRejectRef.Some? && s.autoRejectRef.value in s.timeouts)
    && (s.inCall ==> s.timerRef.Some? && s.timerRef.value in s.intervals)
  }

  /** Any sequence of events whatever, keyboard clicks included, keeps the page sane. */
  lemma {:induction false} RunKeepsSane(s: CallState, events: seq<Event>)
    requires Sane(s)
    ensures Sane(Run(s, events))
    decreases |events|
  {
    if events != [] {
      var t := Apply(s, events[0]);
      assert Sane(t) by {
        match events[0]
        case AutoRejectTimer(id) =>
        case _ =>
      }
      RunKeepsSane(t, events[1..]);
    }
  }

  /** The screen is never ringing and in a call at once, the phone shakes
      exactly while ringing, an auto-reject is scheduled exactly while ringing,
      the clock runs exactly during a call, and outside a call it reads zero. */
  ghost predicate Consistent(s: CallState)
  {
    && s.shake == s.incoming
    && !(s.incoming && s.inCall)
    && (s.incoming ==> s.autoRejectRef.Some? && s.timeouts == {s.autoRejectRef.value})
    && (!s.incoming ==> s.timeouts == {})
    && (s.inCall ==> s.timerRef.Some? && s.intervals == {s.timerRef.value})
    && (!s.inCall ==> s.intervals == {} && s.seconds == 0)
  }

  lemma ApplyKeepsConsistent(s: CallState, e: Event)
    requires Consistent(s) && Enabled(s, e) && ByPointer(s, e)
    ensures Consistent(Apply(s, e))
  {
    match e
    case AutoRejectTimer(id) =>
      if id in s.timeouts {
        assert s.timeouts - {id} == {};
      }
    case _ =>
  }

  /** Whatever the user does with the pointer and whenever the timers fire,
      the page stays consistent. */
  lemma {:induction false} RunKeepsConsistent(s: CallState, events: seq<Event>)
    requires Consistent(s) && PointerAdmissible(s, events)
    ensures Consistent(Run(s, events))
    decreases |events|
  {
    if events != [] {
      ApplyKeepsConsistent(s, events[0]);
      RunKeepsConsistent(Apply(s, events[0]), events[1..]);
    }
  }

  /** From the initial state, by pointer: an accepted call is never ended by
      the auto-reject, the clock never ticks outside a call, and every call
      starts at 0:00. */
  lemma ReachableStatesBehave(events: seq<Event>, id: nat)
    requires PointerAdmissible(Initial, events)
    ensures var s := Run(Initial, events);
      && (s.inCall ==> AutoRejectFires(s, id) == s)
      && (!s.inCall ==> IntervalFires(s, id) == s)
      && (s.incoming ==> PickCall(s).seconds == 0)
  {
    RunKeepsConsistent(Initial, events);
  }

  /** After unmounting a page used by pointer no auto-reject and no clock is
      left scheduled. */
  lemma UnmountLeavesNoCallTimer(events: seq<Event>)
    requires PointerAdmissible(Initial, events)
    ensures Unmount(Run(Initial, events)).timeouts == {}
    ensures Unmount(Run(Initial, events)).intervals == {}
  {
    RunKeepsConsistent(Initial, events);
  }

  /** A second start by keyboard while ringing overwrites the auto-reject ref:
      accepting clears only the second timeout, and the first one ends the
      accepted call. Unmounting while ringing leaves the first one scheduled. */
  lemma RestartLeaksAutoReject()
    ensures Admissible(Initial, [ClickFakeCall, ClickFakeCall, ClickAccept, AutoRejectTimer(1)])
    ensures Run(Initial, [ClickFakeCall, ClickFakeCall, ClickAccept]).inCall
    ensures !Run(Initial, [ClickFakeCall, ClickFakeCall, ClickAccept, AutoRejectTimer(1)]).inCall
    ensures Unmount(Run(Initial, [ClickFakeCall, ClickFakeCall])).timeouts == {1}
  {
  }

  /** A start by keyboard during a call rings over it; accepting then starts a
      second clock, and after the call ends the first clock keeps ticking, so
      the next call does not start at 0:00. */
  lemma RestartDuringCallLeaksClock()
    ensures var s := Run(Initial, [ClickFakeCall, ClickAccept, ClickFakeCall]);
      s.incoming && s.inCall && !Consistent(s)
    ensures Admissible(Initial, [ClickFakeCall, ClickAccept, ClickFakeCall, ClickAccept, ClickEnd, ClockTick(2)])
    ensures var s := Run(Initial, [ClickFakeCall, ClickAccept, ClickFakeCall, ClickAccept, ClickEnd, ClockTick(2)]);
      !s.inCall && s.seconds == 1
  {
  }

  /** `startFakeCall` as evidently intended: the button does nothing while the
      ringing or call screen is shown. */
  function GuardedStartFakeCall(s: CallState): (r: CallState)
    ensures s.incoming || s.inCall ==> r == s
    ensures !s.incoming && !s.inCall ==> r == StartFakeCall(s)
  {
    if s.incoming || s.inCall then s else StartFakeCall(s)
  }

  function GuardedApply(s: CallState, e: Event): CallState
  {
    if e.ClickFakeCall? then GuardedStartFakeCall(s) else Apply(s, e)
  }

  predicate GuardedAdmissible(s: CallState, events: seq<Event>)
    decreases |events|
  {
    events == [] || (Enabled(s, events[0]) && GuardedAdmissible(GuardedApply(s, events[0]), events[1..]))
  }

  function GuardedRun(s: CallState, events: seq<Event>): CallState
    decreases |events|
  {
    if events == [] then s else GuardedRun(GuardedApply(s, events[0]), events[1..])
  }

  /** With the guarded start, every possible sequence of events, keyboard
      clicks included, keeps the page consistent. */
  lemma {:induction false} GuardedRunKeepsConsistent(s: CallState, events: seq<Event>)
    requires Consistent(s) && GuardedAdmissible(s, events)
    ensures Consistent(GuardedRun(s, events))
    decreases |events|
  {
    if events != [] {
      var e := events[0];
      if !(e.ClickFakeCall? && (s.incoming || s.inCall)) {
        ApplyKeepsConsistent(s, e);
      }
      GuardedRunKeepsConsistent(GuardedApply(s, e), events[1..]);
    }
  }

  /** `formatTime`: minutes, a colon, and the seconds padded to two digits. */
  function FormatTime(seconds: nat): string
  {
    var mins := seconds / 60;
    var secs := seconds % 60;
    NatToString(mins) + ":" + (if secs < 10 then "0" else "") + NatToString(secs)
  }

  /** The clock is `m:ss`: the digits before the colon are the whole minutes,
      the two digits after it the remaining seconds. */
  lemma FormatTimeShape(seconds: nat)
    ensures var r := FormatTime(seconds);
      && |r| >= 4 && r[|r| - 3] == ':'
      && AllDigits(r[..|r| - 3]) && ParseDigits(r[..|r| - 3]) == seconds / 60
      && AllDigits(r[|r| - 2..]) && ParseDigits(r[|r| - 2..]) == seconds % 60
  {
    var mins, secs := seconds / 60, seconds % 60;
    var r := FormatTime(seconds);
    ParseNatToString(mins);
    ParseNatToString(secs);
    if secs < 10 {
      assert r == NatToString(mins) + ":" + "0" + NatToString(secs);
      assert r[..|r| - 3] == NatToString(mins);
      assert r[|r| - 2..] == "0" + NatToString(secs);
      assert ("0" + NatToString(secs))[..1] == "0";
    } else {
      assert |NatToString(secs / 10)| == 1;
      assert r == NatToString(mins) + ":" + NatToString(secs);
      assert r[..|r| - 3] == NatToString(mins);
      assert r[|r| - 2..] == NatToString(secs);
    }
  }

  /** Reads an `m:ss` clock back into seconds. */
  function ParseTime(t: string): Option<nat>
  {
    if |t| < 4 || t[|t| - 3] != ':' then None
    else
      var mins, secs := t[..|t| - 3], t[|t| - 2..];
      if AllDigits(mins) && AllDigits(secs) && ParseDigits(secs) < 60
      then Some(ParseDigits(mins) * 60 + ParseDigits(secs))
      else None
  }

  /** The clock shows exactly the elapsed seconds: reading it back gives them again. */
  lemma FormatTimeRoundTrip(seconds: nat)
    ensures ParseTime(FormatTime(seconds)) == Some(seconds)
  {
    FormatTimeShape(seconds);
  }

  /** Different durations show different clocks. */
  lemma FormatTimeInjective(a: nat, b: nat)
    requires FormatTime(a) == FormatTime(b)
    ensures a == b
  {
    FormatTimeRoundTrip(a);
    FormatTimeRoundTrip(b);
  }

  const SosAlert := "\U{1F6A8} SOS Alert Triggered!"

  /** The component itself: its state fields and refs, changed in place by
      its handlers and its timers. */
  class FakeCallWidget {
    var incoming: bool
    var inCall: bool
    var seconds: nat
    var shake: bool
    var autoRejectRef: Option<nat>
    var timerRef: Option<nat>
    var longPressRef: Option<nat>
    var timeouts: set<nat>
    var intervals: set<nat>
    var presses: set<nat>
    var nextTimer: nat

    function State(): CallState
      reads this
    {
      CallState(incoming, inCall, seconds, shake, autoRejectRef, timerRef, longPressRef,
                timeouts, intervals, presses, nextTimer)
    }

    constructor ()
      ensures State() == Initial
    {
      incoming, inCall, seconds, shake := false, false, 0, false;
      autoRejectRef, timerRef, longPressRef := None, None, None;
      timeouts, intervals, presses := {}, {}, {};
      nextTimer := 1;
    }

    method NewTimer() returns (id: nat)
      modifies this`nextTimer
      ensures id == old(nextTimer) && nextTimer == id + 1
    {
      id := nextTimer;
      nextTimer := nextTimer + 1;
    }

    method HandleStartFakeCall()
      modifies this
      ensures State() == StartFakeCall(old(State()))
    {
      incoming := true;
      shake := true;
      var id := NewTimer();
      timeouts := timeouts + {id};
      autoRejectRef := Some(id);
    }

    method HandlePickCall()
      modifies this
      ensures State() == PickCall(old(State()))
    {
      timeouts := Cleared(timeouts, autoRejectRef);
      incoming := false;
      shake := false;
      inCall := true;
      var id := NewTimer();
      intervals := intervals + {id};
      timerRef := Some(id);
    }

    method HandleEndCall()
      modifies this
      ensures State() == EndCall(old(State()))
    {
      timeouts := Cleared(timeouts, autoRejectRef);
      intervals := Cleared(intervals, timerRef);
      incoming := false;
      inCall := false;
      shake := false;
      seconds := 0;
    }

    method OnAutoReject(id: nat)
      modifies this
      ensures State() == AutoRejectFires(old(State()), id)
    {
      if id in timeouts {
        timeouts := timeouts - {id};
        HandleEndCall();
      }
    }

    method OnTick(id: nat)
      modifies this
      ensures State() == IntervalFires(old(State()), id)
    {
      if id in intervals {
        seconds := seconds + 1;
      }
    }

    method HandleMouseDown()
      modifies this
      ensures State() == PressStart(old(State()))
    {
      var id := NewTimer();
      presses := presses + {id};
      longPressRef := Some(id);
    }

    method HandleMouseUp()
      modifies this
      ensures State() == PressEnd(old(State()))
    {
      presses := Cleared(presses, longPressRef);
    }

    method OnLongPress(id: nat, b: Browser)
      modifies this, b`log
      ensures State() == LongPressFires(old(State()), id).0
      ensures b.log == old(b.log) + if LongPressFires(old(State()), id).1 then [Alert(SosAlert)] else []
    {
      if id in presses {
        presses := presses - {id};
        b.log := b.log + [Alert(SosAlert)];
      }
    }

    method Cleanup()
      modifies this
      ensures State() == Unmount(old(State()))
    {
      timeouts := Cleared(timeouts, autoRejectRef);
      presses := Cleared(presses, longPressRef);
      intervals := Cleared(intervals, timerRef);
    }
  }
}
