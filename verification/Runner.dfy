/**
 * The runner's single slot: one run at a time, whose events and finish may
 * arrive before the reply that gives its id.
 */
module Runner {
  import opened Prelude

  type RunId = nat
  type CallId = nat
  type Note = int

  const SHOWN_EVENTS: nat := 500

  datatype Slot =
    | Idle
    | Starting(cancel: bool, early: map<RunId, seq<Note>>, finished: set<RunId>)
    | Running(run: RunId)

  /** What is on screen; `run` is absent until the start reply. */
  datatype Live = Live(run: Option<RunId>, events: seq<Note>, stopping: bool)

  /** The start call: none pending, sent, or accepted by the backend as a run. */
  datatype StartCall = NoCall | Sent | Accepted(run: RunId)

  datatype Found = Found | NotFound | CancelError

  /**
   * The window's slot and screen, and what is on its way: the start call, the
   * cancels, the runs the backend has begun and ended, and what of them was delivered.
   */
  datatype State = State(slot: Slot, shown: Option<Live>, starting: StartCall, cancels: map<CallId, RunId>,
                         begun: set<RunId>, ended: set<RunId>, finished: set<RunId>, delivered: map<RunId, seq<Note>>)

  const FIRST := State(Idle, None, NoCall, map[], {}, {}, {}, map[])

  datatype Event =
    | Start
    | Accept(run: RunId)
    | StartFailed
    | StartReply(call: CallId)
    | Progress(run: RunId, note: Note)
    | End(run: RunId)
    | Finished(run: RunId)
    | Stop(call: CallId)
    | CancelReply(call: CallId, reply: Found)

  /** Run ids are new, events and finishes follow a run's start, a finish its end, and "not found" means not running. */
  predicate Enabled(s: State, e: Event) {
    match e
    case Start => true
    case Accept(run) => s.starting == Sent && run !in s.begun
    case StartFailed => s.starting == Sent
    case StartReply(call) => s.starting.Accepted? && call !in s.cancels
    case Progress(run, _) => run in s.begun
    case End(run) => run in s.begun
    case Finished(run) => run in s.ended && run !in s.finished
    case Stop(call) => call !in s.cancels
    case CancelReply(call, reply) => call in s.cancels && (reply == NotFound ==> s.cancels[call] in s.ended)
  }

  function Last(events: seq<Note>): seq<Note> {
    if |events| <= SHOWN_EVENTS then events else events[|events| - SHOWN_EVENTS..]
  }

  /** The newest events: at most 500 of them, none between left out. */
  lemma LastIs(events: seq<Note>)
    ensures |Last(events)| == if |events| < 500 then |events| else 500
    ensures Last(events) == events[|events| - |Last(events)|..]
  {
  }

  function EventsOf(m: map<RunId, seq<Note>>, run: RunId): seq<Note> {
    if run in m then m[run] else []
  }

  function AfterStartReply(s: State, call: CallId): State
    requires s.starting.Accepted?
  {
    var run := s.starting.run;
    var t := s.(starting := NoCall);
    if !s.slot.Starting? then t
    else if run in s.slot.finished then t.(slot := Idle, shown := None)
    else
      t.(slot := Running(run), shown := Some(Live(Some(run), EventsOf(s.slot.early, run), s.slot.cancel)),
         cancels := if s.slot.cancel then s.cancels[call := run] else s.cancels)
  }

  function AfterProgress(s: State, run: RunId, note: Note): State {
    var t := s.(delivered := s.delivered[run := EventsOf(s.delivered, run) + [note]]);
    if s.slot.Starting? then t.(slot := s.slot.(early := s.slot.early[run := Last(EventsOf(s.slot.early, run) + [note])]))
    else if s.slot == Running(run) && s.shown.Some? then t.(shown := Some(s.shown.value.(events := Last(s.shown.value.events + [note]))))
    else t
  }

  function AfterFinish(s: State, run: RunId): State {
    var t := s.(finished := s.finished + {run});
    if s.slot.Starting? then t.(slot := s.slot.(finished := s.slot.finished + {run}))
    else if s.slot == Running(run) then t.(slot := Idle, shown := None)
    else t
  }

  function AfterStop(s: State, call: CallId): State {
    var t := s.(shown := if s.shown.Some? then Some(s.shown.value.(stopping := true)) else None);
    if s.slot.Starting? then t.(slot := s.slot.(cancel := true))
    else if s.slot.Running? then t.(cancels := s.cancels[call := s.slot.run])
    else t
  }

  function AfterCancelReply(s: State, call: CallId, reply: Found): State
    requires call in s.cancels
  {
    var run := s.cancels[call];
    var t := s.(cancels := s.cancels - {call});
    if reply == CancelError then
      t.(shown := if s.shown.Some? && s.shown.value.run == Some(run) then Some(s.shown.value.(stopping := false)) else s.shown)
    else if reply == NotFound && s.slot == Running(run) then t.(slot := Idle, shown := None)
    else t
  }

  function Next(s: State, e: Event): State {
    match e
    case Start => if s.slot.Idle? then s.(slot := Starting(false, map[], {}), shown := Some(Live(None, [], false)), starting := Sent) else s
    case Accept(run) => s.(starting := Accepted(run), begun := s.begun + {run})
    case StartFailed => s.(starting := NoCall, slot := Idle, shown := None)
    case StartReply(call) => if s.starting.Accepted? then AfterStartReply(s, call) else s
    case Progress(run, note) => AfterProgress(s, run, note)
    case End(run) => s.(ended := s.ended + {run})
    case Finished(run) => AfterFinish(s, run)
    case Stop(call) => AfterStop(s, call)
    case CancelReply(call, reply) => if call in s.cancels then AfterCancelReply(s, call, reply) else s
  }

  // -------------------------------------------------------------- the code

  /** The view's own state; what the backend does is given by the events. */
  class RunnerView {
    var slot: Slot
    var shown: Option<Live>

    constructor ()
      ensures slot == Idle && shown == None
    {
      slot, shown := Idle, None;
    }

    /** Claim the slot. Whether `run_start` is called now. */
    method Start() returns (call: bool)
      modifies this
      ensures call == old(slot).Idle?
      ensures call ==> slot == Starting(false, map[], {}) && shown == Some(Live(None, [], false))
      ensures !call ==> slot == old(slot) && shown == old(shown)
      ensures forall s: State :: s.slot == old(slot) && s.shown == old(shown) ==>
        slot == Next(s, Event.Start).slot && shown == Next(s, Event.Start).shown && (call ==> Next(s, Event.Start).starting == Sent)
    {
      if !slot.Idle? {
        return false;
      }
      slot := Starting(false, map[], {});
      shown := Some(Live(None, [], false));
      call := true;
    }

    method OnStartFailed()
      modifies this
      ensures slot == Idle && shown == None
      ensures forall s: State :: slot == Next(s, StartFailed).slot && shown == Next(s, StartFailed).shown
    {
      slot := Idle;
      shown := None;
    }

    /** `run_start` answered with an id. Whether it is canceled at once. */
    method OnStarted(run: RunId) returns (cancel: bool)
      requires slot.Starting?
      modifies this
      ensures var pending := old(slot);
        if run in pending.finished then slot == Idle && shown == None && !cancel
        else slot == Running(run) && shown == Some(Live(Some(run), EventsOf(pending.early, run), pending.cancel)) && cancel == pending.cancel
      ensures forall s: State, call: CallId :: s.slot == old(slot) && s.shown == old(shown) && s.starting == Accepted(run) ==>
        slot == AfterStartReply(s, call).slot && shown == AfterStartReply(s, call).shown
    {
      var pending := slot;
      if run in pending.finished {
        slot := Idle;
        shown := None;
        return false;
      }
      slot := Running(run);
      shown := Some(Live(Some(run), EventsOf(pending.early, run), pending.cancel));
      cancel := pending.cancel;
    }

    method OnEvent(run: RunId, note: Note)
      modifies this
      ensures old(slot).Starting? ==>
        && shown == old(shown)
        && slot == Starting(old(slot).cancel, old(slot).early[run := Last(EventsOf(old(slot).early, run) + [note])], old(slot).finished)
      ensures !old(slot).Starting? ==>
        && slot == old(slot)
        && shown == if slot == Running(run) && old(shown).Some?
                    then Some(old(shown).value.(events := Last(old(shown).value.events + [note]))) else old(shown)
      ensures forall s: State :: s.slot == old(slot) && s.shown == old(shown) ==>
        slot == AfterProgress(s, run, note).slot && shown == AfterProgress(s, run, note).shown
    {
      match slot {
        case Starting(cancel, early, finished) =>
          slot := Starting(cancel, early[run := Last(EventsOf(early, run) + [note])], finished);
        case Running(r) =>
          if r == run && shown.Some? {
            shown := Some(shown.value.(events := Last(shown.value.events + [note])));
          }
        case Idle =>
      }
    }

    method OnFinished(run: RunId)
      modifies this
      ensures old(slot).Starting? ==>
        slot == Starting(old(slot).cancel, old(slot).early, old(slot).finished + {run}) && shown == old(shown)
      ensures old(slot) == Running(run) ==> slot == Idle && shown == None
      ensures !old(slot).Starting? && old(slot) != Running(run) ==> slot == old(slot) && shown == old(shown)
      ensures forall s: State :: s.slot == old(slot) && s.shown == old(shown) ==>
        slot == AfterFinish(s, run).slot && shown == AfterFinish(s, run).shown
    {
      match slot {
        case Starting(cancel, early, finished) =>
          slot := Starting(cancel, early, finished + {run});
        case Running(r) =>
          if r == run {
            slot := Idle;
            shown := None;
          }
        case Idle =>
      }
    }

    /** The run to cancel now, if its id is known. */
    method Stop() returns (run: Option<RunId>)
      modifies this
      ensures run == if old(slot).Running? then Some(old(slot).run) else None
      ensures slot == if old(slot).Starting? then Starting(true, old(slot).early, old(slot).finished) else old(slot)
      ensures shown == if old(shown).Some? then Some(old(shown).value.(stopping := true)) else None
      ensures forall s: State, call: CallId :: s.slot == old(slot) && s.shown == old(shown) ==>
        slot == AfterStop(s, call).slot && shown == AfterStop(s, call).shown
    {
      if shown.Some? {
        shown := Some(shown.value.(stopping := true));
      }
      run := None;
      match slot {
        case Starting(cancel, early, finished) =>
          slot := Starting(true, early, finished);
        case Running(r) =>
          run := Some(r);
        case Idle =>
      }
    }

    method OnCancelReply(run: RunId, reply: Found)
      modifies this
      ensures reply == NotFound && old(slot) == Running(run) ==> slot == Idle && shown == None
      ensures reply == CancelError ==> slot == old(slot)
      ensures reply == CancelError && old(shown).Some? && old(shown).value.run == Some(run) ==>
        shown == Some(Live(Some(run), old(shown).value.events, false))
      ensures reply == CancelError && (old(shown).Some? ==> old(shown).value.run != Some(run)) ==> shown == old(shown)
      ensures reply == Found || (reply == NotFound && old(slot) != Running(run)) ==> slot == old(slot) && shown == old(shown)
      ensures forall s: State, call: CallId :: s.slot == old(slot) && s.shown == old(shown) && Lookup(s.cancels, call) == Some(run) ==>
        slot == AfterCancelReply(s, call, reply).slot && shown == AfterCancelReply(s, call, reply).shown
    {
      if reply == CancelError {
        if shown.Some? && shown.value.run == Some(run) {
          shown := Some(shown.value.(stopping := false));
        }
        return;
      }
      if reply == NotFound && slot == Running(run) {
        slot := Idle;
        shown := None;
      }
    }
  }

  // ---------------------------------------------------------- every state

  /** At most one run is live: the slot's own, and none while the slot is idle. */
  ghost predicate OneRun(s: State) {
    match s.slot
    case Idle => s.starting == NoCall && s.begun <= s.ended
    case Starting(_, _, _) => s.starting != NoCall && s.begun - (if s.starting.Accepted? then {s.starting.run} else {}) <= s.ended
    case Running(run) => s.starting == NoCall && run in s.begun && s.begun - {run} <= s.ended
  }

  /** The slot and the screen agree. */
  ghost predicate Agree(s: State) {
    match s.slot
    case Idle => s.shown == None
    case Starting(cancel, _, _) => s.shown == Some(Live(None, [], cancel))
    case Running(run) => s.shown.Some? && s.shown.value.run == Some(run)
  }

  /** What was recorded while starting, and what is shown, are the last events delivered for the run. */
  ghost predicate Recorded(s: State) {
    match s.slot
    case Idle => true
    case Starting(_, early, finished) =>
      s.starting.Accepted? ==>
        && EventsOf(early, s.starting.run) == Last(EventsOf(s.delivered, s.starting.run))
        && (s.starting.run in finished <==> s.starting.run in s.finished)
    case Running(run) => s.shown.Some? && s.shown.value.events == Last(EventsOf(s.delivered, run)) && run !in s.finished
  }

  /** Nothing is delivered of a run before it has begun. */
  ghost predicate Ordered(s: State) {
    && s.ended <= s.begun && s.finished <= s.ended
    && (forall r :: r in s.delivered ==> r in s.begun)
    && (s.starting.Accepted? ==> s.starting.run in s.begun)
    && (s.slot.Starting? ==> forall r :: r in s.slot.early || r in s.slot.finished ==> r in s.begun)
  }

  ghost predicate Inv(s: State) {
    OneRun(s) && Agree(s) && Recorded(s) && Ordered(s)
  }

  lemma LastOfLast(events: seq<Note>, note: Note)
    ensures Last(Last(events) + [note]) == Last(events + [note])
  {
  }

  lemma ProgressKeeps(s: State, run: RunId, note: Note)
    requires Inv(s) && run in s.begun
    ensures Inv(AfterProgress(s, run, note))
  {
    LastOfLast(EventsOf(s.delivered, run), note);
  }

  lemma StepKeeps(s: State, e: Event)
    requires Inv(s) && Enabled(s, e)
    ensures Inv(Next(s, e))
  {
    if e.Progress? {
      ProgressKeeps(s, e.run, e.note);
    }
  }

  function After(events: seq<Event>, i: nat): State
    requires i <= |events|
  {
    if i == 0 then FIRST else Next(After(events, i - 1), events[i - 1])
  }

  ghost predicate Run(events: seq<Event>) {
    forall i :: 0 <= i < |events| ==> Enabled(After(events, i), events[i])
  }

  lemma {:induction false} RunKeeps(events: seq<Event>, i: nat)
    requires Run(events) && i <= |events|
    ensures Inv(After(events, i))
  {
    if i > 0 {
      RunKeeps(events, i - 1);
      StepKeeps(After(events, i - 1), events[i - 1]);
    }
  }

  // ------------------------------------------------ what is on its way

  /** The start call is pending from the claim of the slot to its answer. */
  lemma StartCalls(s: State, e: Event)
    ensures Next(s, e).starting ==
      if e.Start? && s.slot.Idle? then Sent
      else if e.Accept? then Accepted(e.run)
      else if e.StartFailed? || (e.StartReply? && s.starting.Accepted?) then NoCall
      else s.starting
  {
  }

  /** A cancel is sent exactly by a stop of the running run, and for a run that was stopped before its id came and has not finished. */
  lemma CancelsSent(s: State, e: Event, c: CallId)
    requires c !in s.cancels
    ensures c in Next(s, e).cancels <==>
      || (e == Stop(c) && s.slot.Running?)
      || (e == StartReply(c) && s.starting.Accepted? && s.slot.Starting? && s.slot.cancel && s.starting.run !in s.slot.finished)
    ensures c in Next(s, e).cancels ==> Next(s, e).cancels[c] == if e.Stop? then s.slot.run else s.starting.run
  {
  }

  /** An event of the first `i` is `e`. */
  ghost predicate Came(events: seq<Event>, i: nat, e: Event)
    requires i <= |events|
  {
    exists j :: 0 <= j < i && events[j] == e
  }

  /** The notes of run `r` among the first `i` events, in order. */
  function NotesOf(events: seq<Event>, i: nat, r: RunId): seq<Note>
    requires i <= |events|
  {
    if i == 0 then []
    else NotesOf(events, i - 1, r) + if events[i - 1].Progress? && events[i - 1].run == r then [events[i - 1].note] else []
  }

  lemma CameNow(events: seq<Event>, i: nat, e: Event)
    requires 0 < i <= |events|
    ensures Came(events, i, e) <==> Came(events, i - 1, e) || events[i - 1] == e
  {
  }

  lemma StepTracks(s: State, e: Event, r: RunId)
    ensures r in Next(s, e).begun <==> r in s.begun || e == Accept(r)
    ensures r in Next(s, e).ended <==> r in s.ended || e == End(r)
    ensures r in Next(s, e).finished <==> r in s.finished || e == Finished(r)
  {
  }

  lemma StepDelivers(s: State, e: Event, r: RunId)
    ensures EventsOf(Next(s, e).delivered, r) == EventsOf(s.delivered, r) + if e.Progress? && e.run == r then [e.note] else []
  {
  }

  /** What is kept of the runs begun, ended and finished is what came. */
  lemma {:induction false} Tracked(events: seq<Event>, i: nat, r: RunId)
    requires i <= |events|
    ensures r in After(events, i).begun <==> Came(events, i, Accept(r))
    ensures r in After(events, i).ended <==> Came(events, i, End(r))
    ensures r in After(events, i).finished <==> Came(events, i, Finished(r))
  {
    if i > 0 {
      Tracked(events, i - 1, r);
      StepTracks(After(events, i - 1), events[i - 1], r);
      CameNow(events, i, Accept(r));
      CameNow(events, i, End(r));
      CameNow(events, i, Finished(r));
    }
  }

  /** What is kept of a run's notes are the notes that came, in order. */
  lemma {:induction false} NotesKept(events: seq<Event>, i: nat, r: RunId)
    requires i <= |events|
    ensures EventsOf(After(events, i).delivered, r) == NotesOf(events, i, r)
  {
    if i > 0 {
      NotesKept(events, i - 1, r);
      StepDelivers(After(events, i - 1), events[i - 1], r);
    }
  }

  /** Whether a run is going on in the backend. */
  predicate Going(s: State, r: RunId) {
    r in s.begun && r !in s.ended
  }

  /** At most one run is ever going, none is going while another start is pending, and slot and screen always agree. */
  lemma OneRunAtATime(events: seq<Event>, i: nat)
    requires Run(events) && i <= |events|
    ensures Agree(After(events, i))
    ensures forall q, r :: Going(After(events, i), q) && Going(After(events, i), r) ==> q == r
    ensures forall r :: Going(After(events, i), r) ==> After(events, i).starting != Sent && !After(events, i).slot.Idle?
  {
    RunKeeps(events, i);
  }

  /** A run whose finish was delivered is never shown, and the events shown are its last 500 delivered, in order. */
  lemma ShownRunIsCurrent(events: seq<Event>, i: nat, r: RunId)
    requires Run(events) && i <= |events|
    requires var s := After(events, i); s.shown.Some? && s.shown.value.run == Some(r)
    ensures !Came(events, i, Finished(r)) && After(events, i).slot == Running(r)
    ensures var notes := NotesOf(events, i, r);
      After(events, i).shown.value.events == notes[if |notes| < 500 then 0 else |notes| - 500..]
  {
    RunKeeps(events, i);
    Tracked(events, i, r);
    NotesKept(events, i, r);
    LastIs(NotesOf(events, i, r));
  }

  /**
   * A cancel that finds its run gone frees the slot, one that fails lets the
   * run be stopped again, and one that works changes nothing on screen.
   */
  lemma CancelAnswered(events: seq<Event>, i: nat, call: CallId, reply: Found)
    requires Run(events) && i < |events| && events[i] == CancelReply(call, reply)
    requires After(events, i).slot == Running(After(events, i).cancels[call])
    ensures var s, t := After(events, i), After(events, i + 1);
      && call !in t.cancels
      && (reply == NotFound ==> t.slot == Idle && t.shown == None)
      && (reply == CancelError ==> t.slot == s.slot && s.shown.Some? && t.shown == Some(s.shown.value.(stopping := false)))
      && (reply == Found ==> t.slot == s.slot && t.shown == s.shown)
  {
    RunKeeps(events, i);
  }

  // ------------------------------------------------- a stop before the id

  /** While the start call is pending, a stop is remembered. */
  lemma {:induction false} StopRemembered(events: seq<Event>, i: nat, j: nat)
    requires Run(events) && i < j <= |events| && events[i].Stop? && After(events, i).slot.Starting?
    requires forall k :: i < k < j ==> !events[k].StartReply? && !events[k].StartFailed?
    ensures After(events, j).slot.Starting? && After(events, j).slot.cancel
    decreases j
  {
    if j == i + 1 {
      assert After(events, j) == AfterStop(After(events, i), events[i].call);
    } else {
      StopRemembered(events, i, j - 1);
      StaysStarting(After(events, j - 1), events[j - 1]);
    }
  }

  lemma StaysStarting(s: State, e: Event)
    requires s.slot.Starting? && s.slot.cancel && !e.StartReply? && !e.StartFailed?
    ensures Next(s, e).slot.Starting? && Next(s, e).slot.cancel
  {
  }

  /** A Stop pressed before the id is known cancels the run when its id arrives, unless its finish already did. */
  lemma StopBeforeIdCancels(events: seq<Event>, i: nat, j: nat)
    requires Run(events) && i < j < |events| && events[i].Stop? && After(events, i).slot.Starting?
    requires forall k :: i < k < j ==> !events[k].StartReply? && !events[k].StartFailed?
    requires events[j].StartReply?
    ensures var s := After(events, j);
      var run := s.starting.run;
      || (run in s.finished && After(events, j + 1).shown == None)
      || (Lookup(After(events, j + 1).cancels, events[j].call) == Some(run) && After(events, j + 1).slot == Running(run))
  {
    RunKeeps(events, j);
    StopRemembered(events, i, j);
  }
}
