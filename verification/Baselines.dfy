/**
 * Which stored value a tab's baseline is, and exactly when it is not the one
 * stored now: a save is written but its reply has not arrived, or the tab was
 * opened from a read that a save overtook.
 */
module Baselines {
  import opened Prelude
  import opened Saves

  /** A tab's baseline is the stored value its version names. */
  predicate BasedTab(s: State, t: Tab) {
    t.id in s.written && t.version < |s.written[t.id]| && t.saved == s.written[t.id][t.version].edited
  }

  predicate BasedRead(s: State, r: Read) {
    r.Answered? ==> r.id in s.written && r.version < |s.written[r.id]| && r.value == s.written[r.id][r.version]
  }

  /** A save whose reply is on its way wrote what is stored now. */
  predicate ReplyIsNewest(s: State, run: Run) {
    run.status.Replied? && run.status.result.Some? ==> StoredNow(s, run.request) == run.status.result
  }

  ghost predicate Based(s: State) {
    && (forall t :: t in s.tabs ==> BasedTab(s, t))
    && (forall call :: call in s.fetches ==> BasedRead(s, s.fetches[call]))
    && (forall r :: 0 <= r < |s.runs| ==> ReplyIsNewest(s, s.runs[r]))
  }

  /** A save of `id` is written and its reply not delivered. */
  ghost predicate Undelivered(s: State, id: RequestId) {
    exists r :: 0 <= r < |s.runs| && s.runs[r].request == id && s.runs[r].status.Replied? && s.runs[r].status.result.Some?
  }

  /** The newest stored value of `id` that the window has been told of, or read first. */
  ghost function Seen(s: State, id: RequestId): int {
    if Undelivered(s, id) then Newest(s, id) - 1 else Newest(s, id)
  }

  ghost predicate Current(s: State, t: Tab) {
    t.version == Newest(s, t.id)
  }

  /** A save the tab does not show was delivered. */
  ghost predicate Late(s: State, t: Tab) {
    t.version < Seen(s, t.id)
  }

  // --------------------------------------------------------- what is kept

  /** While a save's reply is on its way no other save of its request is called. */
  lemma OneUnderWay(s: State, q: RunId, r: RunId)
    requires Serial(s) && q < |s.runs| && r < |s.runs| && s.runs[q].request == s.runs[r].request
    requires (s.runs[q].status == Calling || s.runs[q].status.Replied?) && (s.runs[r].status == Calling || s.runs[r].status.Replied?)
    ensures q == r
  {
  }

  /** More stored values leave what is based on the earlier ones. */
  lemma MoreStoredKeepsBased(s: State, t: State)
    requires Based(s) && t.tabs == s.tabs && t.fetches == s.fetches
    requires forall id :: id in s.written ==> id in t.written && s.written[id] <= t.written[id]
    ensures forall x :: x in t.tabs ==> BasedTab(t, x)
    ensures forall call :: call in t.fetches ==> BasedRead(t, t.fetches[call])
  {
    assert forall x :: x in s.tabs ==> BasedTab(s, x);
    assert forall call :: call in s.fetches ==> BasedRead(s, s.fetches[call]);
  }

  lemma WriteKeepsReplies(s: State, r: RunId, result: Option<Request>, q: RunId)
    requires Serial(s) && Enabled(s, Write(r, result)) && q < |s.runs| && ReplyIsNewest(s, s.runs[q])
    ensures ReplyIsNewest(AfterWrite(s, r, result), AfterWrite(s, r, result).runs[q])
  {
    if q != r && s.runs[q].status.Replied? && s.runs[q].request == s.runs[r].request {
      OneUnderWay(s, q, r);
    }
  }

  lemma WriteKeepsBased(s: State, r: RunId, result: Option<Request>)
    requires InOrder(s) && Based(s) && Enabled(s, Write(r, result))
    ensures Based(AfterWrite(s, r, result))
  {
    var t := AfterWrite(s, r, result);
    MoreStoredKeepsBased(s, t);
    forall q | 0 <= q < |t.runs| ensures ReplyIsNewest(t, t.runs[q]) {
      WriteKeepsReplies(s, r, result, q);
    }
  }

  lemma DeliverKeepsBased(s: State, r: RunId)
    requires Based(s) && r < |s.runs| && s.runs[r].status.Replied?
    ensures Based(AfterDeliver(s, r))
  {
    var t := AfterDeliver(s, r);
    assert ReplyIsNewest(s, s.runs[r]);
    forall x | x in t.tabs ensures BasedTab(t, x) {
      var i :| 0 <= i < |t.tabs| && t.tabs[i] == x;
      assert s.tabs[i] in s.tabs;
    }
    forall q | 0 <= q < |t.runs| ensures ReplyIsNewest(t, t.runs[q]) {
      assert ReplyIsNewest(s, s.runs[q]);
    }
  }

  lemma EditKeepsBased(s: State, id: RequestId, edited: int)
    requires Based(s)
    ensures Based(Next(s, Edit(id, edited)))
  {
    var t := Next(s, Edit(id, edited));
    forall x | x in t.tabs ensures BasedTab(t, x) {
      var i :| 0 <= i < |t.tabs| && t.tabs[i] == x;
      assert s.tabs[i] in s.tabs;
    }
  }

  lemma AskKeepsBased(s: State, id: RequestId)
    requires Based(s)
    ensures Based(Next(s, Save(id)))
  {
  }

  lemma MoveKeepsBased(s: State, r: RunId, status: Status)
    requires Based(s) && r < |s.runs| && !status.Replied?
    ensures Based(WithStatus(s, r, status))
  {
    var t := WithStatus(s, r, status);
    forall q | 0 <= q < |t.runs| ensures ReplyIsNewest(t, t.runs[q]) {
      assert ReplyIsNewest(s, s.runs[q]);
    }
  }

  lemma ReadKeepsBased(s: State, call: CallId)
    requires Based(s) && call in s.fetches && s.fetches[call].Asked?
    ensures Based(AfterAnswer(s, call))
  {
  }

  lemma ShowKeepsBased(s: State, call: CallId)
    requires Based(s) && call in s.fetches
    ensures Based(AfterShow(s, call))
  {
    assert BasedRead(s, s.fetches[call]);
  }

  lemma CloseKeepsBased(s: State, id: RequestId)
    requires Based(s)
    ensures Based(Next(s, Close(id)))
  {
    WithoutIs(s.tabs, id);
  }

  lemma OpenKeepsBased(s: State, id: RequestId, call: CallId)
    requires Based(s)
    ensures Based(Next(s, Open(id, call)))
  {
  }

  lemma StepKeepsBased(s: State, e: Event, t: State)
    requires InOrder(s) && Based(s) && Steps(s, e, t)
    ensures Based(t)
  {
    match e
    case Open(id, call) => OpenKeepsBased(s, id, call);
    case Answer(call) => ReadKeepsBased(s, call);
    case Show(call) => ShowKeepsBased(s, call);
    case Close(id) => CloseKeepsBased(s, id);
    case Edit(id, edited) => EditKeepsBased(s, id, edited);
    case Save(id) => AskKeepsBased(s, id);
    case Call(r) => MoveKeepsBased(s, r, Calling);
    case Write(r, result) => WriteKeepsBased(s, r, result);
    case Deliver(r) => DeliverKeepsBased(s, r);
    case Forget(_) =>
  }

  lemma StartBased(first: map<RequestId, Request>)
    ensures Based(Start(first))
  {
  }

  lemma {:induction false} RunKeepsBased(first: map<RequestId, Request>, states: seq<State>, events: seq<Event>, i: nat)
    requires Happens(first, states, events) && i <= |events|
    ensures Based(states[i])
  {
    if i == 0 {
      StartBased(first);
    } else {
      RunKeepsBased(first, states, events, i - 1);
      RunKeeps(first, states, events, i - 1);
      StepKeepsBased(states[i - 1], events[i - 1], states[i]);
    }
  }

  /**
   * A tab's baseline is always one of the stored values. It is the newest one
   * exactly when the tab is not late and no undelivered save is newer.
   */
  lemma BaselineIsStored(first: map<RequestId, Request>, states: seq<State>, events: seq<Event>, i: nat, t: Tab)
    requires Happens(first, states, events) && i <= |events| && t in states[i].tabs
    ensures var s := states[i];
      && BasedTab(s, t)
      && (Current(s, t) <==> !Late(s, t) && (Undelivered(s, t.id) ==> t.version != Seen(s, t.id)))
      && (Current(s, t) ==> StoredNow(s, t.id).Some? && t.saved == StoredNow(s, t.id).value.edited)
  {
    RunKeepsBased(first, states, events, i);
  }

  // -------------------------------------------- how what is stored moves on

  lemma OtherRuns(s: State, t: State, id: RequestId)
    requires t.written == s.written && |t.runs| >= |s.runs|
    requires forall q :: 0 <= q < |s.runs| ==> t.runs[q].request == s.runs[q].request
    requires forall q :: 0 <= q < |s.runs| && s.runs[q].request == id ==> (s.runs[q].status.Replied? || t.runs[q].status.Replied? ==> t.runs[q].status == s.runs[q].status)
    requires forall q :: |s.runs| <= q < |t.runs| ==> t.runs[q].status == Waiting
    ensures Newest(t, id) == Newest(s, id) && Seen(t, id) == Seen(s, id)
  {
    if Undelivered(s, id) {
      var r :| 0 <= r < |s.runs| && s.runs[r].request == id && s.runs[r].status.Replied? && s.runs[r].status.result.Some?;
      assert t.runs[r].status == s.runs[r].status;
    }
    if Undelivered(t, id) {
      var r :| 0 <= r < |t.runs| && t.runs[r].request == id && t.runs[r].status.Replied? && t.runs[r].status.result.Some?;
      assert s.runs[r].status == t.runs[r].status;
    }
  }

  /** Writing adds a value the window has not seen. */
  lemma WriteMoves(s: State, r: RunId, v: Request, id: RequestId)
    requires Serial(s) && Enabled(s, Write(r, Some(v))) && id == s.runs[r].request && s.written[id] != []
    ensures var t := AfterWrite(s, r, Some(v)); Newest(t, id) == Newest(s, id) + 1 && Seen(t, id) == Seen(s, id)
  {
    var t := AfterWrite(s, r, Some(v));
    if Undelivered(s, id) {
      var q :| 0 <= q < |s.runs| && s.runs[q].request == id && s.runs[q].status.Replied? && s.runs[q].status.result.Some?;
      OneUnderWay(s, q, r);
    }
    assert t.runs[r].status.Replied?;
    assert Undelivered(t, id);
  }

  /** A delivery tells the window of all that is stored. */
  lemma DeliverMoves(s: State, r: RunId, id: RequestId)
    requires Serial(s) && r < |s.runs| && s.runs[r].status.Replied? && s.runs[r].status.result.Some? && id == s.runs[r].request
    ensures var t := AfterDeliver(s, r); Newest(t, id) == Newest(s, id) && Seen(t, id) == Newest(s, id)
  {
    var t := AfterDeliver(s, r);
    if Undelivered(t, id) {
      var q :| 0 <= q < |t.runs| && t.runs[q].request == id && t.runs[q].status.Replied? && t.runs[q].status.result.Some?;
      assert q != r && s.runs[q] == t.runs[q];
      OneUnderWay(s, q, r);
    }
  }

  /** A step that delivers a successful save of `id`. */
  predicate Delivers(s: State, e: Event, id: RequestId) {
    e.Deliver? && e.run < |s.runs| && s.runs[e.run].request == id && s.runs[e.run].status.Replied? && s.runs[e.run].status.result.Some?
  }

  predicate Writes(s: State, e: Event, id: RequestId) {
    e.Write? && e.result.Some? && e.run < |s.runs| && s.runs[e.run].request == id
  }

  ghost predicate Stored(s: State) {
    forall id :: id in s.written ==> s.written[id] != []
  }

  /** What is stored moves on with a write, what the window has seen with a delivery, and neither otherwise. */
  lemma StepMoves(s: State, e: Event, t: State, id: RequestId)
    requires Serial(s) && Stored(s) && Steps(s, e, t)
    ensures Newest(t, id) == Newest(s, id) + (if Writes(s, e, id) then 1 else 0)
    ensures Seen(t, id) == if Delivers(s, e, id) then Newest(s, id) else Seen(s, id)
  {
    if Writes(s, e, id) {
      WriteMoves(s, e.run, e.result.value, id);
    } else if Delivers(s, e, id) {
      DeliverMoves(s, e.run, id);
    } else if e.Write? && e.result.Some? {
      OtherRuns(s, t.(written := s.written), id);
      assert s.runs[e.run].request != id;
      SameNewest(s, t, id);
    } else if e.Write? {
      FailureMoves(s, e.run, id);
    } else if e.Deliver? {
      FailedDeliveryMoves(s, e.run, id);
    } else {
      OtherRuns(s, t, id);
    }
  }

  lemma SameNewest(s: State, t: State, id: RequestId)
    requires id in s.written <==> id in t.written
    requires id in s.written ==> t.written[id] == s.written[id]
    requires Seen(t.(written := s.written), id) == Seen(s, id)
    ensures Newest(t, id) == Newest(s, id) && Seen(t, id) == Seen(s, id)
  {
    assert Undelivered(t, id) <==> Undelivered(t.(written := s.written), id);
  }

  lemma FailureMoves(s: State, r: RunId, id: RequestId)
    requires r < |s.runs| && s.runs[r].status == Calling
    ensures var t := AfterWrite(s, r, None); Newest(t, id) == Newest(s, id) && Seen(t, id) == Seen(s, id)
  {
    var t := AfterWrite(s, r, None);
    if Undelivered(s, id) {
      var q :| 0 <= q < |s.runs| && s.runs[q].request == id && s.runs[q].status.Replied? && s.runs[q].status.result.Some?;
      assert t.runs[q] == s.runs[q];
    }
    if Undelivered(t, id) {
      var q :| 0 <= q < |t.runs| && t.runs[q].request == id && t.runs[q].status.Replied? && t.runs[q].status.result.Some?;
      assert t.runs[q] == s.runs[q];
    }
  }

  lemma FailedDeliveryMoves(s: State, r: RunId, id: RequestId)
    requires r < |s.runs| && s.runs[r].status.Replied? && (s.runs[r].request != id || s.runs[r].status.result.None?)
    ensures var t := AfterDeliver(s, r); Newest(t, id) == Newest(s, id) && Seen(t, id) == Seen(s, id)
  {
    var t := AfterDeliver(s, r);
    if Undelivered(s, id) {
      var q :| 0 <= q < |s.runs| && s.runs[q].request == id && s.runs[q].status.Replied? && s.runs[q].status.result.Some?;
      assert t.runs[q] == s.runs[q];
    }
    if Undelivered(t, id) {
      var q :| 0 <= q < |t.runs| && t.runs[q].request == id && t.runs[q].status.Replied? && t.runs[q].status.result.Some?;
      assert t.runs[q] == s.runs[q];
    }
  }

  lemma RunStored(first: map<RequestId, Request>, states: seq<State>, events: seq<Event>, i: nat)
    requires Happens(first, states, events) && i <= |events|
    ensures Serial(states[i]) && Stored(states[i])
  {
    RunKeeps(first, states, events, i);
  }

  lemma MovesAt(first: map<RequestId, Request>, states: seq<State>, events: seq<Event>, i: nat, id: RequestId)
    requires Happens(first, states, events) && i < |events|
    ensures Newest(states[i + 1], id) == Newest(states[i], id) + (if Writes(states[i], events[i], id) then 1 else 0)
    ensures Seen(states[i + 1], id) == if Delivers(states[i], events[i], id) then Newest(states[i], id) else Seen(states[i], id)
  {
    RunStored(first, states, events, i);
    StepMoves(states[i], events[i], states[i + 1], id);
  }

  lemma SeenBound(s: State, id: RequestId)
    ensures Seen(s, id) <= Newest(s, id)
  {
  }

  lemma {:induction false} OnlyMoreStored(first: map<RequestId, Request>, states: seq<State>, events: seq<Event>, i: nat, j: nat, id: RequestId)
    requires Happens(first, states, events) && i <= j <= |events|
    ensures Newest(states[i], id) <= Newest(states[j], id) && Seen(states[i], id) <= Seen(states[j], id)
    decreases j
  {
    if i < j {
      OnlyMoreStored(first, states, events, i, j - 1, id);
      MovesAt(first, states, events, j - 1, id);
      SeenBound(states[j - 1], id);
    }
  }

  /** If the window has seen more than `v` at `j` and not at `i`, a delivery between was the first to tell it. */
  lemma {:induction false} FirstSeen(first: map<RequestId, Request>, states: seq<State>, events: seq<Event>, i: nat, j: nat, id: RequestId, v: int)
    returns (d: nat)
    requires Happens(first, states, events) && i <= j <= |events| && Seen(states[i], id) <= v < Seen(states[j], id)
    ensures i <= d < j && Delivers(states[d], events[d], id) && v < Newest(states[d], id)
    decreases j
  {
    MovesAt(first, states, events, j - 1, id);
    if v < Seen(states[j - 1], id) {
      d := FirstSeen(first, states, events, i, j - 1, id, v);
    } else {
      d := j - 1;
    }
  }

  // --------------------------------------------------------- one save's way

  /** Save `r` has not been written, or not even been asked for. */
  predicate Unwritten(s: State, r: RunId) {
    r < |s.runs| ==> s.runs[r].status == Waiting || s.runs[r].status == Calling
  }

  lemma StepOf(s: State, e: Event, t: State, r: RunId)
    requires Steps(s, e, t) && r < |s.runs|
    ensures r < |t.runs| && t.runs[r].request == s.runs[r].request
    ensures s.runs[r].status.Settled? ==> t.runs[r].status.Settled?
    ensures s.runs[r].status.Replied? ==> t.runs[r].status == s.runs[r].status || t.runs[r].status.Settled?
    ensures Unwritten(s, r) && !Unwritten(t, r) ==> e.Write? && e.run == r && t.runs[r].status == Replied(e.result)
  {
  }

  lemma StepFrom(s: State, e: Event, t: State, r: RunId)
    requires Steps(s, e, t) && r >= |s.runs|
    ensures Unwritten(t, r)
  {
  }

  /** While the reply of a written save is on its way nothing else of its request is written. */
  lemma {:induction false} NothingElseWritten(first: map<RequestId, Request>, states: seq<State>, events: seq<Event>, i: nat, j: nat, r: RunId)
    requires Happens(first, states, events) && i <= j <= |events|
    requires r < |states[i].runs| && !Unwritten(states[i], r)
    requires r < |states[j].runs| && states[j].runs[r].status.Replied?
    ensures states[i].runs[r].request == states[j].runs[r].request
    ensures Newest(states[j], states[j].runs[r].request) == Newest(states[i], states[j].runs[r].request)
    decreases j - i
  {
    if i < j {
      StepOf(states[i], events[i], states[i + 1], r);
      if states[i].runs[r].status.Settled? {
        StaysSettled(first, states, events, i, j, r);
      }
      NothingElseWritten(first, states, events, i + 1, j, r);
      MovesAt(first, states, events, i, states[i].runs[r].request);
      RunStored(first, states, events, i);
      if Writes(states[i], events[i], states[i].runs[r].request) {
        OneUnderWay(states[i], events[i].run, r);
      }
    }
  }

  lemma {:induction false} StaysSettled(first: map<RequestId, Request>, states: seq<State>, events: seq<Event>, i: nat, j: nat, r: RunId)
    requires Happens(first, states, events) && i <= j <= |events|
    requires r < |states[i].runs| && states[i].runs[r].status.Settled?
    ensures r < |states[j].runs| && states[j].runs[r].status.Settled?
    decreases j
  {
    if i < j {
      StaysSettled(first, states, events, i, j - 1, r);
      StepOf(states[j - 1], events[j - 1], states[j], r);
    }
  }

  /** A save unwritten at `i` and written at `j` added to what is stored. */
  lemma {:induction false} WrittenBetween(first: map<RequestId, Request>, states: seq<State>, events: seq<Event>, i: nat, j: nat, r: RunId, id: RequestId)
    requires Happens(first, states, events) && i <= j <= |events| && Unwritten(states[i], r)
    requires r < |states[j].runs| && states[j].runs[r].request == id && states[j].runs[r].status.Replied? && states[j].runs[r].status.result.Some?
    ensures Newest(states[i], id) < Newest(states[j], id)
    decreases j
  {
    var s, e := states[j - 1], events[j - 1];
    MovesAt(first, states, events, j - 1, id);
    if r < |s.runs| {
      StepOf(s, e, states[j], r);
      if s.runs[r].status.Replied? {
        WrittenBetween(first, states, events, i, j - 1, r, id);
      } else {
        OnlyMoreStored(first, states, events, i, j - 1, id);
      }
    } else {
      StepFrom(s, e, states[j], r);
    }
  }

  // -------------------------------------------------------- opened too late

  /** At `d` a save is delivered that was not yet written when the read was answered at `a`. */
  predicate Overtakes(states: seq<State>, events: seq<Event>, a: nat, d: nat, id: RequestId)
    requires |states| == |events| + 1
  {
    a < d < |events| && Delivers(states[d], events[d], id) && Unwritten(states[a + 1], events[d].run)
  }

  lemma {:induction false} ReadStays(first: map<RequestId, Request>, states: seq<State>, events: seq<Event>, i: nat, j: nat, call: CallId)
    requires Happens(first, states, events) && i <= j <= |events|
    requires call in states[i].fetches && states[i].fetches[call].Answered?
    requires forall k :: i <= k < j ==> events[k] != Show(call)
    ensures call in states[j].fetches && states[j].fetches[call] == states[i].fetches[call]
    decreases j
  {
    if i < j {
      ReadStays(first, states, events, i, j - 1, call);
      ReadStep(states[j - 1], events[j - 1], states[j], call);
    }
  }

  lemma ReadStep(s: State, e: Event, t: State, call: CallId)
    requires Steps(s, e, t) && e != Show(call) && call in s.fetches && s.fetches[call].Answered?
    ensures call in t.fetches && t.fetches[call] == s.fetches[call]
  {
  }

  /**
   * A tab opens on a baseline that is late exactly when, after its read was
   * answered, a save of its request was written and delivered.
   */
  lemma LateExactly(first: map<RequestId, Request>, states: seq<State>, events: seq<Event>, a: nat, i: nat, call: CallId)
    requires Happens(first, states, events) && a < i < |events| && events[a] == Answer(call) && events[i] == Show(call)
    requires forall k :: a < k < i ==> events[k] != Show(call)
    requires call in states[a + 1].fetches
    ensures states[i + 1].tabs != []
    ensures var tab := states[i + 1].tabs[|states[i + 1].tabs| - 1];
      && tab.id == states[a].fetches[call].id
      && (Late(states[i + 1], tab) <==> exists d: nat :: d < i && Overtakes(states, events, a, d, tab.id))
  {
    ReadStays(first, states, events, a + 1, i, call);
    var id, v := states[a].fetches[call].id, Newest(states[a + 1], states[a].fetches[call].id);
    ShownTab(states[a], events[a], states[a + 1], states[i], states[i + 1], call);
    MovesAt(first, states, events, i, id);
    if v < Seen(states[i], id) {
      OvertakenIfLate(first, states, events, a, i, id);
    }
    forall d: nat | d < i && Overtakes(states, events, a, d, id) ensures v < Seen(states[i], id) {
      LateIfOvertaken(first, states, events, a, d, i, id);
    }
  }

  lemma ShownTab(s: State, e: Event, t: State, u: State, after: State, call: CallId)
    requires Steps(s, e, t) && e == Answer(call) && call in t.fetches
    requires call in u.fetches && u.fetches[call] == t.fetches[call] && Steps(u, Show(call), after)
    ensures after.tabs != [] && after.tabs[|after.tabs| - 1].id == s.fetches[call].id
    ensures after.tabs[|after.tabs| - 1].version == Newest(t, s.fetches[call].id)
  {
  }

  lemma OvertakenIfLate(first: map<RequestId, Request>, states: seq<State>, events: seq<Event>, a: nat, i: nat, id: RequestId)
    requires Happens(first, states, events) && a < i < |events|
    requires Newest(states[a + 1], id) < Seen(states[i], id)
    ensures exists d: nat :: d < i && Overtakes(states, events, a, d, id)
  {
    SeenBound(states[a + 1], id);
    var d := FirstSeen(first, states, events, a + 1, i, id, Newest(states[a + 1], id));
    var r := events[d].run;
    if !Unwritten(states[a + 1], r) {
      NothingElseWritten(first, states, events, a + 1, d, r);
    }
    assert Overtakes(states, events, a, d, id);
  }

  lemma LateIfOvertaken(first: map<RequestId, Request>, states: seq<State>, events: seq<Event>, a: nat, d: nat, i: nat, id: RequestId)
    requires Happens(first, states, events) && d < i < |events| && Overtakes(states, events, a, d, id)
    ensures Newest(states[a + 1], id) < Seen(states[i], id)
  {
    WrittenBetween(first, states, events, a + 1, d, events[d].run, id);
    MovesAt(first, states, events, d, id);
    OnlyMoreStored(first, states, events, d + 1, i, id);
  }

  /** No open tab becomes late: one that is was shown late, or was late before the step and untouched by a delivery. */
  lemma OnlyShownLate(s: State, e: Event, t: State, u: Tab)
    requires Serial(s) && Stored(s) && Steps(s, e, t) && u in t.tabs && Late(t, u)
    ensures (e.Show? && u == t.tabs[|t.tabs| - 1])
         || (!Delivers(s, e, u.id) && exists w :: w in s.tabs && w.id == u.id && w.version == u.version && Late(s, w))
  {
    StepMoves(s, e, t, u.id);
    var w := TabBefore(s, e, t, u);
  }

  /** Where a tab comes from, and what a delivery makes of it. */
  lemma TabBefore(s: State, e: Event, t: State, u: Tab) returns (w: Option<Tab>)
    requires Steps(s, e, t) && u in t.tabs
    ensures w.Some? ==> w.value in s.tabs && w.value.id == u.id
    ensures w.Some? && !Delivers(s, e, u.id) ==> w.value.version == u.version
    ensures Delivers(s, e, u.id) ==> u.version == Newest(s, u.id)
    ensures w.None? ==> e.Show? && u == t.tabs[|t.tabs| - 1]
  {
    if e.Close? {
      WithoutIs(s.tabs, e.id);
      return Some(u);
    }
    var i :| 0 <= i < |t.tabs| && t.tabs[i] == u;
    w := if i < |s.tabs| then Some(s.tabs[i]) else None;
  }

  // ------------------------------------------------- a run that opens late

  const OLD := Request(1, 0)
  const NEW := Request(5, 0)
  const FIRST: map<RequestId, Request> := map[7 := OLD]

  /** Open a request, edit it, save it and close its tab while the save is called. */
  const CLOSING: seq<Event> := [Open(7, 0), Answer(0), Show(0), Edit(7, 5), Save(7), Call(0), Close(7)]

  /** Open it again: the read is answered before the save is written and arrives after its reply. */
  const REOPENING: seq<Event> := [Open(7, 1), Answer(1), Write(0, Some(NEW)), Deliver(0), Show(1)]

  const CALLED := Run(7, None, Draft(1, NEW), Calling)

  lemma OpeningRun(first: map<RequestId, Request>) returns (states: seq<State>)
    requires first == FIRST
    ensures Happens(first, states, CLOSING[..3])
    ensures states[3] == State([Tab(7, Draft(0, OLD), 1, 0)], map[], map[], [], map[7 := [OLD]], 1)
  {
    var s0 := State([], map[], map[], [], map[7 := [OLD]], 0);
    var s1 := s0.(fetches := map[0 := Asked(7)]);
    var s2 := s0.(fetches := map[0 := Answered(7, OLD, 0)]);
    var s3 := State([Tab(7, Draft(0, OLD), 1, 0)], map[], map[], [], map[7 := [OLD]], 1);
    assert Start(first) == s0;
    assert Steps(s0, Open(7, 0), s1) && Steps(s1, Answer(0), s2) && Steps(s2, Show(0), s3);
    states := [s0, s1, s2, s3];
  }

  lemma SavingRun(s3: State) returns (states: seq<State>)
    requires s3 == State([Tab(7, Draft(0, OLD), 1, 0)], map[], map[], [], map[7 := [OLD]], 1)
    ensures |states| == 5 && states[0] == s3
    ensures forall i :: 0 <= i < 4 ==> Steps(states[i], CLOSING[3..][i], states[i + 1])
    ensures states[4] == State([], map[], map[7 := 0], [CALLED], map[7 := [OLD]], 2)
  {
    var edited := [Tab(7, Draft(1, NEW), 1, 0)];
    var s4 := s3.(tabs := edited, objects := 2);
    var s5 := s4.(saving := map[7 := 0], runs := [Run(7, None, Draft(1, NEW), Waiting)]);
    var s6 := s5.(runs := [CALLED]);
    var s7 := s6.(tabs := []);
    assert EditedTabs(s3.tabs, 7, Draft(1, NEW)) == edited;
    assert Steps(s3, Edit(7, 5), s4) && Steps(s4, Save(7), s5) && Steps(s5, Call(0), s6);
    assert Without(edited, 7) == [] + Without(edited[1..], 7) == [];
    assert Steps(s6, Close(7), s7);
    states := [s3, s4, s5, s6, s7];
  }

  lemma ClosingRun(first: map<RequestId, Request>) returns (states: seq<State>)
    requires first == FIRST
    ensures Happens(first, states, CLOSING)
    ensures states[7] == State([], map[], map[7 := 0], [CALLED], map[7 := [OLD]], 2)
  {
    var opening := OpeningRun(first);
    var saving := SavingRun(opening[3]);
    JoinedRun(first, opening, CLOSING[..3], saving, CLOSING[3..]);
    assert CLOSING[..3] + CLOSING[3..] == CLOSING;
    states := opening + saving[1..];
    assert states[7] == saving[4];
  }

  lemma ReopeningRun(s0: State) returns (states: seq<State>)
    requires s0 == State([], map[], map[7 := 0], [CALLED], map[7 := [OLD]], 2)
    ensures |states| == 6 && states[0] == s0
    ensures forall i :: 0 <= i < 5 ==> Steps(states[i], REOPENING[i], states[i + 1])
    ensures states[5].tabs == [Tab(7, Draft(3, OLD), 1, 0)] && states[5].written == map[7 := [OLD, NEW]]
    ensures states[5].fetches == map[] && states[5].runs == [CALLED.(status := Settled(Some(NEW)))]
  {
    var s1 := s0.(fetches := map[1 := Asked(7)]);
    var s2 := s0.(fetches := map[1 := Answered(7, OLD, 0)]);
    var s3 := s2.(runs := [CALLED.(status := Replied(Some(NEW)))], written := map[7 := [OLD, NEW]]);
    var s4 := s3.(runs := [CALLED.(status := Settled(Some(NEW)))], objects := 3);
    var s5 := s4.(fetches := map[], tabs := [Tab(7, Draft(3, OLD), 1, 0)], objects := 4);
    assert Steps(s0, Open(7, 1), s1) && Steps(s1, Answer(1), s2);
    assert s0.written[7] + [NEW] == [OLD, NEW];
    assert Steps(s2, Write(0, Some(NEW)), s3);
    assert RebasedTabs([], s3.runs[0], NEW, 1, 2) == [];
    assert Steps(s3, Deliver(0), s4) && Steps(s4, Show(1), s5);
    states := [s0, s1, s2, s3, s4, s5];
  }

  /** With no save and no read under way, the reopened tab shows the old value as saved while the new one is stored. */
  lemma ReopenedTabIsLate() returns (states: seq<State>)
    ensures Happens(FIRST, states, CLOSING + REOPENING)
    ensures var s := states[12];
      && s.fetches == map[] && (forall r :: 0 <= r < |s.runs| ==> s.runs[r].status.Settled?)
      && s.tabs == [Tab(7, Draft(3, OLD), 1, 0)] && Late(s, s.tabs[0]) && StoredNow(s, 7) == Some(NEW) && !Dirty(s.tabs[0])
  {
    var closing := ClosingRun(FIRST);
    var reopening := ReopeningRun(closing[7]);
    states := closing + reopening[1..];
    JoinedRun(FIRST, closing, CLOSING, reopening, REOPENING);
    assert states[12] == reopening[5];
  }

  lemma JoinedRun(first: map<RequestId, Request>, a: seq<State>, es: seq<Event>, b: seq<State>, fs: seq<Event>)
    requires Happens(first, a, es) && |b| == |fs| + 1 && b[0] == a[|es|]
    requires forall i :: 0 <= i < |fs| ==> Steps(b[i], fs[i], b[i + 1])
    ensures Happens(first, a + b[1..], es + fs)
  {
    var states, events := a + b[1..], es + fs;
    forall i | 0 <= i < |events| ensures Steps(states[i], events[i], states[i + 1]) {
      if i >= |es| {
        assert states[i] == b[i - |es|] && states[i + 1] == b[i - |es| + 1];
      }
    }
  }
}
