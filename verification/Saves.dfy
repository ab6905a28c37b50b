/**
 * Opening and saving requests in their tabs: a read and a save are each a
 * call, its work in the backend and its reply, in any order with the user's
 * steps. Saves of one request chain on each other.
 */
module Saves {
  import opened Prelude

  type RequestId = nat
  type RunId = nat
  type CallId = nat

  /** A saved request: its name and spec, which the editor changes, and the rest. */
  datatype Request = Request(edited: int, rest: int)

  /** The draft a tab holds: a new object after each edit. */
  datatype Draft = Draft(identity: nat, value: Request)

  /** `saved` is the name and spec last read or written; `version` says which of the stored ones that was. */
  datatype Tab = Tab(id: RequestId, draft: Draft, saved: int, version: nat)

  /** A read on its way to the backend, or back with what was stored. */
  datatype Read = Asked(id: RequestId) | Answered(id: RequestId, value: Request, version: nat)

  /** A save not called yet, called, done in the backend, or answered in the window. */
  datatype Status = Waiting | Calling | Replied(result: Option<Request>) | Settled(result: Option<Request>)

  /** One save: the draft submitted, and the save it waits for. */
  datatype Run = Run(request: RequestId, after: Option<RunId>, submitted: Draft, status: Status)

  /**
   * `runs` in the order asked; `saving` is the last save asked for, until it is
   * forgotten; `written` is what the backend has stored of each request, oldest
   * first.
   */
  datatype State = State(tabs: seq<Tab>, fetches: map<CallId, Read>, saving: map<RequestId, RunId>, runs: seq<Run>,
                         written: map<RequestId, seq<Request>>, objects: nat)

  /** `call` is the id of the read the step sends or answers. */
  datatype Event =
    | Open(id: RequestId, call: CallId)
    | Answer(call: CallId)
    | Show(call: CallId)
    | Close(id: RequestId)
    | Edit(id: RequestId, edited: int)
    | Save(id: RequestId)
    | Call(run: RunId)
    | Write(run: RunId, result: Option<Request>)
    | Deliver(run: RunId)
    | Forget(run: RunId)

  /** A save's call starts once the save it chained on is answered, either way. */
  predicate MayCall(s: State, r: RunId) {
    && r < |s.runs| && s.runs[r].status == Waiting
    && (s.runs[r].after.Some? ==> s.runs[r].after.value < |s.runs| && s.runs[s.runs[r].after.value].status.Settled?)
  }

  predicate Enabled(s: State, e: Event) {
    match e
    case Open(_, call) => call !in s.fetches
    case Answer(call) => call in s.fetches && s.fetches[call].Asked?
    case Show(call) => call in s.fetches && s.fetches[call].Answered?
    case Call(r) => MayCall(s, r)
    case Write(r, result) => r < |s.runs| && s.runs[r].status == Calling && (result.Some? ==> s.runs[r].request in s.written)
    case Deliver(r) => r < |s.runs| && s.runs[r].status.Replied?
    case Forget(r) => r < |s.runs| && s.runs[r].status.Settled?
    case _ => true
  }

  function Find(tabs: seq<Tab>, id: RequestId): Option<Tab> {
    if tabs == [] then None else if tabs[0].id == id then Some(tabs[0]) else Find(tabs[1..], id)
  }

  function Without(tabs: seq<Tab>, id: RequestId): seq<Tab> {
    if tabs == [] then [] else (if tabs[0].id == id then [] else [tabs[0]]) + Without(tabs[1..], id)
  }

  /** Every tab of `id` gets the same new draft. */
  function EditedTabs(tabs: seq<Tab>, id: RequestId, draft: Draft): (r: seq<Tab>)
    ensures |r| == |tabs|
    ensures forall i :: 0 <= i < |r| ==> r[i] == if tabs[i].id == id then tabs[i].(draft := draft) else tabs[i]
  {
    seq(|tabs|, i requires 0 <= i < |tabs| => if tabs[i].id == id then tabs[i].(draft := draft) else tabs[i])
  }

  /** A tab once a save of it is answered: clean if nothing changed meanwhile, with the newer edits otherwise. */
  function Rebased(tab: Tab, submitted: Draft, result: Request, version: nat, objects: nat, i: nat): Tab {
    var draft := if tab.draft.identity == submitted.identity then Draft(objects, result)
                 else Draft(objects + 1 + i, Request(tab.draft.value.edited, result.rest));
    Tab(tab.id, draft, result.edited, version)
  }

  function RebasedTabs(tabs: seq<Tab>, run: Run, result: Request, version: nat, objects: nat): (r: seq<Tab>)
    ensures |r| == |tabs|
    ensures forall i :: 0 <= i < |r| ==>
      r[i] == if tabs[i].id == run.request then Rebased(tabs[i], run.submitted, result, version, objects, i) else tabs[i]
  {
    seq(|tabs|, i requires 0 <= i < |tabs| =>
      if tabs[i].id == run.request then Rebased(tabs[i], run.submitted, result, version, objects, i) else tabs[i])
  }

  predicate Dirty(tab: Tab) {
    tab.draft.value.edited != tab.saved
  }

  /** Which of the stored values of `id` is stored now. */
  function Newest(s: State, id: RequestId): nat {
    if id in s.written && s.written[id] != [] then |s.written[id]| - 1 else 0
  }

  /** What the backend has stored of `id`. */
  function StoredNow(s: State, id: RequestId): Option<Request> {
    if id in s.written && s.written[id] != [] then Some(s.written[id][|s.written[id]| - 1]) else None
  }

  function AfterAnswer(s: State, call: CallId): State
    requires call in s.fetches
  {
    var id := s.fetches[call].id;
    match StoredNow(s, id)
    case None => s.(fetches := s.fetches - {call})
    case Some(value) => s.(fetches := s.fetches[call := Answered(id, value, Newest(s, id))])
  }

  function AfterShow(s: State, call: CallId): State
    requires call in s.fetches
  {
    var read := s.fetches[call];
    var t := s.(fetches := s.fetches - {call});
    if read.Asked? then t
    else t.(tabs := s.tabs + [Tab(read.id, Draft(s.objects, read.value), read.value.edited, read.version)], objects := s.objects + 1)
  }

  function WithStatus(s: State, r: RunId, status: Status): State
    requires r < |s.runs|
  {
    s.(runs := s.runs[r := s.runs[r].(status := status)])
  }

  function AfterWrite(s: State, r: RunId, result: Option<Request>): State
    requires r < |s.runs|
  {
    var id := s.runs[r].request;
    var t := WithStatus(s, r, Replied(result));
    if result.Some? && id in s.written then t.(written := s.written[id := s.written[id] + [result.value]]) else t
  }

  function AfterDeliver(s: State, r: RunId): State
    requires r < |s.runs|
  {
    var run := s.runs[r];
    if !run.status.Replied? then s
    else
      var t := WithStatus(s, r, Settled(run.status.result));
      match run.status.result
      case None => t
      case Some(result) =>
        t.(tabs := RebasedTabs(s.tabs, run, result, Newest(s, run.request), s.objects), objects := s.objects + 1 + |s.tabs|)
  }

  function Next(s: State, e: Event): State {
    match e
    case Open(id, call) => if Find(s.tabs, id).Some? then s else s.(fetches := s.fetches[call := Asked(id)])
    case Answer(call) => if call in s.fetches then AfterAnswer(s, call) else s
    case Show(call) => if call in s.fetches then AfterShow(s, call) else s
    case Close(id) => s.(tabs := Without(s.tabs, id))
    case Edit(id, edited) =>
      if Find(s.tabs, id).None? then s
      else s.(tabs := EditedTabs(s.tabs, id, Draft(s.objects, Find(s.tabs, id).value.draft.value.(edited := edited))),
              objects := s.objects + 1)
    case Save(id) =>
      if Find(s.tabs, id).None? then s
      else s.(saving := s.saving[id := |s.runs|],
              runs := s.runs + [Run(id, Lookup(s.saving, id), Find(s.tabs, id).value.draft, Waiting)])
    case Call(r) => if r < |s.runs| then WithStatus(s, r, Calling) else s
    case Write(r, result) => if r < |s.runs| then AfterWrite(s, r, result) else s
    case Deliver(r) => if r < |s.runs| then AfterDeliver(s, r) else s
    case Forget(r) =>
      if r < |s.runs| && Lookup(s.saving, s.runs[r].request) == Some(r) then s.(saving := s.saving - {s.runs[r].request}) else s
  }

  // -------------------------------------------------------------- the code

  /** The window's tabs and pending saves; `fetches`, `runs` and `written` hold what is on its way and in the backend. */
  class Editor {
    var tabs: seq<Tab>
    var fetches: map<CallId, Read>
    var saving: map<RequestId, RunId>
    var runs: seq<Run>
    var written: map<RequestId, seq<Request>>
    var objects: nat

    function View(): State
      reads this
    {
      State(tabs, fetches, saving, runs, written, objects)
    }

    constructor (stored: map<RequestId, Request>)
      ensures View() == Start(stored)
    {
      tabs, saving, runs, objects := [], map[], [], 0;
      fetches := map[];
      written := Start(stored).written;
    }

    /** Ask for the request unless a tab shows it. */
    method OpenRequest(id: RequestId, call: CallId)
      modifies this`fetches
      ensures fetches == if exists t :: t in tabs && t.id == id then old(fetches) else old(fetches)[call := Asked(id)]
      ensures View() == Next(old(View()), Open(id, call))
    {
      FindIs(tabs, id);
      if Find(tabs, id).None? {
        fetches := fetches[call := Asked(id)];
      }
    }

    /** The request arrives: it gets a tab, whatever happened since it was asked for. */
    method ShowRead(call: CallId)
      requires call in fetches && fetches[call].Answered?
      modifies this`fetches, this`tabs, this`objects
      ensures fetches == old(fetches) - {call} && objects > old(objects)
      ensures var read := old(fetches)[call];
        && |tabs| == |old(tabs)| + 1 && tabs[..|old(tabs)|] == old(tabs)
        && tabs[|old(tabs)|] == Tab(read.id, Draft(old(objects), read.value), read.value.edited, read.version)
      ensures View() == Next(old(View()), Show(call))
    {
      var read := fetches[call];
      fetches := fetches - {call};
      tabs := tabs + [Tab(read.id, Draft(objects, read.value), read.value.edited, read.version)];
      objects := objects + 1;
    }

    method CloseTab(id: RequestId)
      modifies this`tabs
      ensures tabs == Without(old(tabs), id)
      ensures View() == Next(old(View()), Close(id))
    {
      tabs := Without(tabs, id);
    }

    method EditDraft(id: RequestId, edited: int)
      modifies this`tabs, this`objects
      ensures |tabs| == |old(tabs)|
      ensures forall i :: 0 <= i < |tabs| && tabs[i].id != id ==> tabs[i] == old(tabs)[i]
      ensures forall i :: 0 <= i < |tabs| && tabs[i].id == id ==>
        && tabs[i] == old(tabs)[i].(draft := tabs[i].draft)
        && tabs[i].draft.identity == old(objects) < objects
        && Find(old(tabs), id).Some? && tabs[i].draft.value == Find(old(tabs), id).value.draft.value.(edited := edited)
      ensures View() == Next(old(View()), Edit(id, edited))
    {
      var tab := Find(tabs, id);
      FindIs(tabs, id);
      if tab.Some? {
        tabs := EditedTabs(tabs, id, Draft(objects, tab.value.draft.value.(edited := edited)));
        objects := objects + 1;
      }
    }

    /** Ask for a save: chain it on the one pending. */
    method SaveTab(id: RequestId)
      modifies this`runs, this`saving
      ensures Find(tabs, id).None? ==> runs == old(runs) && saving == old(saving)
      ensures Find(tabs, id).Some? ==>
        && runs == old(runs) + [Run(id, if id in old(saving) then Some(old(saving)[id]) else None, Find(tabs, id).value.draft, Waiting)]
        && saving == old(saving)[id := |old(runs)|]
      ensures View() == Next(old(View()), Save(id))
    {
      var tab := Find(tabs, id);
      if tab.None? {
        return;
      }
      var run := Run(id, Lookup(saving, id), tab.value.draft, Waiting);
      runs := runs + [run];
      saving := saving[id := |runs| - 1];
    }

    /** The reply to a save reaches the window. */
    method OnReply(r: RunId)
      requires r < |runs| && runs[r].status.Replied?
      modifies this`runs, this`tabs, this`objects
      ensures runs == old(runs)[r := old(runs)[r].(status := Settled(old(runs)[r].status.result))]
      ensures |tabs| == |old(tabs)|
      ensures forall i :: 0 <= i < |tabs| && (tabs[i].id != runs[r].request || old(runs)[r].status.result.None?) ==> tabs[i] == old(tabs)[i]
      ensures forall i :: 0 <= i < |tabs| && tabs[i].id == runs[r].request && old(runs)[r].status.result.Some? ==>
        var was, result := old(tabs)[i], old(runs)[r].status.result.value;
        && tabs[i].saved == result.edited
        && tabs[i].draft.value == (if was.draft.identity == runs[r].submitted.identity then result
                                   else Request(was.draft.value.edited, result.rest))
      ensures View() == Next(old(View()), Deliver(r))
    {
      var run := runs[r];
      runs := runs[r := run.(status := Settled(run.status.result))];
      if run.status.result.Some? {
        tabs := RebasedTabs(tabs, run, run.status.result.value, Newest(View(), run.request), objects);
        objects := objects + 1 + |tabs|;
      }
    }

    /** A save's last step, after the tree was read again. */
    method OnDone(r: RunId)
      requires r < |runs|
      modifies this`saving
      ensures var id := runs[r].request;
        saving == if id in old(saving) && old(saving)[id] == r then old(saving) - {id} else old(saving)
      ensures View() == Next(old(View()), Forget(r))
    {
      var id := runs[r].request;
      if id in saving && saving[id] == r {
        saving := saving - {id};
      }
    }
  }

  /** What the backend does with a read, and with a save once its turn has come: it answers the newest value, or adds one. */
  lemma BackendSteps(s: State, call: CallId, r: RunId, result: Option<Request>)
    ensures call in s.fetches && s.fetches[call].id in s.written && s.written[s.fetches[call].id] != [] ==>
      var id := s.fetches[call].id;
      var n := |s.written[id]| - 1;
      Next(s, Answer(call)) == s.(fetches := s.fetches[call := Answered(id, s.written[id][n], n)])
    ensures call in s.fetches && (s.fetches[call].id in s.written ==> s.written[s.fetches[call].id] == []) ==>
      Next(s, Answer(call)) == s.(fetches := s.fetches - {call})
    ensures r < |s.runs| ==> Next(s, Call(r)) == s.(runs := s.runs[r := s.runs[r].(status := Calling)])
    ensures r < |s.runs| ==>
      var id, t := s.runs[r].request, Next(s, Write(r, result));
      && t == s.(runs := t.runs, written := t.written) && t.runs == s.runs[r := s.runs[r].(status := Replied(result))]
      && t.written == (if result.Some? && id in s.written then s.written[id := s.written[id] + [result.value]] else s.written)
  {
  }

  // ------------------------------------------------------- saves in order

  /** A save that is called or further has every earlier save of its request answered. */
  ghost predicate Serial(s: State) {
    forall q, r :: 0 <= q < r < |s.runs| && s.runs[q].request == s.runs[r].request && s.runs[r].status != Waiting ==>
      s.runs[q].status.Settled?
  }

  /** A save waits for the last one of its request, unless all were answered when it was asked. */
  ghost predicate Chained(s: State) {
    && (forall r :: 0 <= r < |s.runs| && s.runs[r].after.Some? ==>
          s.runs[r].after.value < r && s.runs[s.runs[r].after.value].request == s.runs[r].request)
    && (forall q, r :: 0 <= q < r < |s.runs| && s.runs[q].request == s.runs[r].request ==>
          s.runs[q].status.Settled? || (s.runs[r].after.Some? && q <= s.runs[r].after.value))
  }

  /** `saving` names the last save of each request that has one pending. */
  ghost predicate Tracked(s: State) {
    && (forall q :: 0 <= q < |s.runs| ==>
          s.runs[q].status.Settled? || (s.runs[q].request in s.saving && q <= s.saving[s.runs[q].request]))
    && (forall id :: id in s.saving ==> s.saving[id] < |s.runs| && s.runs[s.saving[id]].request == id)
  }

  ghost predicate InOrder(s: State) {
    Serial(s) && Chained(s) && Tracked(s)
  }

  /** `t` is `s` with one more save asked for, chained on the pending one of its request. */
  ghost predicate Asks(s: State, t: State, run: Run) {
    && run.status == Waiting && run.after == Lookup(s.saving, run.request)
    && t.runs == s.runs + [run] && t.saving == s.saving[run.request := |s.runs|]
  }

  lemma AskKeepsSerial(s: State, t: State, run: Run)
    requires Serial(s) && Asks(s, t, run)
    ensures Serial(t)
  {
  }

  lemma AskKeepsChained(s: State, t: State, run: Run)
    requires Chained(s) && Tracked(s) && Asks(s, t, run)
    ensures Chained(t)
  {
    assert forall q :: 0 <= q < |s.runs| ==> t.runs[q] == s.runs[q];
  }

  lemma AskKeepsTracked(s: State, t: State, run: Run)
    requires Tracked(s) && Asks(s, t, run)
    ensures Tracked(t)
  {
    assert forall q :: 0 <= q < |s.runs| ==> t.runs[q] == s.runs[q];
  }

  lemma SaveKeepsOrder(s: State, id: RequestId)
    requires InOrder(s)
    ensures InOrder(Next(s, Save(id)))
  {
    if Find(s.tabs, id).Some? {
      var t, run := Next(s, Save(id)), Run(id, Lookup(s.saving, id), Find(s.tabs, id).value.draft, Waiting);
      AskKeepsSerial(s, t, run);
      AskKeepsChained(s, t, run);
      AskKeepsTracked(s, t, run);
    }
  }

  /** When a save's turn comes, every earlier one of its request is answered. */
  lemma CallIsSerial(s: State, r: RunId)
    requires Serial(s) && Chained(s) && MayCall(s, r)
    ensures forall q :: 0 <= q < r && s.runs[q].request == s.runs[r].request ==> s.runs[q].status.Settled?
  {
    forall q | 0 <= q < r && s.runs[q].request == s.runs[r].request ensures s.runs[q].status.Settled? {
      if s.runs[r].after.Some? && q < s.runs[r].after.value {
        assert s.runs[s.runs[r].after.value].status != Waiting;
      }
    }
  }

  /** A save moves on: no other does, and it was not answered before. */
  ghost predicate Moves(s: State, t: State, r: RunId) {
    && r < |s.runs| == |t.runs| && !s.runs[r].status.Settled?
    && t.runs == s.runs[r := s.runs[r].(status := t.runs[r].status)] && t.runs[r].status != Waiting
    && t.saving == s.saving
  }

  lemma MoveKeepsOrder(s: State, t: State, r: RunId)
    requires InOrder(s) && Moves(s, t, r)
    requires forall q :: 0 <= q < r && s.runs[q].request == s.runs[r].request ==> s.runs[q].status.Settled?
    ensures InOrder(t)
  {
    forall p, q | 0 <= p < q < |t.runs| && t.runs[p].request == t.runs[q].request && t.runs[q].status != Waiting
      ensures t.runs[p].status.Settled?
    {
      if q != r {
        assert s.runs[q].status != Waiting;
      }
    }
    MoveKeepsChained(s, t, r);
    MoveKeepsTracked(s, t, r);
  }

  lemma MoveKeepsChained(s: State, t: State, r: RunId)
    requires Chained(s) && Moves(s, t, r)
    ensures Chained(t)
  {
    assert forall q :: 0 <= q < |s.runs| ==> t.runs[q].request == s.runs[q].request && t.runs[q].after == s.runs[q].after;
    assert forall q :: 0 <= q < |s.runs| && s.runs[q].status.Settled? ==> t.runs[q].status.Settled?;
  }

  lemma MoveKeepsTracked(s: State, t: State, r: RunId)
    requires Tracked(s) && Moves(s, t, r)
    ensures Tracked(t)
  {
    assert forall q :: 0 <= q < |s.runs| ==> t.runs[q].request == s.runs[q].request;
    assert forall q :: 0 <= q < |s.runs| && s.runs[q].status.Settled? ==> t.runs[q].status.Settled?;
  }

  lemma ForgetKeepsOrder(s: State, r: RunId)
    requires InOrder(s) && r < |s.runs| && s.runs[r].status.Settled?
    ensures InOrder(Next(s, Forget(r)))
  {
    if Lookup(s.saving, s.runs[r].request) == Some(r) {
      forall q | 0 <= q < |s.runs| && s.runs[q].request == s.runs[r].request ensures s.runs[q].status.Settled? {
        assert q < r ==> s.runs[q].status.Settled?;
      }
    }
  }

  lemma CallKeepsOrder(s: State, r: RunId)
    requires InOrder(s) && MayCall(s, r)
    ensures InOrder(WithStatus(s, r, Calling))
  {
    CallIsSerial(s, r);
    MoveKeepsOrder(s, WithStatus(s, r, Calling), r);
  }

  lemma WriteKeepsOrder(s: State, r: RunId, result: Option<Request>)
    requires InOrder(s) && r < |s.runs| && s.runs[r].status == Calling
    ensures InOrder(AfterWrite(s, r, result))
  {
    MoveKeepsOrder(s, AfterWrite(s, r, result), r);
  }

  lemma DeliverKeepsOrder(s: State, r: RunId)
    requires InOrder(s) && r < |s.runs| && s.runs[r].status.Replied?
    ensures InOrder(AfterDeliver(s, r))
  {
    MoveKeepsOrder(s, AfterDeliver(s, r), r);
  }

  /** A step of the tabs and reads alone. */
  lemma SameRunsKeepOrder(s: State, t: State)
    requires InOrder(s) && t.runs == s.runs && t.saving == s.saving
    ensures InOrder(t)
  {
  }

  lemma StepKeepsOrder(s: State, e: Event)
    requires InOrder(s) && Enabled(s, e)
    ensures InOrder(Next(s, e))
  {
    match e
    case Save(id) => SaveKeepsOrder(s, id);
    case Call(r) => CallKeepsOrder(s, r);
    case Write(r, result) => WriteKeepsOrder(s, r, result);
    case Deliver(r) => DeliverKeepsOrder(s, r);
    case Forget(r) => ForgetKeepsOrder(s, r);
    case _ => SameRunsKeepOrder(s, Next(s, e));
  }

  // ------------------------------------------------------ what is written

  predicate Wrote(status: Status) {
    (status.Replied? || status.Settled?) && status.result.Some?
  }

  /** What the successful saves of `id` among the first `n` wrote, in the order asked. */
  function Results(runs: seq<Run>, id: RequestId, n: nat): seq<Request>
    requires n <= |runs|
  {
    if n == 0 then []
    else Results(runs, id, n - 1)
         + if runs[n - 1].request == id && Wrote(runs[n - 1].status) then [runs[n - 1].status.result.value] else []
  }

  /** The backend stored what was there first, then what saves wrote, in the order they were asked. */
  ghost predicate WrittenInOrder(s: State, first: map<RequestId, Request>) {
    && s.written.Keys == first.Keys
    && forall id :: id in first ==> s.written[id] == [first[id]] + Results(s.runs, id, |s.runs|)
  }

  lemma {:induction false} SameResults(a: seq<Run>, b: seq<Run>, id: RequestId, n: nat)
    requires n <= |a| && n <= |b|
    requires forall r :: 0 <= r < n ==> a[r].request == b[r].request
    requires forall r :: 0 <= r < n && a[r].request == id ==> (Wrote(a[r].status) <==> Wrote(b[r].status))
    requires forall r :: 0 <= r < n && a[r].request == id && Wrote(a[r].status) && Wrote(b[r].status) ==> a[r].status.result == b[r].status.result
    ensures Results(a, id, n) == Results(b, id, n)
  {
    if n > 0 {
      SameResults(a, b, id, n - 1);
    }
  }

  /** A save that is written while none of its request after it is adds its result at the end. */
  lemma {:induction false} NewResult(a: seq<Run>, b: seq<Run>, r: RunId, v: Request, n: nat)
    requires r < n <= |a| && b == a[r := a[r].(status := Replied(Some(v)))] && !Wrote(a[r].status)
    requires forall q :: r < q < n && a[q].request == a[r].request ==> !Wrote(a[q].status)
    ensures Results(b, a[r].request, n) == Results(a, a[r].request, n) + [v]
  {
    if n - 1 == r {
      SameResults(a, b, a[r].request, r);
    } else {
      NewResult(a, b, r, v, n - 1);
    }
  }

  lemma SaveKeepsWritten(s: State, first: map<RequestId, Request>, id: RequestId)
    requires WrittenInOrder(s, first)
    ensures WrittenInOrder(Next(s, Save(id)), first)
  {
    var t := Next(s, Save(id));
    if Find(s.tabs, id).Some? {
      forall x ensures Results(t.runs, x, |t.runs|) == Results(s.runs, x, |s.runs|) {
        SameResults(s.runs, t.runs, x, |s.runs|);
      }
    }
  }

  /** A step of `r` that writes nothing leaves every result where it is. */
  lemma QuietMoveKeepsWritten(s: State, t: State, first: map<RequestId, Request>, r: RunId)
    requires WrittenInOrder(s, first) && t.written == s.written
    requires Moves(s, t, r) && (Wrote(t.runs[r].status) <==> Wrote(s.runs[r].status))
    requires Wrote(t.runs[r].status) && Wrote(s.runs[r].status) ==> t.runs[r].status.result == s.runs[r].status.result
    ensures WrittenInOrder(t, first)
  {
    forall x ensures Results(t.runs, x, |t.runs|) == Results(s.runs, x, |s.runs|) {
      SameResults(s.runs, t.runs, x, |s.runs|);
    }
  }

  lemma WriteKeepsWritten(s: State, first: map<RequestId, Request>, r: RunId, v: Request)
    requires Serial(s) && WrittenInOrder(s, first) && Enabled(s, Write(r, Some(v)))
    ensures WrittenInOrder(Next(s, Write(r, Some(v))), first)
  {
    var t, id := Next(s, Write(r, Some(v))), s.runs[r].request;
    forall x | x in first ensures t.written[x] == [first[x]] + Results(t.runs, x, |t.runs|) {
      if x == id {
        NewResult(s.runs, t.runs, r, v, |s.runs|);
      } else {
        SameResults(s.runs, t.runs, x, |s.runs|);
      }
    }
  }

  lemma CallKeepsWritten(s: State, first: map<RequestId, Request>, r: RunId)
    requires WrittenInOrder(s, first) && MayCall(s, r)
    ensures WrittenInOrder(WithStatus(s, r, Calling), first)
  {
    QuietMoveKeepsWritten(s, WithStatus(s, r, Calling), first, r);
  }

  lemma DeliverKeepsWritten(s: State, first: map<RequestId, Request>, r: RunId)
    requires WrittenInOrder(s, first) && r < |s.runs| && s.runs[r].status.Replied?
    ensures WrittenInOrder(AfterDeliver(s, r), first)
  {
    QuietMoveKeepsWritten(s, AfterDeliver(s, r), first, r);
  }

  lemma FailureKeepsWritten(s: State, first: map<RequestId, Request>, r: RunId)
    requires WrittenInOrder(s, first) && r < |s.runs| && s.runs[r].status == Calling
    ensures WrittenInOrder(AfterWrite(s, r, None), first)
  {
    QuietMoveKeepsWritten(s, AfterWrite(s, r, None), first, r);
  }

  lemma StepKeepsWritten(s: State, first: map<RequestId, Request>, e: Event)
    requires InOrder(s) && WrittenInOrder(s, first) && Enabled(s, e)
    ensures WrittenInOrder(Next(s, e), first)
  {
    match e
    case Save(id) => SaveKeepsWritten(s, first, id);
    case Call(r) => CallKeepsWritten(s, first, r);
    case Deliver(r) => DeliverKeepsWritten(s, first, r);
    case Write(r, result) =>
      if result.Some? {
        WriteKeepsWritten(s, first, r, result.value);
      } else {
        FailureKeepsWritten(s, first, r);
      }
    case _ => SameRunsKeepWritten(s, Next(s, e), first);
  }

  lemma SameRunsKeepWritten(s: State, t: State, first: map<RequestId, Request>)
    requires WrittenInOrder(s, first) && t.runs == s.runs && t.written == s.written
    ensures WrittenInOrder(t, first)
  {
  }

  // ---------------------------------------------------------- over a run

  function Start(first: map<RequestId, Request>): State {
    State([], map[], map[], [], map id | id in first :: [first[id]], 0)
  }

  /** A run: from the start, every step one that may happen. */
  ghost predicate Happens(first: map<RequestId, Request>, states: seq<State>, events: seq<Event>) {
    && |states| == |events| + 1 && states[0] == Start(first)
    && forall i :: 0 <= i < |events| ==> Steps(states[i], events[i], states[i + 1])
  }

  predicate Steps(s: State, e: Event, t: State) {
    Enabled(s, e) && t == Next(s, e)
  }

  /** What every interleaving keeps of saves and what they wrote. */
  ghost predicate Kept(s: State, first: map<RequestId, Request>) {
    InOrder(s) && WrittenInOrder(s, first)
  }

  lemma StartKept(first: map<RequestId, Request>)
    ensures Kept(Start(first), first)
  {
  }

  lemma StepKeeps(s: State, first: map<RequestId, Request>, e: Event, t: State)
    requires Kept(s, first) && Steps(s, e, t)
    ensures Kept(t, first)
  {
    StepKeepsOrder(s, e);
    StepKeepsWritten(s, first, e);
  }

  lemma {:induction false} RunKeeps(first: map<RequestId, Request>, states: seq<State>, events: seq<Event>, i: nat)
    requires Happens(first, states, events) && i <= |events|
    ensures Kept(states[i], first)
  {
    if i == 0 {
      StartKept(first);
    } else {
      RunKeeps(first, states, events, i - 1);
      StepKeeps(states[i - 1], first, events[i - 1], states[i]);
    }
  }

  /** Saves of one request reach the backend one at a time, in the order asked, even after failures. */
  lemma SavesAreSerial(first: map<RequestId, Request>, states: seq<State>, events: seq<Event>, i: nat, q: RunId, r: RunId)
    requires Happens(first, states, events) && i <= |events| && q < r < |states[i].runs|
    requires states[i].runs[q].request == states[i].runs[r].request && states[i].runs[r].status != Waiting
    ensures states[i].runs[q].status.Settled?
  {
    RunKeeps(first, states, events, i);
  }

  /** All the backend ever stored of a request is what was there first and every successful save, in the order asked. */
  lemma LastSaveWins(first: map<RequestId, Request>, states: seq<State>, events: seq<Event>, i: nat, id: RequestId)
    requires Happens(first, states, events) && i <= |events| && id in first
    ensures id in states[i].written
    ensures states[i].written[id] == [first[id]] + Results(states[i].runs, id, |states[i].runs|)
  {
    RunKeeps(first, states, events, i);
  }

  // ------------------------------------------------- edits are never lost

  /** Whether two drafts agree: one object has one value. */
  predicate Agree(a: Draft, b: Draft) {
    a.identity == b.identity ==> a == b
  }

  /** Every draft in a tab or submitted was made before `objects`. */
  ghost predicate Made(s: State) {
    && (forall t :: t in s.tabs ==> t.draft.identity < s.objects)
    && (forall r :: 0 <= r < |s.runs| ==> s.runs[r].submitted.identity < s.objects)
  }

  /** One draft object has one value, in tabs and as submitted. */
  ghost predicate Objects(s: State) {
    && Made(s)
    && (forall t, r :: t in s.tabs && 0 <= r < |s.runs| ==> Agree(t.draft, s.runs[r].submitted))
    && (forall t, u :: t in s.tabs && u in s.tabs ==> Agree(t.draft, u.draft))
  }

  lemma {:induction false} FindIs(tabs: seq<Tab>, id: RequestId)
    ensures Find(tabs, id).Some? ==> Find(tabs, id).value in tabs && Find(tabs, id).value.id == id
    ensures Find(tabs, id).None? ==> forall t :: t in tabs ==> t.id != id
  {
    if tabs == [] {
    } else {
      FindIs(tabs[1..], id);
      assert tabs == [tabs[0]] + tabs[1..];
    }
  }

  lemma {:induction false} WithoutIs(tabs: seq<Tab>, id: RequestId)
    ensures forall t :: t in Without(tabs, id) <==> t in tabs && t.id != id
  {
    if tabs == [] {
    } else {
      WithoutIs(tabs[1..], id);
      assert tabs == [tabs[0]] + tabs[1..];
    }
  }

  lemma DeliverKeepsObjects(s: State, r: RunId)
    requires Objects(s) && r < |s.runs|
    ensures Objects(AfterDeliver(s, r))
  {
    var t := AfterDeliver(s, r);
    assert forall q :: 0 <= q < |t.runs| ==> t.runs[q].submitted == s.runs[q].submitted;
    if s.runs[r].status.Replied? && s.runs[r].status.result.Some? {
      forall i, j | 0 <= i < |t.tabs| && 0 <= j < |t.tabs| ensures Agree(t.tabs[i].draft, t.tabs[j].draft) {
        assert s.tabs[i] in s.tabs && s.tabs[j] in s.tabs;
      }
      forall i | 0 <= i < |t.tabs| ensures t.tabs[i].draft.identity < t.objects {
        assert s.tabs[i] in s.tabs;
      }
      forall i, q | 0 <= i < |t.tabs| && 0 <= q < |t.runs| ensures Agree(t.tabs[i].draft, t.runs[q].submitted) {
        assert s.tabs[i] in s.tabs;
      }
    }
  }

  lemma EditKeepsObjects(s: State, id: RequestId, edited: int)
    requires Objects(s)
    ensures Objects(Next(s, Edit(id, edited)))
  {
    var t := Next(s, Edit(id, edited));
    if Find(s.tabs, id).Some? {
      var draft := Draft(s.objects, Find(s.tabs, id).value.draft.value.(edited := edited));
      forall x | x in t.tabs ensures x.draft == draft || exists y :: y in s.tabs && y.draft == x.draft {
        var i :| 0 <= i < |t.tabs| && t.tabs[i] == x;
        assert s.tabs[i] in s.tabs;
      }
    }
  }

  lemma SaveKeepsObjects(s: State, id: RequestId)
    requires Objects(s)
    ensures Objects(Next(s, Save(id)))
  {
    var t := Next(s, Save(id));
    FindIs(s.tabs, id);
    assert forall q :: 0 <= q < |s.runs| ==> t.runs[q] == s.runs[q];
    assert Find(s.tabs, id).Some? ==> t.runs[|s.runs|].submitted == Find(s.tabs, id).value.draft;
  }

  lemma ShowKeepsObjects(s: State, call: CallId)
    requires Objects(s) && call in s.fetches
    ensures Objects(AfterShow(s, call))
  {
    var t := AfterShow(s, call);
    assert forall x :: x in t.tabs ==> x in s.tabs || x.draft.identity == s.objects;
    assert forall x, y :: x in t.tabs && y in t.tabs && x !in s.tabs && y !in s.tabs ==> x == y;
  }

  lemma MoveKeepsObjects(s: State, r: RunId, status: Status)
    requires Objects(s) && r < |s.runs|
    ensures Objects(WithStatus(s, r, status))
  {
    assert forall q :: 0 <= q < |s.runs| ==> WithStatus(s, r, status).runs[q].submitted == s.runs[q].submitted;
  }

  lemma StepKeepsObjects(s: State, e: Event)
    requires Objects(s) && Enabled(s, e)
    ensures Objects(Next(s, e))
  {
    match e
    case Show(call) => ShowKeepsObjects(s, call);
    case Close(id) => WithoutIs(s.tabs, id);
    case Edit(id, edited) => EditKeepsObjects(s, id, edited);
    case Save(id) => SaveKeepsObjects(s, id);
    case Call(r) => MoveKeepsObjects(s, r, Calling);
    case Write(r, result) => MoveKeepsObjects(s, r, Replied(result));
    case Deliver(r) => DeliverKeepsObjects(s, r);
    case _ =>
  }

  lemma StartObjects(first: map<RequestId, Request>)
    ensures Objects(Start(first))
  {
  }

  lemma StepsKeepObjects(s: State, e: Event, t: State)
    requires Objects(s) && Steps(s, e, t)
    ensures Objects(t)
  {
    StepKeepsObjects(s, e);
  }

  lemma {:induction false} RunKeepsObjects(first: map<RequestId, Request>, states: seq<State>, events: seq<Event>, i: nat)
    requires Happens(first, states, events) && i <= |events|
    ensures Objects(states[i])
  {
    if i == 0 {
      StartObjects(first);
    } else {
      RunKeepsObjects(first, states, events, i - 1);
      StepsKeepObjects(states[i - 1], events[i - 1], states[i]);
    }
  }

  /**
   * When a save's reply arrives, the baseline of every tab of its request
   * becomes what was written. A draft unchanged since is then clean; edits made
   * meanwhile stay, and are unsaved unless they happen to be what was written.
   */
  lemma EditsSurviveSaves(first: map<RequestId, Request>, states: seq<State>, events: seq<Event>, i: nat, r: RunId, result: Request, k: nat)
    requires Happens(first, states, events) && i <= |events|
    requires r < |states[i].runs| && states[i].runs[r].status == Replied(Some(result))
    requires k < |states[i].tabs| && states[i].tabs[k].id == states[i].runs[r].request
    ensures var was, now := states[i].tabs[k], AfterDeliver(states[i], r).tabs[k];
      && now.saved == result.edited
      && (was.draft == states[i].runs[r].submitted ==> now.draft.value == result && !Dirty(now))
      && (was.draft != states[i].runs[r].submitted ==>
            now.draft.value.edited == was.draft.value.edited && (Dirty(now) <==> was.draft.value.edited != result.edited))
  {
    RunKeepsObjects(first, states, events, i);
    assert states[i].tabs[k] in states[i].tabs;
  }
}
