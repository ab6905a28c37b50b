/**
 * The workbench's sends and sessions: sending, connecting, aborting, closing a
 * tab and the end events, in any order. One method is one stretch of code
 * between awaits; replies still to come are kept beside the window's own
 * state. Opens that overlap can give a request more than one tab: the first is
 * the one acted on, and what is set is set in all of them.
 */
module Sessions {
  import opened Prelude

  type TabId = nat
  type Exec = nat
  type Attempt = nat
  type CallId = nat

  datatype Session = Session(exec: Exec, attempt: Attempt)

  /** A tab of request `id`: its session, and the send it waits for. */
  datatype Tab = Tab(id: TabId, session: Option<Session>, running: Option<Exec>)

  /** A cancel sent and not answered yet. `closing`: the tab to close once it is. */
  datatype Cancel = Cancel(session: Session, wasOpening: bool, retry: bool, closing: Option<TabId>)

  datatype SendStop = SendStop(exec: Exec, closing: Option<TabId>)

  datatype Reply = Stopped | NoLongerOpen | Failed

  /**
   * What the window keeps and what is on its way: opens by attempt, cancels by
   * call, sends by execution, with the request each is for.
   */
  datatype State = State(tabs: seq<Tab>, owners: map<Attempt, Exec>, detached: map<Attempt, Exec>,
                         stopped: set<Attempt>, opening: set<Attempt>, early: set<Attempt>,
                         opens: map<Attempt, Exec>, cancels: map<CallId, Cancel>,
                         sends: map<Exec, TabId>, sendCancels: map<CallId, SendStop>)

  const START := State([], map[], map[], {}, {}, {}, map[], map[], map[], map[])

  /** `next` is the id of the call the step sends, if it sends one. */
  datatype Event =
    | OpenTab(tab: TabId)
    | Connect(tab: TabId, session: Session)
    | Opened(attempt: Attempt, next: CallId)
    | OpenFailed(attempt: Attempt)
    | Abort(tab: TabId, next: CallId)
    | Close(tab: TabId, next: CallId)
    | CancelReply(call: CallId, reply: Reply, next: CallId)
    | Ended(session: Session)
    | Send(tab: TabId, exec: Exec)
    | SendReply(exec: Exec)
    | StopSend(tab: TabId, next: CallId)
    | StopReply(call: CallId, ok: bool)

  predicate Unused(s: State, call: CallId) {
    call !in s.cancels && call !in s.sendCancels
  }

  /** Ids are new and known calls are answered once; anything else may come in any order. */
  predicate Enabled(s: State, used: set<Attempt>, e: Event) {
    match e
    case OpenTab(_) => true
    case Connect(_, session) => session.attempt !in used
    case Opened(attempt, next) => attempt in s.opens && Unused(s, next)
    case OpenFailed(attempt) => attempt in s.opens
    case Abort(_, next) => Unused(s, next)
    case Close(_, next) => Unused(s, next)
    case CancelReply(call, _, next) => call in s.cancels && Unused(s, next)
    case Ended(session) => session.attempt in used
    case Send(_, exec) => exec !in s.sends
    case SendReply(exec) => exec in s.sends
    case StopSend(_, next) => Unused(s, next)
    case StopReply(call, _) => call in s.sendCancels
  }

  // ------------------------------------------------------------------ tabs

  function Find(tabs: seq<Tab>, id: TabId): Option<Tab> {
    if tabs == [] then None else if tabs[0].id == id then Some(tabs[0]) else Find(tabs[1..], id)
  }

  function Without(tabs: seq<Tab>, id: TabId): seq<Tab> {
    if tabs == [] then [] else (if tabs[0].id == id then [] else [tabs[0]]) + Without(tabs[1..], id)
  }

  function Connected(tabs: seq<Tab>, id: TabId, p: Session): (r: seq<Tab>)
    ensures |r| == |tabs|
    ensures forall i :: 0 <= i < |r| ==> r[i] == if tabs[i].id == id then tabs[i].(session := Some(p)) else tabs[i]
  {
    seq(|tabs|, i requires 0 <= i < |tabs| => if tabs[i].id == id then tabs[i].(session := Some(p)) else tabs[i])
  }

  function WithRunning(tabs: seq<Tab>, id: TabId, running: Option<Exec>): (r: seq<Tab>)
    ensures |r| == |tabs|
    ensures forall i :: 0 <= i < |r| ==> r[i] == if tabs[i].id == id then tabs[i].(running := running) else tabs[i]
  {
    seq(|tabs|, i requires 0 <= i < |tabs| => if tabs[i].id == id then tabs[i].(running := running) else tabs[i])
  }

  /** Tabs that show exactly this session no longer do. */
  function Cleared(tabs: seq<Tab>, p: Session): (r: seq<Tab>)
    ensures |r| == |tabs|
    ensures forall i :: 0 <= i < |r| ==> r[i] == if tabs[i].session == Some(p) then tabs[i].(session := None) else tabs[i]
  {
    seq(|tabs|, i requires 0 <= i < |tabs| => if tabs[i].session == Some(p) then tabs[i].(session := None) else tabs[i])
  }

  predicate ShowsAttempt(t: Tab, attempt: Attempt) {
    t.session.Some? && t.session.value.attempt == attempt
  }

  function ClearedAttempt(tabs: seq<Tab>, attempt: Attempt): (r: seq<Tab>)
    ensures |r| == |tabs|
    ensures forall i :: 0 <= i < |r| ==> r[i] == if ShowsAttempt(tabs[i], attempt) then tabs[i].(session := None) else tabs[i]
  {
    seq(|tabs|, i requires 0 <= i < |tabs| => if ShowsAttempt(tabs[i], attempt) then tabs[i].(session := None) else tabs[i])
  }

  /** Neither a session nor a send occupies the tab. */
  predicate CanStart(t: Tab) {
    t.session.None? && t.running.None?
  }

  function SessionOf(s: State, tab: TabId): Option<Session> {
    if Find(s.tabs, tab).Some? then Find(s.tabs, tab).value.session else None
  }

  function RunningOf(s: State, tab: TabId): Option<Exec> {
    if Find(s.tabs, tab).Some? then Find(s.tabs, tab).value.running else None
  }

  // ----------------------------------------------------------------- steps

  /** Send a cancel: the first half of an abort. */
  function Sent(s: State, session: Session, retry: bool, closing: Option<TabId>, next: CallId): State {
    s.(stopped := s.stopped + {session.attempt},
       cancels := s.cancels[next := Cancel(session, session.attempt in s.opening, retry, closing)])
  }

  /** The end of a session whose tab closes is still waited for, on behalf of no tab. */
  function Detached(s: State, session: Option<Session>): State {
    if session.Some? && session.value.attempt in s.owners
    then s.(owners := s.owners - {session.value.attempt},
            detached := s.detached[session.value.attempt := session.value.exec])
    else s
  }

  /** The rest of closing a tab, once what it ran is stopped. */
  function Closed(s: State, closing: Option<TabId>, session: Option<Session>): State {
    if closing.None? then s
    else var t := Detached(s, session); t.(tabs := Without(t.tabs, closing.value))
  }

  function AfterReply(s: State, call: CallId, reply: Reply, next: CallId): State
    requires call in s.cancels
  {
    var c := s.cancels[call];
    var a := c.session.attempt;
    var t := s.(cancels := s.cancels - {call});
    match reply
    case Stopped => Closed(t, c.closing, Some(c.session))
    case Failed => t.(stopped := t.stopped - {a})
    case NoLongerOpen =>
      if !c.wasOpening then Closed(t.(stopped := t.stopped - {a}), c.closing, Some(c.session))
      else if a in t.opening then Closed(t.(early := t.early + {a}), c.closing, Some(c.session))
      else if c.retry then Sent(t, c.session, false, c.closing, next)
      else Closed(t, c.closing, Some(c.session))
  }

  function AfterStop(s: State, call: CallId, ok: bool): State
    requires call in s.sendCancels
  {
    var t := s.(sendCancels := s.sendCancels - {call});
    if ok then Closed(t, s.sendCancels[call].closing, None) else t
  }

  function AfterEnd(s: State, p: Session): State {
    if Lookup(s.detached, p.attempt) == Some(p.exec) then
      s.(detached := s.detached - {p.attempt}, stopped := s.stopped - {p.attempt})
    else if Lookup(s.owners, p.attempt) != Some(p.exec) then s
    else s.(owners := s.owners - {p.attempt}, stopped := s.stopped - {p.attempt}, tabs := Cleared(s.tabs, p))
  }

  function AfterConnect(s: State, tab: TabId, p: Session): State {
    var first := Find(s.tabs, tab);
    if first.None? || !CanStart(first.value) then s
    else s.(owners := s.owners[p.attempt := p.exec], tabs := Connected(s.tabs, tab, p),
            opening := s.opening + {p.attempt}, opens := s.opens[p.attempt := p.exec])
  }

  function AfterOpened(s: State, a: Attempt, next: CallId): State
    requires a in s.opens
  {
    var t := s.(opens := s.opens - {a}, opening := s.opening - {a}, early := s.early - {a});
    if a in s.early then Sent(t, Session(s.opens[a], a), true, None, next) else t
  }

  function AfterFailure(s: State, a: Attempt): State {
    s.(opens := s.opens - {a}, owners := s.owners - {a}, detached := s.detached - {a}, opening := s.opening - {a},
       early := s.early - {a}, tabs := ClearedAttempt(s.tabs, a), stopped := s.stopped - {a})
  }

  function AfterClose(s: State, tab: TabId, next: CallId): State {
    if SessionOf(s, tab).Some? then Sent(s, SessionOf(s, tab).value, true, Some(tab), next)
    else if RunningOf(s, tab).Some? then s.(sendCancels := s.sendCancels[next := SendStop(RunningOf(s, tab).value, Some(tab))])
    else s.(tabs := Without(s.tabs, tab))
  }

  function AfterSend(s: State, tab: TabId, exec: Exec): State {
    var first := Find(s.tabs, tab);
    if first.None? || !CanStart(first.value) then s
    else s.(tabs := WithRunning(s.tabs, tab, Some(exec)), sends := s.sends[exec := tab])
  }

  function AfterSendReply(s: State, exec: Exec): State
    requires exec in s.sends
  {
    s.(sends := s.sends - {exec}, tabs := WithRunning(s.tabs, s.sends[exec], None))
  }

  function Next(s: State, e: Event): State {
    match e
    case OpenTab(tab) => s.(tabs := s.tabs + [Tab(tab, None, None)])
    case Connect(tab, p) => AfterConnect(s, tab, p)
    case Opened(a, next) => if a in s.opens then AfterOpened(s, a, next) else s
    case OpenFailed(a) => AfterFailure(s, a)
    case Abort(tab, next) => if SessionOf(s, tab).Some? then Sent(s, SessionOf(s, tab).value, true, None, next) else s
    case Close(tab, next) => AfterClose(s, tab, next)
    case CancelReply(call, reply, next) => if call in s.cancels then AfterReply(s, call, reply, next) else s
    case Ended(p) => AfterEnd(s, p)
    case Send(tab, exec) => AfterSend(s, tab, exec)
    case SendReply(exec) => if exec in s.sends then AfterSendReply(s, exec) else s
    case StopSend(tab, next) =>
      if RunningOf(s, tab).Some? then s.(sendCancels := s.sendCancels[next := SendStop(RunningOf(s, tab).value, None)]) else s
    case StopReply(call, ok) => if call in s.sendCancels then AfterStop(s, call, ok) else s
  }

  /** The attempts used up by a step. */
  function Uses(e: Event): set<Attempt> {
    if e.Connect? then {e.session.attempt} else {}
  }

  // -------------------------------------------------------------- the code

  class Workbench {
    var tabs: seq<Tab>
    var owners: map<Attempt, Exec>
    var detached: map<Attempt, Exec>
    var stopped: set<Attempt>
    var opening: set<Attempt>
    var early: set<Attempt>
    var opens: map<Attempt, Exec>
    var cancels: map<CallId, Cancel>
    var sends: map<Exec, TabId>
    var sendCancels: map<CallId, SendStop>

    function View(): State
      reads this
    {
      State(tabs, owners, detached, stopped, opening, early, opens, cancels, sends, sendCancels)
    }

    constructor ()
      ensures View() == START
    {
      tabs, owners, detached := [], map[], map[];
      stopped, opening, early := {}, {}, {};
      opens, cancels, sends, sendCancels := map[], map[], map[], map[];
    }

    method Open(tab: TabId)
      modifies this`tabs
      ensures tabs == old(tabs) + [Tab(tab, None, None)]
      ensures View() == Next(old(View()), OpenTab(tab))
    {
      tabs := tabs + [Tab(tab, None, None)];
    }

    /** Connect the request of a tab that runs nothing: its tabs show the session from now on, and its open is sent. */
    method Connect(tab: TabId, p: Session)
      modifies this`owners, this`tabs, this`opening, this`opens
      ensures var first := Find(old(tabs), tab);
        if first.Some? && first.value.session.None? && first.value.running.None? then
          && owners == old(owners)[p.attempt := p.exec] && opening == old(opening) + {p.attempt}
          && opens == old(opens)[p.attempt := p.exec] && tabs == Connected(old(tabs), tab, p)
        else owners == old(owners) && tabs == old(tabs) && opening == old(opening) && opens == old(opens)
      ensures View() == Next(old(View()), Event.Connect(tab, p))
    {
      var first := Find(tabs, tab);
      if first.None? || !CanStart(first.value) {
        return;
      }
      owners := owners[p.attempt := p.exec];
      tabs := Connected(tabs, tab, p);
      opening := opening + {p.attempt};
      opens := opens[p.attempt := p.exec];
    }

    /** The open call succeeded. An abort answered too early is sent again. */
    method OnOpened(a: Attempt, next: CallId)
      requires a in opens
      modifies this`opens, this`opening, this`early, this`stopped, this`cancels
      ensures opens == old(opens) - {a} && opening == old(opening) - {a} && early == old(early) - {a}
      ensures a !in old(early) ==> stopped == old(stopped) && cancels == old(cancels)
      ensures a in old(early) ==>
        && stopped == old(stopped) + {a}
        && cancels == old(cancels)[next := Cancel(Session(old(opens)[a], a), false, true, None)]
      ensures View() == Next(old(View()), Opened(a, next))
    {
      var exec := opens[a];
      opens := opens - {a};
      opening := opening - {a};
      if a in early {
        early := early - {a};
        SendCancel(Session(exec, a), true, None, next);
      } else {
        assert early - {a} == early;
      }
    }

    /** The open call failed. Whether the failure is shown: not for an open the user stopped. */
    method OnOpenFailed(a: Attempt) returns (shown: bool)
      modifies this`opens, this`owners, this`detached, this`opening, this`early, this`tabs, this`stopped
      ensures View() == Next(old(View()), OpenFailed(a))
      ensures shown <==> a !in old(stopped)
      ensures opens == old(opens) - {a} && opening == old(opening) - {a} && early == old(early) - {a}
      ensures owners == old(owners) - {a} && detached == old(detached) - {a} && stopped == old(stopped) - {a}
      ensures |tabs| == |old(tabs)| && forall i :: 0 <= i < |tabs| ==>
        var shown := old(tabs)[i].session;
        tabs[i] == if shown.Some? && shown.value.attempt == a then old(tabs)[i].(session := None) else old(tabs)[i]
    {
      opens := opens - {a};
      owners := owners - {a};
      detached := detached - {a};
      opening := opening - {a};
      early := early - {a};
      tabs := ClearedAttempt(tabs, a);
      shown := a !in stopped;
      stopped := stopped - {a};
    }

    /** Up to the cancel call of an abort. */
    method SendCancel(p: Session, retry: bool, closing: Option<TabId>, next: CallId)
      modifies this`stopped, this`cancels
      ensures stopped == old(stopped) + {p.attempt}
      ensures cancels == old(cancels)[next := Cancel(p, p.attempt in opening, retry, closing)]
      ensures View() == Sent(old(View()), p, retry, closing, next)
    {
      var wasOpening := p.attempt in opening;
      stopped := stopped + {p.attempt};
      cancels := cancels[next := Cancel(p, wasOpening, retry, closing)];
    }

    /** The user aborts the session a tab shows. */
    method AbortTab(tab: TabId, next: CallId)
      modifies this`stopped, this`cancels
      ensures var first := Find(tabs, tab);
        if first.Some? && first.value.session.Some? then
          var p := first.value.session.value;
          stopped == old(stopped) + {p.attempt} && cancels == old(cancels)[next := Cancel(p, p.attempt in opening, true, None)]
        else stopped == old(stopped) && cancels == old(cancels)
      ensures View() == Next(old(View()), Abort(tab, next))
    {
      var session := SessionOf(View(), tab);
      if session.Some? {
        SendCancel(session.value, true, None, next);
      }
    }

    method SendTab(tab: TabId, exec: Exec)
      modifies this`tabs, this`sends
      ensures var first := Find(old(tabs), tab);
        if first.Some? && first.value.session.None? && first.value.running.None? then
          tabs == WithRunning(old(tabs), tab, Some(exec)) && sends == old(sends)[exec := tab]
        else tabs == old(tabs) && sends == old(sends)
      ensures View() == Next(old(View()), Send(tab, exec))
    {
      var first := Find(tabs, tab);
      if first.None? || !CanStart(first.value) {
        return;
      }
      tabs := WithRunning(tabs, tab, Some(exec));
      sends := sends[exec := tab];
    }

    /** A send came out, or was canceled: every tab of its request stops waiting. */
    method OnSendReply(exec: Exec)
      requires exec in sends
      modifies this`tabs, this`sends
      ensures sends == old(sends) - {exec} && tabs == WithRunning(old(tabs), old(sends)[exec], None)
      ensures View() == Next(old(View()), SendReply(exec))
    {
      tabs := WithRunning(tabs, sends[exec], None);
      sends := sends - {exec};
    }

    /** The send's Cancel. */
    method StopRunning(tab: TabId, next: CallId)
      modifies this`sendCancels
      ensures var first := Find(tabs, tab);
        sendCancels == if first.Some? && first.value.running.Some?
                       then old(sendCancels)[next := SendStop(first.value.running.value, None)] else old(sendCancels)
      ensures View() == Next(old(View()), StopSend(tab, next))
    {
      var running := RunningOf(View(), tab);
      if running.Some? {
        sendCancels := sendCancels[next := SendStop(running.value, None)];
      }
    }

    method Detach(session: Option<Session>)
      modifies this`owners, this`detached
      ensures if session.Some? && session.value.attempt in old(owners) then
          owners == old(owners) - {session.value.attempt} && detached == old(detached)[session.value.attempt := session.value.exec]
        else owners == old(owners) && detached == old(detached)
      ensures View() == Detached(old(View()), session)
    {
      if session.Some? && session.value.attempt in owners {
        owners := owners - {session.value.attempt};
        detached := detached[session.value.attempt := session.value.exec];
      }
    }

    method FinishClose(closing: Option<TabId>, session: Option<Session>)
      modifies this`owners, this`detached, this`tabs
      ensures tabs == if closing.Some? then Without(old(tabs), closing.value) else old(tabs)
      ensures if closing.Some? && session.Some? && session.value.attempt in old(owners) then
          owners == old(owners) - {session.value.attempt} && detached == old(detached)[session.value.attempt := session.value.exec]
        else owners == old(owners) && detached == old(detached)
      ensures View() == Closed(old(View()), closing, session)
    {
      if closing.Some? {
        Detach(session);
        tabs := Without(tabs, closing.value);
      }
    }

    /** Close a tab once the user confirmed it: first stop the session or the send it runs. */
    method CloseTab(tab: TabId, next: CallId)
      modifies this`stopped, this`cancels, this`sendCancels, this`tabs, this`owners, this`detached
      ensures var first := Find(old(tabs), tab);
        if first.Some? && first.value.session.Some? then
          var p := first.value.session.value;
          && stopped == old(stopped) + {p.attempt} && cancels == old(cancels)[next := Cancel(p, p.attempt in opening, true, Some(tab))]
          && sendCancels == old(sendCancels) && tabs == old(tabs)
        else if first.Some? && first.value.running.Some? then
          && sendCancels == old(sendCancels)[next := SendStop(first.value.running.value, Some(tab))]
          && stopped == old(stopped) && cancels == old(cancels) && tabs == old(tabs)
        else
          tabs == Without(old(tabs), tab) && stopped == old(stopped) && cancels == old(cancels) && sendCancels == old(sendCancels)
      ensures owners == old(owners) && detached == old(detached)
      ensures View() == Next(old(View()), Close(tab, next))
    {
      var session, running := SessionOf(View(), tab), RunningOf(View(), tab);
      if session.Some? {
        SendCancel(session.value, true, Some(tab), next);
      } else if running.Some? {
        sendCancels := sendCancels[next := SendStop(running.value, Some(tab))];
      } else {
        FinishClose(Some(tab), None);
      }
    }

    /** The reply to a cancel, and what follows it. */
    method OnCancelReply(call: CallId, reply: Reply, next: CallId)
      requires call in cancels
      modifies this`stopped, this`early, this`cancels, this`tabs, this`owners, this`detached
      ensures var c := old(cancels)[call];
        var a, again := c.session.attempt, reply == NoLongerOpen && c.wasOpening && c.session.attempt !in opening && c.retry;
        && stopped == (if reply == Failed || (reply == NoLongerOpen && !c.wasOpening) then old(stopped) - {a}
                       else if again then old(stopped) + {a} else old(stopped))
        && early == (if reply == NoLongerOpen && c.wasOpening && a in opening then old(early) + {a} else old(early))
        && cancels == (if again then (old(cancels) - {call})[next := Cancel(c.session, false, false, c.closing)] else old(cancels) - {call})
        && (if c.closing.Some? && reply != Failed && !again then
              && tabs == Without(old(tabs), c.closing.value)
              && owners == old(owners) - {a}
              && detached == (if a in old(owners) then old(detached)[a := c.session.exec] else old(detached))
            else tabs == old(tabs) && owners == old(owners) && detached == old(detached))
      ensures View() == Next(old(View()), CancelReply(call, reply, next))
    {
      var c := cancels[call];
      var a := c.session.attempt;
      cancels := cancels - {call};
      match reply {
        case Stopped =>
          FinishClose(c.closing, Some(c.session));
        case Failed =>
          stopped := stopped - {a};
        case NoLongerOpen =>
          if !c.wasOpening {
            stopped := stopped - {a};
            FinishClose(c.closing, Some(c.session));
          } else if a in opening {
            early := early + {a};
            FinishClose(c.closing, Some(c.session));
          } else if c.retry {
            SendCancel(c.session, false, c.closing, next);
          } else {
            FinishClose(c.closing, Some(c.session));
          }
      }
    }

    /** The reply to a send's cancel: a closing tab closes, unless it failed. */
    method OnStopReply(call: CallId, ok: bool)
      requires call in sendCancels
      modifies this`sendCancels, this`tabs, this`owners, this`detached
      ensures sendCancels == old(sendCancels) - {call} && owners == old(owners) && detached == old(detached)
      ensures var closing := old(sendCancels)[call].closing;
        tabs == if ok && closing.Some? then Without(old(tabs), closing.value) else old(tabs)
      ensures View() == Next(old(View()), StopReply(call, ok))
    {
      var c := sendCancels[call];
      sendCancels := sendCancels - {call};
      if ok {
        FinishClose(c.closing, None);
      }
    }

    method OnEnded(p: Session)
      modifies this`owners, this`detached, this`stopped, this`tabs
      ensures var mine := p.attempt in old(owners) && old(owners)[p.attempt] == p.exec;
        var left := p.attempt in old(detached) && old(detached)[p.attempt] == p.exec;
        && detached == (if left then old(detached) - {p.attempt} else old(detached))
        && owners == (if mine && !left then old(owners) - {p.attempt} else old(owners))
        && stopped == (if mine || left then old(stopped) - {p.attempt} else old(stopped))
        && tabs == (if mine && !left then Cleared(old(tabs), p) else old(tabs))
      ensures View() == Next(old(View()), Ended(p))
    {
      if Lookup(detached, p.attempt) == Some(p.exec) {
        detached := detached - {p.attempt};
        stopped := stopped - {p.attempt};
        return;
      }
      if Lookup(owners, p.attempt) != Some(p.exec) {
        return;
      }
      owners := owners - {p.attempt};
      stopped := stopped - {p.attempt};
      tabs := Cleared(tabs, p);
    }
  }

  // -------------------------------------------------------- every state kept

  /** What is kept of attempts: each known only once used, opens and aborts in step. */
  ghost predicate Ledger(s: State, used: set<Attempt>) {
    && s.owners.Keys <= used && s.detached.Keys <= used && s.stopped <= used
    && (forall c :: c in s.cancels ==> s.cancels[c].session.attempt in used)
    && s.opening == s.opens.Keys && s.opening <= used
    && s.early <= s.opening
    && s.owners.Keys !! s.detached.Keys
    && (forall c :: c in s.cancels && !s.cancels[c].retry ==> !s.cancels[c].wasOpening)
  }

  /** A tab's session has its owner, and a tab that waits for a send has no session and waits for one of its own. */
  predicate TabKept(s: State, t: Tab) {
    && (t.session.Some? ==> Lookup(s.owners, t.session.value.attempt) == Some(t.session.value.exec) && t.running.None?)
    && (t.running.Some? ==> Lookup(s.sends, t.running.value) == Some(t.id))
  }

  predicate SameAttempt(p: Option<Session>, q: Option<Session>) {
    p.Some? && q.Some? && p.value.attempt == q.value.attempt
  }

  /** Only tabs of request `tab` show this attempt. */
  ghost predicate OnlyTab(s: State, p: Session, tab: TabId) {
    forall t :: t in s.tabs && SameAttempt(t.session, Some(p)) ==> t.id == tab
  }

  /** Tabs that show one attempt are of one request, and a later tab of a request runs nothing its first does not. */
  ghost predicate OneRequest(tabs: seq<Tab>) {
    && (forall t, u :: t in tabs && u in tabs && SameAttempt(t.session, u.session) ==> t.id == u.id)
    && (forall i, j :: 0 <= i < j < |tabs| && tabs[i].id == tabs[j].id ==> Follows(tabs[j], tabs[i]))
  }

  predicate Follows(t: Tab, first: Tab) {
    (t.session.Some? ==> t.session == first.session) && (t.running.Some? ==> t.running == first.running)
  }

  /** What every interleaving keeps. */
  ghost predicate Inv(s: State, used: set<Attempt>) {
    && Ledger(s, used)
    && (forall t :: t in s.tabs ==> TabKept(s, t))
    && OneRequest(s.tabs)
    && (forall c :: c in s.cancels && s.cancels[c].closing.Some? ==> OnlyTab(s, s.cancels[c].session, s.cancels[c].closing.value))
  }

  lemma StartInv()
    ensures Inv(START, {})
  {
  }

  lemma {:induction false} FindIs(tabs: seq<Tab>, id: TabId)
    ensures Find(tabs, id).Some? ==> Find(tabs, id).value in tabs && Find(tabs, id).value.id == id
    ensures Find(tabs, id).Some? ==> exists i :: 0 <= i < |tabs| && tabs[i] == Find(tabs, id).value && forall j :: 0 <= j < i ==> tabs[j].id != id
    ensures Find(tabs, id).None? ==> forall t :: t in tabs ==> t.id != id
  {
    if tabs == [] {
    } else {
      assert tabs == [tabs[0]] + tabs[1..];
      FindIs(tabs[1..], id);
      if tabs[0].id != id && Find(tabs, id).Some? {
        var i :| 0 <= i < |tabs| - 1 && tabs[1..][i] == Find(tabs, id).value && forall j :: 0 <= j < i ==> tabs[1..][j].id != id;
        assert tabs[i + 1] == Find(tabs, id).value;
        assert forall j :: 0 < j < i + 1 ==> tabs[j] == tabs[1..][j - 1];
      } else {
        assert tabs[0] == tabs[0];
      }
    }
  }

  /** What any tab of a request runs, its first tab runs. */
  lemma FirstFollowed(s: State, used: set<Attempt>, t: Tab)
    requires Inv(s, used) && t in s.tabs
    ensures Find(s.tabs, t.id).Some? && Follows(t, Find(s.tabs, t.id).value)
  {
    FindIs(s.tabs, t.id);
    var i :| 0 <= i < |s.tabs| && s.tabs[i] == Find(s.tabs, t.id).value && forall j :: 0 <= j < i ==> s.tabs[j].id != t.id;
    var j :| 0 <= j < |s.tabs| && s.tabs[j] == t;
  }

  lemma {:induction false} WithoutMembers(tabs: seq<Tab>, id: TabId)
    ensures forall t :: t in Without(tabs, id) <==> t in tabs && t.id != id
  {
    if tabs == [] {
    } else {
      WithoutMembers(tabs[1..], id);
      assert tabs == [tabs[0]] + tabs[1..];
    }
  }

  /** Where each tab left was, in order. */
  lemma {:induction false} WithoutIs(tabs: seq<Tab>, id: TabId) returns (from: seq<nat>)
    ensures |from| == |Without(tabs, id)|
    ensures forall i :: 0 <= i < |from| ==> from[i] < |tabs| && Without(tabs, id)[i] == tabs[from[i]]
    ensures forall i, j :: 0 <= i < j < |from| ==> from[i] < from[j]
  {
    if tabs == [] {
      from := [];
    } else {
      var rest := WithoutIs(tabs[1..], id);
      var later := seq(|rest|, i requires 0 <= i < |rest| => rest[i] + 1);
      from := if tabs[0].id == id then later else [0] + later;
    }
  }

  lemma SentKeeps(s: State, used: set<Attempt>, p: Session, retry: bool, closing: Option<TabId>, next: CallId)
    requires Inv(s, used) && p.attempt in used && (!retry ==> p.attempt !in s.opening)
    requires closing.Some? ==> OnlyTab(s, p, closing.value)
    ensures Inv(Sent(s, p, retry, closing, next), used)
  {
    var t := Sent(s, p, retry, closing, next);
    assert forall x :: x in s.tabs ==> TabKept(s, x) && TabKept(t, x);
    forall c | c in t.cancels && t.cancels[c].closing.Some? ensures OnlyTab(t, t.cancels[c].session, t.cancels[c].closing.value) {
      assert c != next ==> OnlyTab(s, s.cancels[c].session, s.cancels[c].closing.value);
    }
  }

  /** Fewer tabs, of requests not left out, keep what is kept of tabs. */
  lemma FewerTabs(s: State, used: set<Attempt>, id: TabId)
    requires Inv(s, used)
    ensures Inv(s.(tabs := Without(s.tabs, id)), used)
    ensures forall t :: t in Without(s.tabs, id) ==> t in s.tabs && t.id != id
  {
    var t := s.(tabs := Without(s.tabs, id));
    var from := WithoutIs(s.tabs, id);
    WithoutMembers(s.tabs, id);
    forall i, j | 0 <= i < j < |t.tabs| && t.tabs[i].id == t.tabs[j].id ensures Follows(t.tabs[j], t.tabs[i]) {
      assert Follows(s.tabs[from[j]], s.tabs[from[i]]);
    }
    assert forall x :: x in t.tabs ==> TabKept(s, x) && TabKept(t, x);
    forall c | c in t.cancels && t.cancels[c].closing.Some? ensures OnlyTab(t, t.cancels[c].session, t.cancels[c].closing.value) {
      assert OnlyTab(s, s.cancels[c].session, s.cancels[c].closing.value);
    }
  }

  /** Once no tab shows it, a session's owner may be detached. */
  lemma DetachKeeps(s: State, used: set<Attempt>, p: Session)
    requires Inv(s, used) && p.attempt in used
    requires forall t :: t in s.tabs ==> !SameAttempt(t.session, Some(p))
    ensures Inv(Detached(s, Some(p)), used)
  {
    var t := Detached(s, Some(p));
    forall x | x in t.tabs ensures TabKept(t, x) {
      assert TabKept(s, x);
    }
    forall c | c in t.cancels && t.cancels[c].closing.Some? ensures OnlyTab(t, t.cancels[c].session, t.cancels[c].closing.value) {
      assert OnlyTab(s, s.cancels[c].session, s.cancels[c].closing.value);
    }
  }

  lemma ClosedKeeps(s: State, used: set<Attempt>, closing: Option<TabId>, p: Session)
    requires Inv(s, used) && p.attempt in used
    requires closing.Some? ==> OnlyTab(s, p, closing.value)
    ensures Inv(Closed(s, closing, Some(p)), used)
  {
    if closing.Some? {
      FewerTabs(s, used, closing.value);
      var t := s.(tabs := Without(s.tabs, closing.value));
      DetachKeeps(t, used, p);
      assert Closed(s, closing, Some(p)) == Detached(t, Some(p));
    }
  }

  /** A step that leaves tabs and owners alone, and no closing cancel it did not have. */
  lemma SameTabsKeep(s: State, t: State, used: set<Attempt>)
    requires Inv(s, used) && Ledger(t, used) && t.tabs == s.tabs && t.owners == s.owners && t.sends == s.sends
    requires forall c :: c in t.cancels ==> c in s.cancels && t.cancels[c] == s.cancels[c]
    ensures Inv(t, used)
  {
    assert forall x :: x in s.tabs ==> TabKept(s, x) && TabKept(t, x);
    forall c | c in t.cancels && t.cancels[c].closing.Some? ensures OnlyTab(t, t.cancels[c].session, t.cancels[c].closing.value) {
      assert OnlyTab(s, s.cancels[c].session, s.cancels[c].closing.value);
    }
  }

  lemma ReplyKeeps(s: State, used: set<Attempt>, call: CallId, reply: Reply, next: CallId)
    requires Inv(s, used) && call in s.cancels
    ensures Inv(AfterReply(s, call, reply, next), used)
  {
    var c := s.cancels[call];
    var a := c.session.attempt;
    var t := s.(cancels := s.cancels - {call});
    SameTabsKeep(s, t, used);
    SameTabsKeep(s, t.(stopped := t.stopped - {a}), used);
    assert c.closing.Some? ==> OnlyTab(s, c.session, c.closing.value);
    match reply
    case Stopped => ClosedKeeps(t, used, c.closing, c.session);
    case Failed =>
    case NoLongerOpen =>
      if !c.wasOpening {
        ClosedKeeps(t.(stopped := t.stopped - {a}), used, c.closing, c.session);
      } else if a in t.opening {
        SameTabsKeep(s, t.(early := t.early + {a}), used);
        ClosedKeeps(t.(early := t.early + {a}), used, c.closing, c.session);
      } else if c.retry {
        SentKeeps(t, used, c.session, false, c.closing, next);
      } else {
        ClosedKeeps(t, used, c.closing, c.session);
      }
  }

  /** A step that maps each tab to one of the same request, and each session kept to itself. */
  ghost predicate Maps(tabs: seq<Tab>, now: seq<Tab>) {
    && |now| == |tabs|
    && forall i :: 0 <= i < |tabs| ==>
         now[i].id == tabs[i].id && (now[i].session == tabs[i].session || now[i].session.None?) && now[i].running == tabs[i].running
  }

  /** Whether a tab's session goes depends on the session alone. */
  ghost predicate Alike(tabs: seq<Tab>, now: seq<Tab>) {
    forall i, j :: 0 <= i < |tabs| && 0 <= j < |tabs| && |now| == |tabs| && tabs[i].session == tabs[j].session ==> now[i].session == now[j].session
  }

  lemma MapKeeps(s: State, t: State, used: set<Attempt>)
    requires Inv(s, used) && Ledger(t, used) && Maps(s.tabs, t.tabs) && Alike(s.tabs, t.tabs) && t.sends == s.sends
    requires forall c :: c in t.cancels ==> c in s.cancels && t.cancels[c] == s.cancels[c]
    requires forall x :: x in t.tabs && x.session.Some? ==> Lookup(t.owners, x.session.value.attempt) == Some(x.session.value.exec)
    ensures Inv(t, used)
  {
    forall x | x in t.tabs ensures TabKept(t, x) {
      var i :| 0 <= i < |t.tabs| && t.tabs[i] == x;
      assert s.tabs[i] in s.tabs && TabKept(s, s.tabs[i]);
    }
    MapKeepsRequests(s.tabs, t.tabs);
    forall c | c in t.cancels && t.cancels[c].closing.Some? ensures OnlyTab(t, t.cancels[c].session, t.cancels[c].closing.value) {
      assert OnlyTab(s, s.cancels[c].session, s.cancels[c].closing.value);
      forall x | x in t.tabs && SameAttempt(x.session, Some(t.cancels[c].session)) ensures x.id == t.cancels[c].closing.value {
        var i :| 0 <= i < |t.tabs| && t.tabs[i] == x;
        assert s.tabs[i] in s.tabs;
      }
    }
  }

  lemma MapKeepsRequests(tabs: seq<Tab>, now: seq<Tab>)
    requires OneRequest(tabs) && Maps(tabs, now) && Alike(tabs, now)
    ensures OneRequest(now)
  {
    forall t, u | t in now && u in now && SameAttempt(t.session, u.session) ensures t.id == u.id {
      var i :| 0 <= i < |now| && now[i] == t;
      var j :| 0 <= j < |now| && now[j] == u;
      assert tabs[i] in tabs && tabs[j] in tabs;
    }
    forall i, j | 0 <= i < j < |now| && now[i].id == now[j].id ensures Follows(now[j], now[i]) {
      assert Follows(tabs[j], tabs[i]);
    }
  }

  lemma DetachedEndKeeps(s: State, used: set<Attempt>, a: Attempt)
    requires Inv(s, used)
    ensures Inv(s.(detached := s.detached - {a}, stopped := s.stopped - {a}), used)
  {
    SameTabsKeep(s, s.(detached := s.detached - {a}, stopped := s.stopped - {a}), used);
  }

  lemma OwnedEndKeeps(s: State, used: set<Attempt>, p: Session)
    requires Inv(s, used) && Lookup(s.owners, p.attempt) == Some(p.exec)
    ensures Inv(s.(owners := s.owners - {p.attempt}, stopped := s.stopped - {p.attempt}, tabs := Cleared(s.tabs, p)), used)
  {
    var t := s.(owners := s.owners - {p.attempt}, stopped := s.stopped - {p.attempt}, tabs := Cleared(s.tabs, p));
    forall x | x in t.tabs && x.session.Some? ensures Lookup(t.owners, x.session.value.attempt) == Some(x.session.value.exec) {
      var i :| 0 <= i < |t.tabs| && t.tabs[i] == x;
      assert s.tabs[i] in s.tabs && TabKept(s, s.tabs[i]);
    }
    MapKeeps(s, t, used);
  }

  lemma EndKeeps(s: State, used: set<Attempt>, p: Session)
    requires Inv(s, used) && p.attempt in used
    ensures Inv(AfterEnd(s, p), used)
  {
    if Lookup(s.detached, p.attempt) == Some(p.exec) {
      DetachedEndKeeps(s, used, p.attempt);
    } else if Lookup(s.owners, p.attempt) == Some(p.exec) {
      OwnedEndKeeps(s, used, p);
    }
  }

  lemma FailureKeeps(s: State, used: set<Attempt>, a: Attempt)
    requires Inv(s, used)
    ensures Inv(AfterFailure(s, a), used)
  {
    var t := AfterFailure(s, a);
    forall x | x in t.tabs && x.session.Some? ensures Lookup(t.owners, x.session.value.attempt) == Some(x.session.value.exec) {
      var i :| 0 <= i < |t.tabs| && t.tabs[i] == x;
      assert s.tabs[i] in s.tabs && TabKept(s, s.tabs[i]);
    }
    MapKeeps(s, t, used);
  }

  lemma ConnectKeepsTab(s: State, used: set<Attempt>, tab: TabId, p: Session, i: nat)
    requires Inv(s, used) && p.attempt !in used && i < |s.tabs|
    requires Find(s.tabs, tab).Some? && CanStart(Find(s.tabs, tab).value)
    ensures TabKept(AfterConnect(s, tab, p), Connected(s.tabs, tab, p)[i])
  {
    assert s.tabs[i] in s.tabs && TabKept(s, s.tabs[i]);
    FirstFollowed(s, used, s.tabs[i]);
  }

  lemma ConnectKeepsCancels(s: State, used: set<Attempt>, tab: TabId, p: Session, c: CallId)
    requires Inv(s, used) && p.attempt !in used && c in s.cancels && s.cancels[c].closing.Some?
    ensures OnlyTab(AfterConnect(s, tab, p), s.cancels[c].session, s.cancels[c].closing.value)
  {
    assert OnlyTab(s, s.cancels[c].session, s.cancels[c].closing.value);
    var now := Connected(s.tabs, tab, p);
    forall i | 0 <= i < |now| && SameAttempt(now[i].session, Some(s.cancels[c].session)) ensures now[i].id == s.cancels[c].closing.value {
      assert s.tabs[i] in s.tabs;
    }
  }

  lemma ConnectKeeps(s: State, used: set<Attempt>, tab: TabId, p: Session)
    requires Inv(s, used) && p.attempt !in used
    ensures Inv(AfterConnect(s, tab, p), used + {p.attempt})
  {
    var t := AfterConnect(s, tab, p);
    if Find(s.tabs, tab).Some? && CanStart(Find(s.tabs, tab).value) {
      forall i | 0 <= i < |t.tabs| ensures TabKept(t, t.tabs[i]) {
        ConnectKeepsTab(s, used, tab, p, i);
      }
      ConnectKeepsRequests(s, used, tab, p);
      forall c | c in t.cancels && t.cancels[c].closing.Some? ensures OnlyTab(t, t.cancels[c].session, t.cancels[c].closing.value) {
        ConnectKeepsCancels(s, used, tab, p, c);
      }
    }
  }

  lemma ConnectKeepsRequests(s: State, used: set<Attempt>, tab: TabId, p: Session)
    requires Inv(s, used) && p.attempt !in used
    ensures OneRequest(Connected(s.tabs, tab, p))
  {
    var now := Connected(s.tabs, tab, p);
    forall i, j | 0 <= i < |now| && 0 <= j < |now| && SameAttempt(now[i].session, now[j].session) ensures now[i].id == now[j].id {
      assert s.tabs[i] in s.tabs && s.tabs[j] in s.tabs && TabKept(s, s.tabs[i]) && TabKept(s, s.tabs[j]);
    }
    forall i, j | 0 <= i < j < |now| && now[i].id == now[j].id ensures Follows(now[j], now[i]) {
      assert Follows(s.tabs[j], s.tabs[i]);
    }
  }

  lemma OpenedKeeps(s: State, used: set<Attempt>, a: Attempt, next: CallId)
    requires Inv(s, used) && a in s.opens
    ensures Inv(AfterOpened(s, a, next), used)
  {
    var t := s.(opens := s.opens - {a}, opening := s.opening - {a}, early := s.early - {a});
    SameTabsKeep(s, t, used);
    SentKeeps(t, used, Session(s.opens[a], a), true, None, next);
  }

  lemma OpenKeeps(s: State, used: set<Attempt>, tab: TabId)
    requires Inv(s, used)
    ensures Inv(Next(s, OpenTab(tab)), used)
  {
    var t := Next(s, OpenTab(tab));
    forall x | x in t.tabs ensures TabKept(t, x) {
      assert x in s.tabs ==> TabKept(s, x);
    }
    assert forall x :: x in t.tabs && x.session.Some? ==> x in s.tabs;
    assert OneRequest(t.tabs);
    forall c | c in t.cancels && t.cancels[c].closing.Some? ensures OnlyTab(t, t.cancels[c].session, t.cancels[c].closing.value) {
      assert OnlyTab(s, s.cancels[c].session, s.cancels[c].closing.value);
    }
  }

  /** The session a tab shows is shown by tabs of its request alone. */
  lemma ShownByOne(s: State, used: set<Attempt>, tab: TabId)
    requires Inv(s, used) && SessionOf(s, tab).Some?
    ensures OnlyTab(s, SessionOf(s, tab).value, tab) && SessionOf(s, tab).value.attempt in used
  {
    FindIs(s.tabs, tab);
    assert TabKept(s, Find(s.tabs, tab).value);
  }

  lemma AbortKeeps(s: State, used: set<Attempt>, tab: TabId, next: CallId)
    requires Inv(s, used)
    ensures Inv(Next(s, Abort(tab, next)), used)
  {
    if SessionOf(s, tab).Some? {
      ShownByOne(s, used, tab);
      SentKeeps(s, used, SessionOf(s, tab).value, true, None, next);
    }
  }

  lemma CloseKeeps(s: State, used: set<Attempt>, tab: TabId, next: CallId)
    requires Inv(s, used)
    ensures Inv(AfterClose(s, tab, next), used)
  {
    if SessionOf(s, tab).Some? {
      ShownByOne(s, used, tab);
      SentKeeps(s, used, SessionOf(s, tab).value, true, Some(tab), next);
    } else if RunningOf(s, tab).Some? {
      SameTabsKeep(s, AfterClose(s, tab, next), used);
    } else {
      FewerTabs(s, used, tab);
    }
  }

  /** A step of what tabs wait for keeps the rest of them. */
  lemma RunningKeeps(s: State, t: State, used: set<Attempt>, id: TabId, running: Option<Exec>)
    requires Inv(s, used) && t.tabs == WithRunning(s.tabs, id, running)
    requires t == s.(tabs := t.tabs, sends := t.sends)
    requires forall i :: 0 <= i < |t.tabs| ==> TabKept(t, t.tabs[i])
    ensures Inv(t, used)
  {
    forall i, j | 0 <= i < j < |t.tabs| && t.tabs[i].id == t.tabs[j].id ensures Follows(t.tabs[j], t.tabs[i]) {
      assert Follows(s.tabs[j], s.tabs[i]);
    }
    forall i, j | 0 <= i < |t.tabs| && 0 <= j < |t.tabs| && SameAttempt(t.tabs[i].session, t.tabs[j].session) ensures t.tabs[i].id == t.tabs[j].id {
      assert s.tabs[i] in s.tabs && s.tabs[j] in s.tabs;
    }
    forall c | c in t.cancels && t.cancels[c].closing.Some? ensures OnlyTab(t, t.cancels[c].session, t.cancels[c].closing.value) {
      assert OnlyTab(s, s.cancels[c].session, s.cancels[c].closing.value);
      forall i | 0 <= i < |t.tabs| && SameAttempt(t.tabs[i].session, Some(t.cancels[c].session)) ensures t.tabs[i].id == t.cancels[c].closing.value {
        assert s.tabs[i] in s.tabs;
      }
    }
  }

  lemma SendKeeps(s: State, used: set<Attempt>, tab: TabId, exec: Exec)
    requires Inv(s, used) && exec !in s.sends
    ensures Inv(AfterSend(s, tab, exec), used)
  {
    var t := AfterSend(s, tab, exec);
    if t != s {
      forall i | 0 <= i < |t.tabs| ensures TabKept(t, t.tabs[i]) {
        assert s.tabs[i] in s.tabs && TabKept(s, s.tabs[i]);
        FirstFollowed(s, used, s.tabs[i]);
      }
      RunningKeeps(s, t, used, tab, Some(exec));
    }
  }

  lemma SendReplyKeeps(s: State, used: set<Attempt>, exec: Exec)
    requires Inv(s, used) && exec in s.sends
    ensures Inv(AfterSendReply(s, exec), used)
  {
    var t := AfterSendReply(s, exec);
    forall i | 0 <= i < |t.tabs| ensures TabKept(t, t.tabs[i]) {
      assert s.tabs[i] in s.tabs && TabKept(s, s.tabs[i]);
    }
    RunningKeeps(s, t, used, s.sends[exec], None);
  }

  lemma StopKeeps(s: State, used: set<Attempt>, tab: TabId, next: CallId)
    requires Inv(s, used)
    ensures Inv(Next(s, StopSend(tab, next)), used)
  {
    SameTabsKeep(s, Next(s, StopSend(tab, next)), used);
  }

  lemma StopReplyKeeps(s: State, used: set<Attempt>, call: CallId, ok: bool)
    requires Inv(s, used) && call in s.sendCancels
    ensures Inv(AfterStop(s, call, ok), used)
  {
    var t := s.(sendCancels := s.sendCancels - {call});
    SameTabsKeep(s, t, used);
    if ok && s.sendCancels[call].closing.Some? {
      FewerTabs(t, used, s.sendCancels[call].closing.value);
    }
  }

  /** Every step keeps what every state has. */
  lemma StepKeeps(s: State, used: set<Attempt>, e: Event)
    requires Inv(s, used) && Enabled(s, used, e)
    ensures Inv(Next(s, e), used + Uses(e))
  {
    assert used + {} == used;
    match e
    case OpenTab(tab) => OpenKeeps(s, used, tab);
    case Connect(tab, p) => ConnectKeeps(s, used, tab, p);
    case Opened(a, next) => OpenedKeeps(s, used, a, next);
    case OpenFailed(a) => FailureKeeps(s, used, a);
    case Abort(tab, next) => AbortKeeps(s, used, tab, next);
    case Close(tab, next) => CloseKeeps(s, used, tab, next);
    case CancelReply(call, reply, next) => ReplyKeeps(s, used, call, reply, next);
    case Ended(p) => EndKeeps(s, used, p);
    case Send(tab, exec) => SendKeeps(s, used, tab, exec);
    case SendReply(exec) => SendReplyKeeps(s, used, exec);
    case StopSend(tab, next) => StopKeeps(s, used, tab, next);
    case StopReply(call, ok) => StopReplyKeeps(s, used, call, ok);
  }

  /** The attempts used before step `i` of a run. */
  function UsedBy(events: seq<Event>, i: nat): set<Attempt>
    requires i <= |events|
  {
    if i == 0 then {} else UsedBy(events, i - 1) + Uses(events[i - 1])
  }

  function After(events: seq<Event>, i: nat): State
    requires i <= |events|
  {
    if i == 0 then START else Next(After(events, i - 1), events[i - 1])
  }

  ghost predicate Run(events: seq<Event>) {
    forall i :: 0 <= i < |events| ==> Enabled(After(events, i), UsedBy(events, i), events[i])
  }

  lemma StepAt(events: seq<Event>, i: nat)
    requires Run(events) && i < |events| && Inv(After(events, i), UsedBy(events, i))
    ensures Inv(After(events, i + 1), UsedBy(events, i + 1))
  {
    StepKeeps(After(events, i), UsedBy(events, i), events[i]);
  }

  /** After any run, early aborts are pending opens, owners are one kind or the other, and every session shown has its owner. */
  lemma {:induction false} RunKeeps(events: seq<Event>, i: nat)
    requires Run(events) && i <= |events|
    ensures Inv(After(events, i), UsedBy(events, i))
  {
    if i == 0 {
      StartInv();
    } else {
      RunKeeps(events, i - 1);
      StepAt(events, i - 1);
    }
  }

  /** An end event changes exactly the tabs that show its session, all of one request. */
  lemma EndTouchesOneRequest(events: seq<Event>, i: nat, p: Session, k: nat, m: nat)
    requires Run(events) && i <= |events| && k < |After(events, i).tabs| && m < |After(events, i).tabs|
    ensures var s, after := After(events, i), AfterEnd(After(events, i), p);
      && |after.tabs| == |s.tabs|
      && after.tabs[k] == (if s.tabs[k].session == Some(p) then s.tabs[k].(session := None) else s.tabs[k])
      && (after.tabs[k] != s.tabs[k] && after.tabs[m] != s.tabs[m] ==> s.tabs[k].id == s.tabs[m].id)
  {
    RunKeeps(events, i);
    EndClears(After(events, i), UsedBy(events, i), p, k);
    EndClears(After(events, i), UsedBy(events, i), p, m);
    var s := After(events, i);
    assert s.tabs[k] in s.tabs && s.tabs[m] in s.tabs;
  }

  lemma EndClears(s: State, used: set<Attempt>, p: Session, k: nat)
    requires Inv(s, used) && k < |s.tabs|
    ensures |AfterEnd(s, p).tabs| == |s.tabs|
    ensures AfterEnd(s, p).tabs[k] == if s.tabs[k].session == Some(p) then s.tabs[k].(session := None) else s.tabs[k]
  {
    assert s.tabs[k] in s.tabs && TabKept(s, s.tabs[k]);
  }

  /** A retried cancel is never retried again. */
  lemma RetriesOnce(events: seq<Event>, i: nat, call: CallId, reply: Reply, next: CallId)
    requires Run(events) && i <= |events| && call in After(events, i).cancels && !After(events, i).cancels[call].retry
    ensures AfterReply(After(events, i), call, reply, next).cancels == After(events, i).cancels - {call}
  {
    RunKeeps(events, i);
  }

  /** Some tab shows request `id`. */
  predicate IsOpen(s: State, id: TabId) {
    Find(s.tabs, id).Some?
  }

  /** A step after which nothing of `id` runs for its tab, and its tab goes. */
  predicate Finishes(s: State, e: Event, id: TabId) {
    || (e.Close? && e.tab == id && SessionOf(s, id).None? && RunningOf(s, id).None?)
    || (e.CancelReply? && e.call in s.cancels && s.cancels[e.call].closing == Some(id) && e.reply != Failed)
    || (e.StopReply? && e.call in s.sendCancels && s.sendCancels[e.call].closing == Some(id) && e.ok)
  }

  lemma {:induction false} FoundAfter(tabs: seq<Tab>, now: seq<Tab>, id: TabId)
    requires |now| == |tabs| && forall i :: 0 <= i < |tabs| ==> now[i].id == tabs[i].id
    ensures Find(now, id).Some? <==> Find(tabs, id).Some?
  {
    if tabs != [] {
      FoundAfter(tabs[1..], now[1..], id);
    }
  }

  lemma {:induction false} FoundWithout(tabs: seq<Tab>, closed: TabId, id: TabId)
    ensures Find(Without(tabs, closed), id) == if id == closed then None else Find(tabs, id)
  {
    if tabs != [] {
      FoundWithout(tabs[1..], closed, id);
      var rest := Without(tabs[1..], closed);
      assert Without(tabs, closed) == (if tabs[0].id == closed then [] else [tabs[0]]) + rest;
      if tabs[0].id != closed {
        assert Without(tabs, closed)[1..] == rest;
      } else {
        assert Without(tabs, closed) == rest;
      }
    }
  }

  lemma {:induction false} FoundMore(tabs: seq<Tab>, t: Tab, id: TabId)
    requires Find(tabs, id).Some?
    ensures Find(tabs + [t], id) == Find(tabs, id)
  {
    if tabs[0].id != id {
      assert (tabs + [t])[1..] == tabs[1..] + [t];
      FoundMore(tabs[1..], t, id);
    }
  }

  lemma ClosedOpen(s: State, closing: Option<TabId>, session: Option<Session>, id: TabId)
    requires IsOpen(s, id) && closing != Some(id)
    ensures IsOpen(Closed(s, closing, session), id)
  {
    if closing.Some? {
      FoundWithout(s.tabs, closing.value, id);
    }
  }

  lemma ReplyOpen(s: State, call: CallId, reply: Reply, next: CallId, id: TabId)
    requires call in s.cancels && IsOpen(s, id) && (s.cancels[call].closing != Some(id) || reply == Failed)
    ensures IsOpen(AfterReply(s, call, reply, next), id)
  {
    var c := s.cancels[call];
    var t, a := s.(cancels := s.cancels - {call}), c.session.attempt;
    if reply != Failed {
      ClosedOpen(t, c.closing, Some(c.session), id);
      ClosedOpen(t.(stopped := t.stopped - {a}), c.closing, Some(c.session), id);
      ClosedOpen(t.(early := t.early + {a}), c.closing, Some(c.session), id);
    }
  }

  lemma SameRequestsOpen(s: State, t: State, id: TabId)
    requires IsOpen(s, id) && |t.tabs| == |s.tabs| && forall i :: 0 <= i < |s.tabs| ==> t.tabs[i].id == s.tabs[i].id
    ensures IsOpen(t, id)
  {
    FoundAfter(s.tabs, t.tabs, id);
  }

  lemma CloseOpen(s: State, tab: TabId, next: CallId, id: TabId)
    requires IsOpen(s, id) && !Finishes(s, Close(tab, next), id)
    ensures IsOpen(AfterClose(s, tab, next), id)
  {
    FoundWithout(s.tabs, tab, id);
  }

  lemma StopOpen(s: State, call: CallId, ok: bool, id: TabId)
    requires IsOpen(s, id) && call in s.sendCancels && !Finishes(s, StopReply(call, ok), id)
    ensures IsOpen(AfterStop(s, call, ok), id)
  {
    if ok {
      ClosedOpen(s.(sendCancels := s.sendCancels - {call}), s.sendCancels[call].closing, None, id);
    }
  }

  /** A request's tab goes only when nothing runs for it, or once the cancel its closing sent is answered. */
  lemma LiveTabStays(s: State, e: Event, id: TabId)
    requires IsOpen(s, id) && !Finishes(s, e, id)
    ensures IsOpen(Next(s, e), id)
  {
    match e
    case OpenTab(tab) => FoundMore(s.tabs, Tab(tab, None, None), id);
    case Close(tab, next) => CloseOpen(s, tab, next, id);
    case CancelReply(call, reply, next) =>
      if call in s.cancels {
        ReplyOpen(s, call, reply, next, id);
      }
    case StopReply(call, ok) =>
      if call in s.sendCancels {
        StopOpen(s, call, ok, id);
      }
    case Connect(tab, p) => SameRequestsOpen(s, AfterConnect(s, tab, p), id);
    case OpenFailed(a) => SameRequestsOpen(s, AfterFailure(s, a), id);
    case Ended(p) => SameRequestsOpen(s, AfterEnd(s, p), id);
    case Send(tab, exec) => SameRequestsOpen(s, AfterSend(s, tab, exec), id);
    case SendReply(exec) =>
      if exec in s.sends {
        SameRequestsOpen(s, AfterSendReply(s, exec), id);
      }
    case _ =>
  }

  /**
   * What every state has of a tab: it never has a session and waits for a send
   * at once, and the send it waits for is pending, for its own request. A reply
   * ends the wait of exactly the tabs of its request, whichever send they wait
   * for.
   */
  lemma WaitsEndExactly(events: seq<Event>, i: nat, exec: Exec, k: nat)
    requires Run(events) && i <= |events| && k < |After(events, i).tabs|
    ensures var s := After(events, i);
      && (s.tabs[k].session.None? || s.tabs[k].running.None?)
      && (s.tabs[k].running.Some? ==> Lookup(s.sends, s.tabs[k].running.value) == Some(s.tabs[k].id))
      && (exec in s.sends ==>
            AfterSendReply(s, exec).tabs[k] == if s.tabs[k].id == s.sends[exec] then s.tabs[k].(running := None) else s.tabs[k])
  {
    RunKeeps(events, i);
    assert After(events, i).tabs[k] in After(events, i).tabs && TabKept(After(events, i), After(events, i).tabs[k]);
  }

  // Send, close the tab, open it again and send again: then the first send's reply arrives.

  const RESENT: seq<Event> := [
    OpenTab(1), Send(1, 0), Close(1, 0), StopReply(0, true), OpenTab(1), Send(1, 1), SendReply(0)]

  lemma OneStep(events: seq<Event>, i: nat)
    requires i < |events|
    ensures After(events, i + 1) == Next(After(events, i), events[i])
  {
  }

  const SENDING := START.(tabs := [Tab(1, None, Some(0))], sends := map[0 := 1])

  lemma SendState(s: State)
    requires s == START.(tabs := [Tab(1, None, None)])
    ensures Next(s, Send(1, 0)) == SENDING
  {
    assert WithRunning(s.tabs, 1, Some(0)) == SENDING.tabs;
  }

  lemma CloseState(s: State)
    requires s == SENDING
    ensures Next(s, Close(1, 0)) == SENDING.(sendCancels := map[0 := SendStop(0, Some(1))])
  {
  }

  lemma FirstSendStates(events: seq<Event>)
    requires events == RESENT
    ensures After(events, 0) == START && After(events, 1) == START.(tabs := [Tab(1, None, None)])
    ensures After(events, 2) == SENDING
    ensures After(events, 3) == SENDING.(sendCancels := map[0 := SendStop(0, Some(1))])
  {
    OneStep(events, 0);
    OneStep(events, 1);
    OneStep(events, 2);
    SendState(After(events, 1));
    CloseState(After(events, 2));
  }

  const CLOSED_AFTER_SEND := START.(sends := map[0 := 1])

  lemma StopState(s: State)
    requires s == SENDING.(sendCancels := map[0 := SendStop(0, Some(1))])
    ensures Next(s, StopReply(0, true)) == CLOSED_AFTER_SEND
  {
    assert Without(s.tabs, 1) == [] + Without(s.tabs[1..], 1) == [];
  }

  lemma ResendState(s: State)
    requires s == CLOSED_AFTER_SEND.(tabs := [Tab(1, None, None)])
    ensures Next(s, Send(1, 1)) == START.(tabs := [Tab(1, None, Some(1))], sends := map[0 := 1, 1 := 1])
  {
    assert WithRunning(s.tabs, 1, Some(1)) == [Tab(1, None, Some(1))];
  }

  lemma SecondSendStates(events: seq<Event>)
    requires events == RESENT
    requires After(events, 3) == SENDING.(sendCancels := map[0 := SendStop(0, Some(1))])
    ensures After(events, 4) == CLOSED_AFTER_SEND
    ensures After(events, 5) == CLOSED_AFTER_SEND.(tabs := [Tab(1, None, None)])
    ensures After(events, 6) == START.(tabs := [Tab(1, None, Some(1))], sends := map[0 := 1, 1 := 1])
  {
    var i, j, k := 3, 4, 5;
    OneStep(events, i);
    StopState(After(events, i));
    OneStep(events, j);
    OneStep(events, k);
    ResendState(After(events, k));
  }

  /** The tab shows nothing in flight, and would let another send start, while its own is still pending. */
  lemma LateReplyEndsWait(events: seq<Event>)
    requires events == RESENT
    ensures Run(events)
    ensures var s := After(events, 7);
      s.tabs == [Tab(1, None, None)] && CanStart(s.tabs[0]) && Lookup(s.sends, 1) == Some(1)
  {
    FirstSendStates(events);
    SecondSendStates(events);
    forall i | 0 <= i < |events| ensures Enabled(After(events, i), UsedBy(events, i), events[i]) {
      ResentEnabled(events, i);
    }
    var s6 := After(events, 6);
    assert WithRunning(s6.tabs, 1, None) == [Tab(1, None, None)];
    assert After(events, 7) == AfterSendReply(s6, 0);
  }

  lemma ResentEnabled(events: seq<Event>, i: nat)
    requires events == RESENT && i < 7
    ensures Enabled(After(events, i), UsedBy(events, i), events[i])
  {
    FirstSendStates(events);
    SecondSendStates(events);
  }

  // ------------------------------------------------- what a step leaves

  predicate Retried(s: State, call: CallId)
    requires call in s.cancels
  {
    var c := s.cancels[call];
    c.wasOpening && c.session.attempt !in s.opening && c.retry
  }

  /** Closing a tab touches tabs and owners alone. */
  lemma ClosedLeaves(s: State, closing: Option<TabId>, session: Option<Session>)
    ensures var t := Closed(s, closing, session);
      t.cancels == s.cancels && t.opening == s.opening && t.early == s.early && t.stopped == s.stopped
  {
  }

  /** What a reply leaves of cancels, opens and early aborts. */
  lemma ReplyLeaves(s: State, call: CallId, reply: Reply, next: CallId)
    requires call in s.cancels
    ensures var t, c := AfterReply(s, call, reply, next), s.cancels[call];
      && t.opening == s.opening
      && t.cancels == (if reply == NoLongerOpen && Retried(s, call)
                       then (s.cancels - {call})[next := Cancel(c.session, false, false, c.closing)] else s.cancels - {call})
      && t.early == (if reply == NoLongerOpen && c.wasOpening && c.session.attempt in s.opening
                     then s.early + {c.session.attempt} else s.early)
  {
    var c := s.cancels[call];
    var t, a := s.(cancels := s.cancels - {call}), c.session.attempt;
    ClosedLeaves(t, c.closing, Some(c.session));
    ClosedLeaves(t.(stopped := t.stopped - {a}), c.closing, Some(c.session));
    ClosedLeaves(t.(early := t.early + {a}), c.closing, Some(c.session));
  }

  // --------------------------------------------------------- no lost abort

  /** What has happened to each attempt. */
  datatype Story = Story(abortedEarly: set<Attempt>, stopped: set<Attempt>, failed: set<Attempt>, openFailed: set<Attempt>,
                         didOpen: set<Attempt>, sentAfterOpen: set<Attempt>, ended: set<Attempt>)

  const UNTOLD := Story({}, {}, {}, {}, {}, {}, {})

  /** The session an event asks to stop, if it does. */
  function AbortOf(s: State, e: Event): Option<Session> {
    if e.Abort? || e.Close? then SessionOf(s, e.tab) else None
  }

  /** The attempt a step sends a cancel for after its open succeeded, if it does. */
  function SentLate(s: State, st: Story, e: Event): set<Attempt> {
    if e.Opened? && e.attempt in s.opens && e.attempt in s.early then {e.attempt}
    else if e.CancelReply? && e.call in s.cancels && e.reply == NoLongerOpen && Retried(s, e.call)
            && s.cancels[e.call].session.attempt in st.didOpen then {s.cancels[e.call].session.attempt}
    else {}
  }

  function Told(s: State, st: Story, e: Event): Story {
    var aborted := AbortOf(s, e);
    var answered := if e.CancelReply? && e.call in s.cancels then {s.cancels[e.call].session.attempt} else {};
    Story(st.abortedEarly + (if aborted.Some? && aborted.value.attempt in s.opening then {aborted.value.attempt} else {}),
          st.stopped + (if e.CancelReply? && e.reply == Stopped then answered else {}),
          st.failed + (if e.CancelReply? && e.reply == Failed then answered else {}),
          st.openFailed + (if e.OpenFailed? then {e.attempt} else {}),
          st.didOpen + (if e.Opened? then {e.attempt} else {}),
          st.sentAfterOpen + SentLate(s, st, e),
          st.ended + (if e.Ended? then {e.session.attempt} else {}))
  }

  function StoryOf(events: seq<Event>, i: nat): Story
    requires i <= |events|
  {
    if i == 0 then UNTOLD else Told(After(events, i - 1), StoryOf(events, i - 1), events[i - 1])
  }

  /** A cancel sent while attempt `a` was still opening is not answered yet. */
  ghost predicate Waiting(s: State, a: Attempt) {
    exists c :: c in s.cancels && s.cancels[c].session.attempt == a && s.cancels[c].wasOpening
  }

  /** How an early abort of `a` came out. */
  predicate Resolved(st: Story, a: Attempt) {
    a in st.stopped || a in st.failed || a in st.openFailed || a in st.sentAfterOpen
  }

  /** No early abort is forgotten: it is resolved, will be repeated when the open returns, or its cancel is on its way. */
  ghost predicate Remembered(s: State, st: Story) {
    && (forall a :: a in st.abortedEarly ==> Resolved(st, a) || a in s.early || Waiting(s, a))
    && (forall c :: c in s.cancels ==> OpenKnown(s, st, s.cancels[c]))
  }

  lemma OthersWait(s: State, t: State, call: CallId, a: Attempt)
    requires forall c :: c in s.cancels && c != call ==> c in t.cancels && t.cancels[c] == s.cancels[c]
    requires call in s.cancels ==> s.cancels[call].session.attempt != a || !s.cancels[call].wasOpening
    ensures Waiting(s, a) ==> Waiting(t, a)
  {
  }

  lemma StaysResolved(s: State, st: Story, e: Event, a: Attempt)
    requires Resolved(st, a)
    ensures Resolved(Told(s, st, e), a)
  {
  }

  lemma SendRemembers(s: State, st: Story, e: Event, a: Attempt, used: set<Attempt>)
    requires Ledger(s, used) && Enabled(s, used, e) && Remembered(s, st) && (e.Abort? || e.Close?)
    requires a in Told(s, st, e).abortedEarly
    ensures Resolved(Told(s, st, e), a) || a in Next(s, e).early || Waiting(Next(s, e), a)
  {
    var p := SessionOf(s, e.tab);
    if p.Some? {
      var t := Sent(s, p.value, true, if e.Close? then Some(e.tab) else None, e.next);
      assert Next(s, e) == t;
      OthersWait(s, t, e.next, a);
      if p.value.attempt == a && a in s.opening {
        assert e.next in t.cancels && t.cancels[e.next].wasOpening;
      }
    } else {
      NoCancelKeeps(s, e);
      OthersWait(s, Next(s, e), e.next, a);
    }
  }

  /** The answer to the cancel of an early abort resolves it, or leaves it for when the open returns. */
  lemma AnswerResolves(s: State, st: Story, e: Event, used: set<Attempt>)
    requires Ledger(s, used) && e.CancelReply? && e.call in s.cancels && s.cancels[e.call].wasOpening
    requires OpenKnown(s, st, s.cancels[e.call])
    ensures var a := s.cancels[e.call].session.attempt;
      Resolved(Told(s, st, e), a) || (e.reply == NoLongerOpen && a in s.opening)
  {
    assert s.cancels[e.call].retry;
  }

  lemma ReplyRemembers(s: State, st: Story, e: Event, a: Attempt, used: set<Attempt>)
    requires Ledger(s, used) && Enabled(s, used, e) && Remembered(s, st) && e.CancelReply?
    requires a in st.abortedEarly
    ensures Resolved(Told(s, st, e), a) || a in AfterReply(s, e.call, e.reply, e.next).early || Waiting(AfterReply(s, e.call, e.reply, e.next), a)
  {
    var c := s.cancels[e.call];
    ReplyLeaves(s, e.call, e.reply, e.next);
    if Resolved(st, a) {
      StaysResolved(s, st, e, a);
    } else if c.session.attempt == a && c.wasOpening {
      AnswerResolves(s, st, e, used);
    } else {
      OthersWait(s, AfterReply(s, e.call, e.reply, e.next), e.call, a);
    }
  }

  lemma OpenedRemembers(s: State, st: Story, e: Event, a: Attempt, used: set<Attempt>)
    requires Ledger(s, used) && Enabled(s, used, e) && Remembered(s, st) && e.Opened? && a in st.abortedEarly
    ensures Resolved(Told(s, st, e), a) || a in AfterOpened(s, e.attempt, e.next).early || Waiting(AfterOpened(s, e.attempt, e.next), a)
  {
    OthersWait(s, AfterOpened(s, e.attempt, e.next), e.next, a);
    if Resolved(st, a) {
      StaysResolved(s, st, e, a);
    }
  }

  lemma FailureRemembers(s: State, st: Story, e: Event, a: Attempt)
    requires Remembered(s, st) && e.OpenFailed? && a in st.abortedEarly
    ensures Resolved(Told(s, st, e), a) || a in AfterFailure(s, e.attempt).early || Waiting(AfterFailure(s, e.attempt), a)
  {
    assert AfterFailure(s, e.attempt).cancels == s.cancels;
    assert Waiting(s, a) ==> Waiting(AfterFailure(s, e.attempt), a);
  }

  /** Steps that touch neither cancels nor opens. */
  predicate Elsewhere(e: Event) {
    e.OpenTab? || e.Connect? || e.Ended? || e.Send? || e.SendReply? || e.StopSend? || e.StopReply?
  }

  lemma ElsewhereLeaves(s: State, e: Event)
    requires Elsewhere(e)
    ensures Next(s, e).cancels == s.cancels && Next(s, e).early == s.early
  {
    match e
    case Connect(_, _) =>
    case Ended(_) =>
    case Send(_, _) =>
    case StopReply(call, _) =>
      if call in s.sendCancels {
        ClosedLeaves(s.(sendCancels := s.sendCancels - {call}), s.sendCancels[call].closing, None);
      }
    case _ =>
  }

  lemma AbortRemembered(s: State, st: Story, e: Event, a: Attempt, used: set<Attempt>)
    requires Ledger(s, used) && Enabled(s, used, e) && Remembered(s, st) && a in Told(s, st, e).abortedEarly
    ensures Resolved(Told(s, st, e), a) || a in Next(s, e).early || Waiting(Next(s, e), a)
  {
    match e
    case Abort(_, _) => SendRemembers(s, st, e, a, used);
    case Close(_, _) => SendRemembers(s, st, e, a, used);
    case CancelReply(_, _, _) => ReplyRemembers(s, st, e, a, used);
    case Opened(_, _) => OpenedRemembers(s, st, e, a, used);
    case OpenFailed(_) => FailureRemembers(s, st, e, a);
    case _ =>
      ElsewhereLeaves(s, e);
      assert Waiting(s, a) ==> Waiting(Next(s, e), a);
  }

  /** A cancel sent while its attempt was opening: the open is still pending, or came out. */
  predicate OpenKnown(s: State, st: Story, c: Cancel) {
    c.wasOpening ==> c.session.attempt in s.opening || c.session.attempt in st.didOpen || c.session.attempt in st.openFailed
  }

  /** An open stays pending until it succeeds or fails. */
  lemma OpeningEnds(s: State, e: Event, a: Attempt)
    requires a in s.opening && !(e.Opened? && e.attempt == a) && !(e.OpenFailed? && e.attempt == a)
    ensures a in Next(s, e).opening
  {
    match e
    case CancelReply(call, reply, next) =>
      if call in s.cancels {
        ReplyLeaves(s, call, reply, next);
      }
    case Connect(_, _) =>
    case Opened(_, _) =>
    case Close(_, _) =>
    case Ended(_) =>
    case StopReply(_, _) =>
    case _ =>
  }

  lemma OpenStaysKnown(s: State, st: Story, e: Event, used: set<Attempt>, c: Cancel)
    requires Ledger(s, used) && Enabled(s, used, e) && OpenKnown(s, st, c)
    ensures OpenKnown(Next(s, e), Told(s, st, e), c)
  {
    var a := c.session.attempt;
    if c.wasOpening && a in s.opening && !(e.Opened? && e.attempt == a) && !(e.OpenFailed? && e.attempt == a) {
      OpeningEnds(s, e, a);
    }
  }

  lemma ReplyCancels(s: State, call: CallId, reply: Reply, next: CallId, c: CallId)
    requires call in s.cancels && c in AfterReply(s, call, reply, next).cancels
    ensures var t := AfterReply(s, call, reply, next);
      (c in s.cancels && t.cancels[c] == s.cancels[c]) || (t.cancels[c].wasOpening <==> t.cancels[c].session.attempt in t.opening)
  {
    ReplyLeaves(s, call, reply, next);
  }

  lemma SentCancels(s: State, p: Session, retry: bool, closing: Option<TabId>, next: CallId, c: CallId)
    requires c in Sent(s, p, retry, closing, next).cancels
    ensures var t := Sent(s, p, retry, closing, next);
      (c in s.cancels && t.cancels[c] == s.cancels[c]) || (t.cancels[c].wasOpening <==> t.cancels[c].session.attempt in t.opening)
  {
  }

  /** Steps that send no session's cancel and answer none. */
  predicate NoCancel(s: State, e: Event) {
    match e
    case CancelReply(_, _, _) => false
    case Opened(a, _) => a !in s.early
    case Abort(tab, _) => SessionOf(s, tab).None?
    case Close(tab, _) => SessionOf(s, tab).None?
    case _ => true
  }

  lemma NoCancelKeeps(s: State, e: Event)
    requires NoCancel(s, e)
    ensures Next(s, e).cancels == s.cancels
  {
    if Elsewhere(e) {
      ElsewhereLeaves(s, e);
    } else {
      match e
      case OpenFailed(_) =>
      case Opened(_, _) =>
      case Close(_, _) =>
      case Abort(_, _) =>
    }
  }

  /** A step's cancels are those before it, less one answered and more one sent. */
  lemma CancelsAre(s: State, e: Event, c: CallId)
    requires c in Next(s, e).cancels
    ensures (c in s.cancels && Next(s, e).cancels[c] == s.cancels[c])
         || (Next(s, e).cancels[c].wasOpening <==> Next(s, e).cancels[c].session.attempt in Next(s, e).opening)
  {
    if NoCancel(s, e) {
      NoCancelKeeps(s, e);
    } else {
      match e
      case CancelReply(call, reply, next) =>
        if call in s.cancels {
          ReplyCancels(s, call, reply, next, c);
        }
      case Abort(tab, next) => SentCancels(s, SessionOf(s, tab).value, true, None, next, c);
      case Close(tab, next) => SentCancels(s, SessionOf(s, tab).value, true, Some(tab), next, c);
      case Opened(a, next) =>
    }
  }

  lemma CallsOpened(s: State, st: Story, e: Event, used: set<Attempt>)
    requires Ledger(s, used) && Enabled(s, used, e) && Remembered(s, st)
    ensures forall c :: c in Next(s, e).cancels ==> OpenKnown(Next(s, e), Told(s, st, e), Next(s, e).cancels[c])
  {
    forall c | c in Next(s, e).cancels ensures OpenKnown(Next(s, e), Told(s, st, e), Next(s, e).cancels[c]) {
      CancelsAre(s, e, c);
      if c in s.cancels && Next(s, e).cancels[c] == s.cancels[c] {
        OpenStaysKnown(s, st, e, used, s.cancels[c]);
      }
    }
  }

  lemma StepRemembers(s: State, st: Story, e: Event, used: set<Attempt>)
    requires Ledger(s, used) && Enabled(s, used, e) && Remembered(s, st)
    ensures Remembered(Next(s, e), Told(s, st, e))
  {
    CallsOpened(s, st, e, used);
    forall a | a in Told(s, st, e).abortedEarly
      ensures Resolved(Told(s, st, e), a) || a in Next(s, e).early || Waiting(Next(s, e), a)
    {
      AbortRemembered(s, st, e, a, used);
    }
  }

  lemma NothingToldYet()
    ensures Remembered(START, UNTOLD)
  {
  }

  lemma RememberedAt(events: seq<Event>, i: nat)
    requires Run(events) && i < |events| && Remembered(After(events, i), StoryOf(events, i))
    ensures Remembered(After(events, i + 1), StoryOf(events, i + 1))
  {
    RunKeeps(events, i);
    StepRemembers(After(events, i), StoryOf(events, i), events[i], UsedBy(events, i));
  }

  lemma {:induction false} RunRemembers(events: seq<Event>, i: nat)
    requires Run(events) && i <= |events|
    ensures Remembered(After(events, i), StoryOf(events, i))
  {
    if i == 0 {
      NothingToldYet();
    } else {
      RunRemembers(events, i - 1);
      RememberedAt(events, i - 1);
    }
  }

  /**
   * An abort asked for while its open was pending is never lost: once nothing
   * of that attempt is on its way, a cancel was answered, the open had failed,
   * or a cancel was sent after the open succeeded.
   */
  lemma NoLostAbort(events: seq<Event>, i: nat, a: Attempt)
    requires Run(events) && i <= |events| && a in StoryOf(events, i).abortedEarly
    requires a !in After(events, i).opens
    requires forall c :: c in After(events, i).cancels ==> After(events, i).cancels[c].session.attempt != a
    ensures Resolved(StoryOf(events, i), a)
  {
    RunKeeps(events, i);
    RunRemembers(events, i);
  }

  // --------------------------------------- abandoned opens are not reported

  /** Calls made while an attempt opens know it, and an open aborted meanwhile is marked as stopped. */
  ghost predicate Quiet(s: State, st: Story) {
    && (forall c :: c in s.cancels && s.cancels[c].session.attempt in s.opening ==> s.cancels[c].wasOpening)
    && (forall a :: a in st.abortedEarly && a in s.opening && a !in st.failed && a !in st.ended ==> a in s.stopped)
  }

  lemma CallsStayQuiet(s: State, st: Story, e: Event, used: set<Attempt>, c: CallId)
    requires Ledger(s, used) && Enabled(s, used, e) && Quiet(s, st) && c in Next(s, e).cancels
    ensures Next(s, e).cancels[c].session.attempt in Next(s, e).opening ==> Next(s, e).cancels[c].wasOpening
  {
    CancelsAre(s, e, c);
    OnlyConnectOpens(s, e);
    assert c in s.cancels ==> s.cancels[c].session.attempt in used;
  }

  lemma ReplyOpensNothing(s: State, call: CallId, reply: Reply, next: CallId)
    requires call in s.cancels
    ensures AfterReply(s, call, reply, next).opening == s.opening
  {
    ReplyLeaves(s, call, reply, next);
  }

  lemma OnlyConnectOpens(s: State, e: Event)
    ensures Next(s, e).opening <= s.opening + Uses(e)
  {
    match e
    case CancelReply(call, reply, next) =>
      if call in s.cancels {
        ReplyOpensNothing(s, call, reply, next);
      }
    case Connect(_, _) =>
    case Opened(_, _) =>
    case Close(_, _) =>
    case Ended(_) =>
    case _ =>
  }

  lemma AbortStaysQuiet(s: State, st: Story, e: Event, used: set<Attempt>, a: Attempt)
    requires Ledger(s, used) && Enabled(s, used, e) && Quiet(s, st)
    requires st.abortedEarly <= used
    requires a in Told(s, st, e).abortedEarly && a in Next(s, e).opening && a !in Told(s, st, e).failed && a !in Told(s, st, e).ended
    ensures a in Next(s, e).stopped
  {
    OnlyConnectOpens(s, e);
    if a in s.stopped && a !in Next(s, e).stopped {
      StopsGoOnlyFor(s, e, a);
    }
    if e.CancelReply? {
      assert s.cancels[e.call].session.attempt == a ==> s.cancels[e.call].wasOpening;
    }
  }

  lemma ReplyUnstops(s: State, call: CallId, reply: Reply, next: CallId, a: Attempt)
    requires call in s.cancels && a in s.stopped && a !in AfterReply(s, call, reply, next).stopped
    ensures s.cancels[call].session.attempt == a && (reply == Failed || (reply == NoLongerOpen && !s.cancels[call].wasOpening))
  {
  }

  /** What takes an attempt off the stopped ones. */
  lemma StopsGoOnlyFor(s: State, e: Event, a: Attempt)
    requires a in s.stopped && a !in Next(s, e).stopped
    ensures || (e.OpenFailed? && e.attempt == a)
            || (e.Ended? && e.session.attempt == a)
            || (e.CancelReply? && e.call in s.cancels && s.cancels[e.call].session.attempt == a
                && (e.reply == Failed || (e.reply == NoLongerOpen && !s.cancels[e.call].wasOpening)))
  {
    if e.CancelReply? && e.call in s.cancels {
      ReplyUnstops(s, e.call, e.reply, e.next, a);
    } else if !e.CancelReply? && !(e.OpenFailed? && e.attempt == a) && !(e.Ended? && e.session.attempt == a) {
      OthersStayStopped(s, e, a);
    }
  }

  lemma OthersStayStopped(s: State, e: Event, a: Attempt)
    requires a in s.stopped && !e.CancelReply?
    requires !(e.OpenFailed? && e.attempt == a) && !(e.Ended? && e.session.attempt == a)
    ensures a in Next(s, e).stopped
  {
    match e
    case Connect(_, _) =>
    case Opened(_, _) =>
    case Close(_, _) =>
    case Ended(_) =>
    case StopReply(_, _) =>
    case _ =>
  }

  lemma StepStaysQuiet(s: State, st: Story, e: Event, used: set<Attempt>)
    requires Ledger(s, used) && Enabled(s, used, e) && Quiet(s, st) && st.abortedEarly <= used
    ensures Quiet(Next(s, e), Told(s, st, e)) && Told(s, st, e).abortedEarly <= used + Uses(e)
  {
    forall c | c in Next(s, e).cancels && Next(s, e).cancels[c].session.attempt in Next(s, e).opening
      ensures Next(s, e).cancels[c].wasOpening
    {
      CallsStayQuiet(s, st, e, used, c);
    }
    var told := Told(s, st, e);
    forall a | a in told.abortedEarly && a in Next(s, e).opening && a !in told.failed && a !in told.ended ensures a in Next(s, e).stopped {
      AbortStaysQuiet(s, st, e, used, a);
    }
  }

  lemma NothingQuietYet()
    ensures Quiet(START, UNTOLD)
  {
  }

  lemma QuietAt(events: seq<Event>, i: nat)
    requires Run(events) && i < |events| && Quiet(After(events, i), StoryOf(events, i))
    requires StoryOf(events, i).abortedEarly <= UsedBy(events, i)
    ensures Quiet(After(events, i + 1), StoryOf(events, i + 1)) && StoryOf(events, i + 1).abortedEarly <= UsedBy(events, i + 1)
  {
    RunKeeps(events, i);
    StepStaysQuiet(After(events, i), StoryOf(events, i), events[i], UsedBy(events, i));
  }

  lemma {:induction false} RunStaysQuiet(events: seq<Event>, i: nat)
    requires Run(events) && i <= |events|
    ensures Quiet(After(events, i), StoryOf(events, i)) && StoryOf(events, i).abortedEarly <= UsedBy(events, i)
  {
    if i == 0 {
      NothingQuietYet();
    } else {
      RunStaysQuiet(events, i - 1);
      QuietAt(events, i - 1);
    }
  }

  /** An open the user stopped while it was pending is no error to show when it fails, unless the stop itself failed or the session had ended. */
  lemma AbandonedOpenIsQuiet(events: seq<Event>, i: nat, a: Attempt)
    requires Run(events) && i <= |events| && a in After(events, i).opens
    requires a in StoryOf(events, i).abortedEarly && a !in StoryOf(events, i).failed && a !in StoryOf(events, i).ended
    ensures a in After(events, i).stopped
  {
    RunKeeps(events, i);
    RunStaysQuiet(events, i);
  }

  // ------------------------------------------------ who is marked stopped

  /** The step asks for a cancel of attempt `a`: an abort, a closing tab, or one of them sent again. */
  predicate Cancels(s: State, e: Event, a: Attempt) {
    match e
    case Abort(tab, _) => SessionOf(s, tab).Some? && SessionOf(s, tab).value.attempt == a
    case Close(tab, _) => SessionOf(s, tab).Some? && SessionOf(s, tab).value.attempt == a
    case Opened(done, _) => done == a && a in s.opens && a in s.early
    case CancelReply(call, reply, _) => call in s.cancels && s.cancels[call].session.attempt == a && reply == NoLongerOpen && Retried(s, call)
    case _ => false
  }

  /**
   * The step takes the stop of `a` back or makes it pointless: a cancel of it
   * failed, or found a session that had been open over; its open failed; its
   * end arrived.
   */
  predicate Unstops(s: State, e: Event, a: Attempt) {
    match e
    case CancelReply(call, reply, _) =>
      && call in s.cancels && s.cancels[call].session.attempt == a
      && (reply == Failed || (reply == NoLongerOpen && !s.cancels[call].wasOpening))
    case OpenFailed(failed) => failed == a
    case Ended(p) => p.attempt == a && (Lookup(s.owners, a) == Some(p.exec) || Lookup(s.detached, a) == Some(p.exec))
    case _ => false
  }

  lemma ReplyMarks(s: State, call: CallId, reply: Reply, next: CallId, a: Attempt)
    requires call in s.cancels
    ensures var e := CancelReply(call, reply, next);
      a in AfterReply(s, call, reply, next).stopped <==> Cancels(s, e, a) || (a in s.stopped && !Unstops(s, e, a))
  {
    var c := s.cancels[call];
    var t := s.(cancels := s.cancels - {call});
    ClosedLeaves(t, c.closing, Some(c.session));
    ClosedLeaves(t.(stopped := t.stopped - {c.session.attempt}), c.closing, Some(c.session));
    ClosedLeaves(t.(early := t.early + {c.session.attempt}), c.closing, Some(c.session));
  }

  lemma EndMarks(s: State, p: Session, a: Attempt)
    ensures a in AfterEnd(s, p).stopped <==> a in s.stopped && !Unstops(s, Ended(p), a)
  {
  }

  lemma OtherMarks(s: State, e: Event, a: Attempt)
    requires e.Opened? || e.OpenFailed? || e.Abort? || e.Close?
    ensures a in Next(s, e).stopped <==> Cancels(s, e, a) || (a in s.stopped && !Unstops(s, e, a))
  {
    match e
    case Opened(done, next) => assert done in s.opens ==> Next(s, e) == AfterOpened(s, done, next);
    case OpenFailed(failed) => assert Next(s, e) == AfterFailure(s, failed);
    case Abort(tab, next) => SentMarks(s, SessionOf(s, tab), None, next, a);
    case Close(tab, next) =>
      assert Next(s, e) == AfterClose(s, tab, next);
      SentMarks(s, SessionOf(s, tab), Some(tab), next, a);
  }

  lemma SentMarks(s: State, p: Option<Session>, closing: Option<TabId>, next: CallId, a: Attempt)
    ensures p.Some? ==> (a in Sent(s, p.value, true, closing, next).stopped <==> p.value.attempt == a || a in s.stopped)
  {
  }

  lemma NeverMarks(s: State, e: Event)
    requires Elsewhere(e) && !e.Ended?
    ensures Next(s, e).stopped == s.stopped
  {
    match e
    case Connect(_, _) =>
    case Send(_, _) =>
    case StopReply(call, _) =>
      if call in s.sendCancels {
        ClosedLeaves(s.(sendCancels := s.sendCancels - {call}), s.sendCancels[call].closing, None);
      }
    case _ =>
  }

  /** What one step does to the marks. */
  lemma StepMarks(s: State, e: Event, a: Attempt)
    ensures a in Next(s, e).stopped <==> Cancels(s, e, a) || (a in s.stopped && !Unstops(s, e, a))
  {
    match e
    case CancelReply(call, reply, next) =>
      if call in s.cancels {
        ReplyMarks(s, call, reply, next, a);
      }
    case Ended(p) => EndMarks(s, p, a);
    case _ =>
      if Elsewhere(e) {
        NeverMarks(s, e);
      } else {
        OtherMarks(s, e, a);
      }
  }

  /** Set at `m`, and not reset before `i`. */
  predicate SetSince(sets: seq<bool>, resets: seq<bool>, m: nat, i: nat)
    requires m < i <= |sets| && |resets| == |sets|
  {
    sets[m] && forall n :: m < n < i ==> !resets[n]
  }

  /** A mark that steps set and reset is there exactly when it was set and not reset since. */
  lemma {:induction false} Latch(marks: seq<bool>, sets: seq<bool>, resets: seq<bool>, i: nat)
    requires |marks| == |sets| + 1 && |resets| == |sets| && i < |marks| && !marks[0]
    requires forall j :: 0 <= j < |sets| ==> marks[j + 1] == (sets[j] || (marks[j] && !resets[j]))
    ensures marks[i] <==> exists m: nat :: m < i && SetSince(sets, resets, m, i)
  {
    if i > 0 {
      Latch(marks, sets, resets, i - 1);
      if sets[i - 1] {
        assert SetSince(sets, resets, i - 1, i);
      } else if marks[i - 1] && !resets[i - 1] {
        var m: nat :| m < i - 1 && SetSince(sets, resets, m, i - 1);
        assert SetSince(sets, resets, m, i);
      }
      if m: nat :| m < i && SetSince(sets, resets, m, i) {
        assert m < i - 1 ==> SetSince(sets, resets, m, i - 1) && !resets[i - 1];
      }
    }
  }

  /** At step `m` a cancel of `a` is asked for, and no step before `i` takes the stop back. */
  ghost predicate StillStopped(events: seq<Event>, m: nat, i: nat, a: Attempt)
    requires m < i <= |events|
  {
    Cancels(After(events, m), events[m], a) && forall n :: m < n < i ==> !Unstops(After(events, n), events[n], a)
  }

  lemma MarkAt(events: seq<Event>, j: nat, a: Attempt)
    requires j < |events|
    ensures a in After(events, j + 1).stopped <==>
      Cancels(After(events, j), events[j], a) || (a in After(events, j).stopped && !Unstops(After(events, j), events[j], a))
  {
    OneStep(events, j);
    StepMarks(After(events, j), events[j], a);
  }

  /** These are the marks, and which steps set and reset them. */
  ghost predicate MarksOf(events: seq<Event>, a: Attempt, marks: seq<bool>, sets: seq<bool>, resets: seq<bool>) {
    && |marks| == |events| + 1 && |sets| == |events| && |resets| == |events|
    && (forall j :: 0 <= j < |marks| ==> marks[j] == (a in After(events, j).stopped))
    && (forall j :: 0 <= j < |sets| ==> sets[j] == Cancels(After(events, j), events[j], a))
    && forall j :: 0 <= j < |resets| ==> resets[j] == Unstops(After(events, j), events[j], a)
  }

  lemma MarksLatch(events: seq<Event>, a: Attempt, marks: seq<bool>, sets: seq<bool>, resets: seq<bool>, j: nat)
    requires MarksOf(events, a, marks, sets, resets) && j < |events|
    ensures marks[j + 1] == (sets[j] || (marks[j] && !resets[j]))
  {
    MarkAt(events, j, a);
  }

  lemma SinceIs(events: seq<Event>, a: Attempt, marks: seq<bool>, sets: seq<bool>, resets: seq<bool>, m: nat, i: nat)
    requires MarksOf(events, a, marks, sets, resets) && m < i <= |events|
    ensures SetSince(sets, resets, m, i) <==> StillStopped(events, m, i, a)
  {
  }

  /**
   * An attempt is marked as stopped exactly when a cancel of it was asked for
   * and since then none of it failed, its open did not fail and its end did
   * not arrive.
   */
  lemma StoppedExactly(events: seq<Event>, i: nat, a: Attempt)
    requires i <= |events|
    ensures a in After(events, i).stopped <==> exists m: nat :: m < i && StillStopped(events, m, i, a)
  {
    var marks, sets, resets := MarksAre(events, a);
    forall j | 0 <= j < |sets| ensures marks[j + 1] == (sets[j] || (marks[j] && !resets[j])) {
      MarksLatch(events, a, marks, sets, resets, j);
    }
    Latch(marks, sets, resets, i);
    forall m: nat | m < i ensures SetSince(sets, resets, m, i) <==> StillStopped(events, m, i, a) {
      SinceIs(events, a, marks, sets, resets, m, i);
    }
  }

  lemma MarksAre(events: seq<Event>, a: Attempt) returns (marks: seq<bool>, sets: seq<bool>, resets: seq<bool>)
    ensures MarksOf(events, a, marks, sets, resets) && !marks[0]
  {
    var n := |events|;
    marks := seq(n + 1, j requires 0 <= j <= n => a in After(events, j).stopped);
    sets := seq(n, j requires 0 <= j < n => Cancels(After(events, j), events[j], a));
    resets := seq(n, j requires 0 <= j < n => Unstops(After(events, j), events[j], a));
  }

  /** At step `n` the stop asked for at `m` is taken back. */
  ghost predicate TakenBack(events: seq<Event>, m: nat, n: nat, a: Attempt) {
    m < n < |events| && Unstops(After(events, n), events[n], a)
  }

  /** So an open is reported when it fails, if every cancel asked for was taken back before. */
  lemma TakenBackIsShown(events: seq<Event>, i: nat, a: Attempt)
    requires i <= |events|
    requires forall m: nat :: m < i && Cancels(After(events, m), events[m], a) ==> exists n: nat :: n < i && TakenBack(events, m, n, a)
    ensures a !in After(events, i).stopped
  {
    StoppedExactly(events, i, a);
    forall m: nat | m < i ensures !StillStopped(events, m, i, a) {
      if Cancels(After(events, m), events[m], a) {
        var n: nat :| n < i && TakenBack(events, m, n, a);
      }
    }
  }

  // Connect, abort while the open is pending, and the abort fails: the open's failure is shown.
  const ABORT_FAILED: seq<Event> := [OpenTab(1), Connect(1, Session(0, 0)), Abort(1, 0), CancelReply(0, Failed, 1), OpenFailed(0)]

  const ABORTED := START.(tabs := [Tab(1, Some(Session(0, 0)), None)], owners := map[0 := 0], opening := {0}, opens := map[0 := 0],
                          stopped := {0}, cancels := map[0 := Cancel(Session(0, 0), true, true, None)])

  lemma AbortedStates(events: seq<Event>)
    requires events == ABORT_FAILED
    ensures After(events, 0) == START && After(events, 1) == START.(tabs := [Tab(1, None, None)])
    ensures After(events, 2) == ABORTED.(stopped := {}, cancels := map[])
    ensures After(events, 3) == ABORTED
  {
    OneStep(events, 0);
    OneStep(events, 1);
    assert Connected([Tab(1, None, None)], 1, Session(0, 0)) == [Tab(1, Some(Session(0, 0)), None)];
    OneStep(events, 2);
  }

  lemma AbortFailedStates(events: seq<Event>)
    requires events == ABORT_FAILED && After(events, 3) == ABORTED
    ensures After(events, 4) == ABORTED.(stopped := {}, cancels := map[])
  {
    OneStep(events, 3);
  }

  /** After the failed abort the open is pending and no longer marked, so its failure is an error to show. */
  lemma FailedAbortIsShown(events: seq<Event>)
    requires events == ABORT_FAILED
    ensures Run(events)
    ensures 0 in After(events, 3).stopped
    ensures 0 in After(events, 4).opens && 0 !in After(events, 4).stopped
  {
    AbortedStates(events);
    AbortFailedStates(events);
    forall i | 0 <= i < |events| ensures Enabled(After(events, i), UsedBy(events, i), events[i]) {
      AbortFailedEnabled(events, i);
    }
  }

  lemma AbortFailedEnabled(events: seq<Event>, i: nat)
    requires events == ABORT_FAILED && i < 5
    ensures Enabled(After(events, i), UsedBy(events, i), events[i])
  {
    AbortedStates(events);
    AbortFailedStates(events);
    assert UsedBy(events, 0) == {} && UsedBy(events, 1) == {};
  }
}
