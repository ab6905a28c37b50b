/**
 * The workbench's lists: reads of one list overlap, and only the latest read
 * of the selected workspace's list is shown.
 */
module LatestReads {
  import opened Prelude

  type ListName = nat
  type WorkspaceId = nat
  type Number = nat

  datatype Key = Key(list: ListName, ws: WorkspaceId)

  /** What a list shows: the read it came from and its result. */
  datatype Shown = Shown(number: Number, value: int)

  /** `latest` counts the reads of each list; `pending` are those not answered; `answers` what was answered, by read. */
  datatype State = State(ws: Option<WorkspaceId>, latest: map<Key, Number>, shown: map<ListName, Shown>,
                         pending: set<(Key, Number)>, answers: map<(Key, Number), Option<int>>)

  const START := State(None, map[], map[], {}, map[])

  /** A read answers with a value, or fails. */
  datatype Event = Select(ws: WorkspaceId) | Read(list: ListName) | Answer(key: Key, number: Number, value: Option<int>)

  predicate Enabled(s: State, e: Event) {
    e.Answer? ==> (e.key, e.number) in s.pending
  }

  function Count(m: map<Key, Number>, k: Key): Number {
    if k in m then m[k] else 0
  }

  /** Whether a read is still the one to show. */
  predicate Current(s: State, k: Key, n: Number) {
    Lookup(s.latest, k) == Some(n) && s.ws == Some(k.ws)
  }

  function Next(s: State, e: Event): State {
    match e
    case Select(ws) => if s.ws == Some(ws) then s else s.(ws := Some(ws), shown := map[])
    case Read(list) =>
      if s.ws.None? then s
      else
        var k := Key(list, s.ws.value);
        var n := Count(s.latest, k) + 1;
        s.(latest := s.latest[k := n], pending := s.pending + {(k, n)})
    case Answer(k, n, value) =>
      var t := s.(pending := s.pending - {(k, n)}, answers := s.answers[(k, n) := value]);
      if value.Some? && Current(s, k, n) then t.(shown := s.shown[k.list := Shown(n, value.value)]) else t
  }

  class Lists {
    var ws: Option<WorkspaceId>
    var latest: map<Key, Number>
    var shown: map<ListName, Shown>

    predicate Views(s: State)
      reads this
    {
      ws == s.ws && latest == s.latest && shown == s.shown
    }

    constructor ()
      ensures Views(START)
    {
      ws, latest, shown := None, map[], map[];
    }

    /** Selecting a workspace empties the lists until it is read. */
    method SelectWorkspace(w: WorkspaceId)
      modifies this`ws, this`shown
      ensures ws == Some(w) && shown == if old(ws) == Some(w) then old(shown) else map[]
      ensures forall s :: old(Views(s)) ==> Views(Next(s, Select(w)))
    {
      if ws != Some(w) {
        ws := Some(w);
        shown := map[];
      }
    }

    /** Number a read of `list` before it is sent. */
    method Begin(list: ListName) returns (n: Number)
      modifies this`latest
      ensures forall s :: old(Views(s)) ==> Views(Next(s, Read(list)))
      ensures ws.None? ==> latest == old(latest)
      ensures ws.Some? ==>
        var k := Key(list, ws.value);
        latest == old(latest)[k := n] && n == 1 + if k in old(latest) then old(latest)[k] else 0
    {
      n := 0;
      if ws.Some? {
        var k := Key(list, ws.value);
        n := Count(latest, k) + 1;
        latest := latest[k := n];
      }
    }

    /** A read answered. Whether its failure is reported. */
    method OnAnswer(k: Key, n: Number, value: Option<int>) returns (reported: bool)
      modifies this`shown
      ensures var current := k in latest && latest[k] == n && ws == Some(k.ws);
        && (reported <==> value.None? && current)
        && shown == if value.Some? && current then old(shown)[k.list := Shown(n, value.value)] else old(shown)
      ensures forall s :: old(Views(s)) ==> Views(Next(s, Answer(k, n, value))) && (reported <==> value.None? && Current(s, k, n))
    {
      var current := k in latest && latest[k] == n && ws == Some(k.ws);
      if value.Some? && current {
        shown := shown[k.list := Shown(n, value.value)];
      }
      reported := value.None? && current;
    }
  }

  /** What is shown is an answer of the selected workspace; pending reads are numbered and unanswered; each number is one read. */
  ghost predicate Inv(s: State) {
    && (forall p :: p in s.pending ==> 0 < p.1 <= Count(s.latest, p.0) && p !in s.answers)
    && (forall p :: p in s.answers ==> 0 < p.1 <= Count(s.latest, p.0))
    && (forall k, n: Number :: 0 < n <= Count(s.latest, k) ==> (k, n) in s.pending || (k, n) in s.answers)
    && (forall l :: l in s.shown ==> s.ws.Some? && FromAnswer(s, Key(l, s.ws.value), s.shown[l]))
  }

  predicate FromAnswer(s: State, k: Key, shown: Shown) {
    Lookup(s.answers, (k, shown.number)) == Some(Some(shown.value))
  }

  lemma ReadKeeps(s: State, list: ListName)
    requires Inv(s)
    ensures Inv(Next(s, Read(list)))
  {
    if s.ws.Some? {
      var t, k := Next(s, Read(list)), Key(list, s.ws.value);
      forall x, n: Number | 0 < n <= Count(t.latest, x) ensures (x, n) in t.pending || (x, n) in t.answers {
        if x != k || n != Count(s.latest, k) + 1 {
          assert n <= Count(s.latest, x);
        }
      }
    }
  }

  lemma AnswerKeeps(s: State, k: Key, number: Number, value: Option<int>)
    requires Inv(s) && (k, number) in s.pending
    ensures Inv(Next(s, Answer(k, number, value)))
  {
    var t := Next(s, Answer(k, number, value));
    forall x, n: Number | 0 < n <= Count(t.latest, x) ensures (x, n) in t.pending || (x, n) in t.answers {
      assert (x, n) in s.pending || (x, n) in s.answers;
    }
    forall l | l in t.shown ensures t.ws.Some? && FromAnswer(t, Key(l, t.ws.value), t.shown[l]) {
      if l in s.shown {
        assert FromAnswer(s, Key(l, s.ws.value), s.shown[l]);
      }
    }
  }

  lemma StepKeeps(s: State, e: Event)
    requires Inv(s) && Enabled(s, e)
    ensures Inv(Next(s, e))
  {
    match e
    case Select(_) =>
    case Read(list) => ReadKeeps(s, list);
    case Answer(k, n, value) => AnswerKeeps(s, k, n, value);
  }

  /** A step never replaces what a list shows by an older read of it. */
  lemma NeverOlder(s: State, e: Event, l: ListName)
    requires Inv(s) && Enabled(s, e) && l in s.shown && l in Next(s, e).shown
    ensures Next(s, e).ws == s.ws && s.shown[l].number <= Next(s, e).shown[l].number
  {
  }

  ghost predicate Run(states: seq<State>, events: seq<Event>) {
    && |states| == |events| + 1 && states[0] == START
    && forall i :: 0 <= i < |events| ==> Enabled(states[i], events[i]) && states[i + 1] == Next(states[i], events[i])
  }

  lemma {:induction false} RunKeeps(states: seq<State>, events: seq<Event>, i: nat)
    requires Run(states, events) && i < |states|
    ensures Inv(states[i])
  {
    if i > 0 {
      RunKeeps(states, events, i - 1);
      StepKeeps(states[i - 1], events[i - 1]);
    }
  }

  /** Read `n` is the latest of its list and workspace, which is selected; if it succeeded, it is shown. */
  predicate LatestIs(s: State, k: Key, n: Number) {
    && s.ws == Some(k.ws) && Lookup(s.latest, k) == Some(n)
    && ((k, n) in s.answers && s.answers[(k, n)].Some? ==> Lookup(s.shown, k.list) == Some(Shown(n, s.answers[(k, n)].value)))
  }

  lemma BeginsLatest(s: State, k: Key)
    requires Inv(s) && s.ws == Some(k.ws)
    ensures LatestIs(Next(s, Read(k.list)), k, Count(s.latest, k) + 1)
  {
    var n := Count(s.latest, k) + 1;
    assert (k, n) !in s.answers;
  }

  lemma StaysLatest(s: State, e: Event, k: Key, n: Number)
    requires Inv(s) && Enabled(s, e) && LatestIs(s, k, n) && !e.Select? && e != Read(k.list)
    ensures LatestIs(Next(s, e), k, n)
  {
    if e.Answer? {
      assert (e.key, e.number) !in s.answers;
    }
  }

  lemma StaysAt(states: seq<State>, events: seq<Event>, i: nat, k: Key, n: Number)
    requires Run(states, events) && i < |events| && LatestIs(states[i], k, n) && !events[i].Select? && events[i] != Read(k.list)
    ensures LatestIs(states[i + 1], k, n)
  {
    RunKeeps(states, events, i);
    StaysLatest(states[i], events[i], k, n);
  }

  lemma {:induction false} LatestStays(states: seq<State>, events: seq<Event>, from: nat, i: nat, k: Key, n: Number)
    requires Run(states, events) && from <= i < |states| && LatestIs(states[from], k, n)
    requires forall m :: from <= m < i ==> !events[m].Select? && events[m] != Read(k.list)
    ensures LatestIs(states[i], k, n)
    decreases i
  {
    if from < i {
      LatestStays(states, events, from, i - 1, k, n);
      StaysAt(states, events, i - 1, k, n);
    }
  }

  /**
   * Until the list is read again or another workspace is selected, the latest
   * read is what decides: once it succeeded, its result is shown, whatever
   * earlier reads answer later.
   */
  lemma LatestReadShown(states: seq<State>, events: seq<Event>, begun: nat, i: nat, k: Key)
    requires Run(states, events) && begun < i < |states|
    requires states[begun].ws == Some(k.ws) && events[begun] == Read(k.list)
    requires forall m :: begun < m < i ==> !events[m].Select? && events[m] != Read(k.list)
    ensures LatestIs(states[i], k, Count(states[begun].latest, k) + 1)
  {
    RunKeeps(states, events, begun);
    BeginsLatest(states[begun], k);
    assert states[begun + 1] == Next(states[begun], events[begun]);
    LatestStays(states, events, begun + 1, i, k, Count(states[begun].latest, k) + 1);
  }
}
