/**
 * Live load tests: many at once, each shown from its start reply to its
 * finish, whichever of the two arrives first.
 */
module LoadRuns {
  import opened Prelude

  type RunKey = nat

  /**
   * The window's sets and its list of runs shown; then the runs the backend
   * accepted, the start replies and finishes still to come, and those delivered.
   */
  datatype State = State(liveKeys: set<RunKey>, finishedEarly: set<RunKey>, lives: seq<RunKey>,
                         accepted: set<RunKey>, replied: set<RunKey>, finished: set<RunKey>)

  const START := State({}, {}, [], {}, {}, {})

  datatype Event = Accept(key: RunKey) | StartReply(key: RunKey) | Finish(key: RunKey)

  /** Keys are new; each run has one start reply and one finish. */
  predicate Enabled(s: State, e: Event) {
    match e
    case Accept(k) => k !in s.accepted
    case StartReply(k) => k in s.accepted && k !in s.replied
    case Finish(k) => k in s.accepted && k !in s.finished
  }

  function Without(s: seq<RunKey>, k: RunKey): (r: seq<RunKey>)
    ensures forall x :: x in r <==> x in s && x != k
    ensures NoDup(s) ==> NoDup(r)
  {
    if s == [] then []
    else
      assert s == [s[0]] + s[1..];
      var rest := Without(s[1..], k);
      assert NoDup(s) ==> s[0] !in rest;
      if s[0] == k then rest else [s[0]] + rest
  }

  function Next(s: State, e: Event): State {
    match e
    case Accept(k) => s.(accepted := s.accepted + {k})
    case StartReply(k) =>
      var t := s.(replied := s.replied + {k});
      if k in s.finishedEarly then t.(finishedEarly := s.finishedEarly - {k})
      else if k in s.liveKeys then t
      else t.(liveKeys := s.liveKeys + {k}, lives := s.lives + [k])
    case Finish(k) =>
      State(s.liveKeys - {k}, if k in s.liveKeys then s.finishedEarly else s.finishedEarly + {k}, Without(s.lives, k),
            s.accepted, s.replied, s.finished + {k})
  }

  class LoadView {
    var liveKeys: set<RunKey>
    var finishedEarly: set<RunKey>
    var lives: seq<RunKey>

    predicate Views(s: State)
      reads this
    {
      liveKeys == s.liveKeys && finishedEarly == s.finishedEarly && lives == s.lives
    }

    constructor ()
      ensures Views(START)
    {
      liveKeys, finishedEarly, lives := {}, {}, [];
    }

    method OnStarted(key: RunKey)
      modifies this
      ensures if key in old(finishedEarly) then
          finishedEarly == old(finishedEarly) - {key} && liveKeys == old(liveKeys) && lives == old(lives)
        else
          && finishedEarly == old(finishedEarly) && liveKeys == old(liveKeys) + {key}
          && lives == old(lives) + if key in old(liveKeys) then [] else [key]
      ensures forall s :: old(Views(s)) ==> Views(Next(s, StartReply(key)))
    {
      if key in finishedEarly {
        finishedEarly := finishedEarly - {key};
        return;
      }
      if key in liveKeys {
        return;
      }
      liveKeys := liveKeys + {key};
      lives := lives + [key];
    }

    method OnFinished(key: RunKey)
      modifies this
      ensures liveKeys == old(liveKeys) - {key} && lives == Without(old(lives), key)
      ensures finishedEarly == if key in old(liveKeys) then old(finishedEarly) else old(finishedEarly) + {key}
      ensures forall s :: old(Views(s)) ==> Views(Next(s, Finish(key)))
    {
      if key in liveKeys {
        liveKeys := liveKeys - {key};
      } else {
        finishedEarly := finishedEarly + {key};
      }
      lives := Without(lives, key);
    }
  }

  /** A run is shown exactly from its start reply to its finish; a finish that came first is remembered exactly until the reply. */
  ghost predicate Inv(s: State) {
    && s.replied <= s.accepted && s.finished <= s.accepted
    && s.liveKeys == s.replied - s.finished
    && s.finishedEarly == s.finished - s.replied
    && NoDup(s.lives) && Elements(s.lives) == s.liveKeys
  }

  lemma StepKeeps(s: State, e: Event)
    requires Inv(s) && Enabled(s, e)
    ensures Inv(Next(s, e))
  {
    var t := Next(s, e);
    assert forall k :: k in s.lives <==> k in Elements(s.lives);
    match e
    case Accept(k) =>
    case StartReply(k) =>
      assert k !in s.liveKeys;
      assert Elements(s.lives + [k]) == Elements(s.lives) + {k};
    case Finish(k) =>
      assert Elements(Without(s.lives, k)) == Elements(s.lives) - {k};
  }

  function After(events: seq<Event>, i: nat): State
    requires i <= |events|
  {
    if i == 0 then START else Next(After(events, i - 1), events[i - 1])
  }

  ghost predicate Run(events: seq<Event>) {
    forall i :: 0 <= i < |events| ==> Enabled(After(events, i), events[i])
  }

  lemma {:induction false} RunKeeps(events: seq<Event>, i: nat)
    requires Run(events) && i <= |events|
    ensures Inv(After(events, i))
  {
    if i > 0 {
      RunKeeps(events, i - 1);
      StepKeeps(After(events, i - 1), events[i - 1]);
    }
  }

  /** An event of the first `i` is `e`. */
  ghost predicate Came(events: seq<Event>, i: nat, e: Event)
    requires i <= |events|
  {
    exists j :: 0 <= j < i && events[j] == e
  }

  /** What is kept of the runs accepted, answered and finished is what came. */
  lemma {:induction false} Tracked(events: seq<Event>, i: nat, k: RunKey)
    requires i <= |events|
    ensures k in After(events, i).accepted <==> Came(events, i, Accept(k))
    ensures k in After(events, i).replied <==> Came(events, i, StartReply(k))
    ensures k in After(events, i).finished <==> Came(events, i, Finish(k))
  {
    if i > 0 {
      Tracked(events, i - 1, k);
      forall e: Event ensures Came(events, i, e) <==> Came(events, i - 1, e) || events[i - 1] == e {}
    }
  }

  /** Each run shown is shown once, from its start reply until its finish and never after. */
  lemma ShownWhileLive(events: seq<Event>, i: nat, k: RunKey)
    requires Run(events) && i <= |events|
    ensures NoDup(After(events, i).lives)
    ensures k in After(events, i).lives <==> Came(events, i, StartReply(k)) && !Came(events, i, Finish(k))
  {
    RunKeeps(events, i);
    ShownIsLive(After(events, i), k);
    Tracked(events, i, k);
  }

  lemma ShownIsLive(s: State, k: RunKey)
    requires Inv(s)
    ensures NoDup(s.lives) && (k in s.lives <==> k in s.replied && k !in s.finished)
  {
    assert k in s.lives <==> k in Elements(s.lives);
  }

  /** Once every accepted run has replied and finished, nothing is kept or shown. */
  lemma NothingLeaks(events: seq<Event>, i: nat)
    requires Run(events) && i <= |events|
    requires After(events, i).replied == After(events, i).accepted == After(events, i).finished
    ensures After(events, i).lives == [] && After(events, i).liveKeys == {} && After(events, i).finishedEarly == {}
  {
    RunKeeps(events, i);
    EmptyElements(After(events, i).lives);
  }
}
