/**
 * The lock screen's one transition function, and what holds of it over every
 * sequence of actions.
 */
module LockScreen {
  import opened Prelude

  datatype FormMode = UnlockMode | RecoveryMode | CreateMode

  datatype Screen =
    | Form(mode: FormMode)
    | AutoOpening
    | ResetPassphrase
    | ShowRecovery(key: int)
    | Enroll(back: FormMode, afterReset: bool)

  datatype Kind = FormKind | AutoOpeningKind | ResetKind | ShowKind | EnrollKind

  /** The messages the transition tells apart. */
  datatype Message = LockedMessage | EnrollmentRequired(text: int) | Rotated | Enrolled | LockedBeforeSave | Other(text: int)

  datatype State = State(screen: Screen, error: Option<Message>)

  datatype Action =
    | ProfilesLoaded(none: bool)
    | AutoOpenStarted
    | AutoOpenEnded
    | SetMode(mode: FormMode, clearError: bool)
    | ClearError
    | RecoveryUnlocked
    | Created(recoveryKey: int)
    | RecoveryStored
    | ResetSkipped
    | PassphraseChanged
    | PolicyEnrolled
    | EnrollBack
    | Failed(on: Kind, message: Message)
    | BackendLocked

  const UNLOCK := Form(UnlockMode)

  function KindOf(s: Screen): Kind {
    match s
    case Form(_) => FormKind
    case AutoOpening => AutoOpeningKind
    case ResetPassphrase => ResetKind
    case ShowRecovery(_) => ShowKind
    case Enroll(_, _) => EnrollKind
  }

  /** Where the user goes on once the backend asks for a policy to be enrolled. */
  function EnrollFrom(s: Screen): Screen {
    match s
    case Form(mode) => Enroll(mode, false)
    case AutoOpening => Enroll(UnlockMode, false)
    case ResetPassphrase => Enroll(RecoveryMode, true)
    case _ => s
  }

  function Next(s: State, a: Action): State {
    var screen := s.screen;
    match a
    case ProfilesLoaded(none) => if screen.Form? && none then s.(screen := Form(CreateMode)) else s
    case AutoOpenStarted => if screen.Form? then s.(screen := AutoOpening) else s
    case AutoOpenEnded => if screen.AutoOpening? then s.(screen := UNLOCK) else s
    case SetMode(mode, clear) => if screen.Form? then State(Form(mode), if clear then None else s.error) else s
    case ClearError => s.(error := None)
    case RecoveryUnlocked => if screen.ShowRecovery? then s else State(ResetPassphrase, None)
    case Created(key) => State(ShowRecovery(key), None)
    case RecoveryStored => if screen.ShowRecovery? then State(UNLOCK, None) else s
    case ResetSkipped => if screen.ResetPassphrase? then State(UNLOCK, None) else s
    case PassphraseChanged => if screen.ResetPassphrase? || screen.Form? then State(UNLOCK, Some(Rotated)) else s
    case PolicyEnrolled => if screen.Enroll? then State(UNLOCK, Some(Enrolled)) else s
    case EnrollBack =>
      if !screen.Enroll? then s
      else State(if screen.afterReset then ResetPassphrase else Form(screen.back), None)
    case Failed(on, message) =>
      if KindOf(screen) != on then s
      else if screen.ResetPassphrase? && message.LockedMessage? then State(UNLOCK, Some(LockedBeforeSave))
      else State(if message.EnrollmentRequired? then EnrollFrom(screen) else screen, Some(message))
    case BackendLocked =>
      match screen
      case ResetPassphrase => State(UNLOCK, None)
      case AutoOpening => State(UNLOCK, None)
      case Enroll(back, _) => s.(screen := Enroll(back, false))
      case _ => s
  }

  // ------------------------------------------------ where actions lead

  /** On a form: which form the user chose or must use, and the attempts that leave it. */
  lemma FormLeads(s: State, a: Action)
    requires s.screen.Form?
    ensures a.ProfilesLoaded? ==> Next(s, a) == if a.none then State(Form(CreateMode), s.error) else s
    ensures a.SetMode? ==> Next(s, a) == State(Form(a.mode), if a.clearError then None else s.error)
    ensures a.AutoOpenStarted? ==> Next(s, a) == State(AutoOpening, s.error)
    ensures a.PassphraseChanged? ==> Next(s, a) == State(Form(UnlockMode), Some(Rotated))
    ensures a.RecoveryUnlocked? ==> Next(s, a) == State(ResetPassphrase, None)
    ensures a.Failed? && a.on == FormKind ==>
      Next(s, a) == State(if a.message.EnrollmentRequired? then Enroll(s.screen.mode, false) else s.screen, Some(a.message))
    ensures a.AutoOpenEnded? || a.RecoveryStored? || a.ResetSkipped? || a.PolicyEnrolled? || a.EnrollBack? || a.BackendLocked? ==> Next(s, a) == s
  {
  }

  /** While a profile opens by itself, and while a new passphrase is chosen. */
  lemma StepLeads(s: State, a: Action)
    requires s.screen.AutoOpening? || s.screen.ResetPassphrase?
    ensures a.AutoOpenEnded? ==> Next(s, a) == if s.screen.AutoOpening? then State(Form(UnlockMode), s.error) else s
    ensures a.ResetSkipped? ==> Next(s, a) == if s.screen.ResetPassphrase? then State(Form(UnlockMode), None) else s
    ensures a.PassphraseChanged? ==> Next(s, a) == if s.screen.ResetPassphrase? then State(Form(UnlockMode), Some(Rotated)) else s
    ensures a.BackendLocked? ==> Next(s, a) == State(Form(UnlockMode), None)
    ensures a.Failed? && a.on == ResetKind && s.screen.ResetPassphrase? ==>
      Next(s, a) == if a.message == LockedMessage then State(Form(UnlockMode), Some(LockedBeforeSave))
                    else State(if a.message.EnrollmentRequired? then Enroll(RecoveryMode, true) else ResetPassphrase, Some(a.message))
    ensures a.Failed? && a.on == AutoOpeningKind && s.screen.AutoOpening? ==>
      Next(s, a) == State(if a.message.EnrollmentRequired? then Enroll(UnlockMode, false) else AutoOpening, Some(a.message))
    ensures a.ProfilesLoaded? || a.SetMode? || a.AutoOpenStarted? || a.PolicyEnrolled? || a.EnrollBack? || a.RecoveryStored? ==> Next(s, a) == s
  {
  }

  /** While a policy is enrolled, and while a recovery key is on display. */
  lemma EnrollLeads(s: State, a: Action)
    requires s.screen.Enroll? || s.screen.ShowRecovery?
    ensures a.PolicyEnrolled? ==> Next(s, a) == if s.screen.Enroll? then State(Form(UnlockMode), Some(Enrolled)) else s
    ensures a.RecoveryStored? ==> Next(s, a) == if s.screen.ShowRecovery? then State(Form(UnlockMode), None) else s
    ensures a.EnrollBack? && s.screen.Enroll? ==>
      Next(s, a) == State(if s.screen.afterReset then ResetPassphrase else Form(s.screen.back), None)
    ensures a.BackendLocked? ==> Next(s, a) == if s.screen.Enroll? then State(Enroll(s.screen.back, false), s.error) else s
    ensures a.Failed? && a.on == EnrollKind && s.screen.Enroll? ==> Next(s, a) == State(s.screen, Some(a.message))
    ensures a.RecoveryUnlocked? ==> Next(s, a) == if s.screen.Enroll? then State(ResetPassphrase, None) else s
    ensures a.ProfilesLoaded? || a.SetMode? || a.AutoOpenStarted? || a.AutoOpenEnded? || a.PassphraseChanged? || a.ResetSkipped? ==> Next(s, a) == s
  {
  }

  /** An error is shown only by the failure of the step on screen, a changed passphrase or an enrolled policy. */
  lemma ErrorCameFrom(s: State, a: Action)
    ensures Next(s, a).error.Some? && Next(s, a).error != s.error ==>
      || (a.Failed? && a.on == KindOf(s.screen) && Next(s, a).error.value in {a.message, LockedBeforeSave})
      || (a.PassphraseChanged? && Next(s, a).error == Some(Rotated))
      || (a.PolicyEnrolled? && Next(s, a).error == Some(Enrolled))
    ensures a.Failed? && a.on != KindOf(s.screen) ==> Next(s, a) == s
    ensures a.ClearError? ==> Next(s, a) == State(s.screen, None)
  {
  }

  /** Each screen is reached only by the action that asks for it. */
  lemma ScreenCameFrom(s: State, a: Action)
    requires Next(s, a).screen != s.screen
    ensures var now := Next(s, a).screen;
      && (now.AutoOpening? ==> a.AutoOpenStarted? && s.screen.Form?)
      && (now.ShowRecovery? ==> a == Created(now.key))
      && (now.ResetPassphrase? ==> a.RecoveryUnlocked? || (a.EnrollBack? && s.screen.Enroll? && s.screen.afterReset))
      && (now.Enroll? && !s.screen.Enroll? ==> a.Failed? && a.on == KindOf(s.screen) && a.message.EnrollmentRequired?)
      && (now == Form(CreateMode) ==>
            a == ProfilesLoaded(true) || (a.SetMode? && a.mode == CreateMode) || (a.EnrollBack? && s.screen == Enroll(CreateMode, false)))
  {
  }

  /** The state after a sequence of actions. */
  function After(s: State, actions: seq<Action>): State {
    if actions == [] then s else Next(After(s, actions[..|actions| - 1]), actions[|actions| - 1])
  }

  const START := State(UNLOCK, None)

  // --------------------------------------------------------- recovery key

  /** A recovery key on display stays until it is stored or a newer one is created. */
  lemma {:induction false} RecoveryKeyStays(s: State, actions: seq<Action>)
    requires s.screen.ShowRecovery?
    requires forall i :: 0 <= i < |actions| ==> !actions[i].RecoveryStored? && !actions[i].Created?
    ensures After(s, actions).screen == s.screen
  {
    if actions != [] {
      RecoveryKeyStays(s, actions[..|actions| - 1]);
    }
  }

  /** A created key is shown at once, on whatever screen, and only storing it or a newer key takes it away. */
  lemma {:induction false} CreatedKeyIsShown(s: State, before: seq<Action>, key: int, after: seq<Action>)
    requires forall i :: 0 <= i < |after| ==> !after[i].RecoveryStored? && !after[i].Created?
    ensures After(Next(After(s, before), Created(key)), after).screen == ShowRecovery(key)
  {
    RecoveryKeyStays(Next(After(s, before), Created(key)), after);
  }

  // ------------------------------------------------------------- locking

  /** A screen that works only while the backend is unlocked. */
  predicate NeedsUnlocked(s: Screen) {
    s.ResetPassphrase? || s.AutoOpening? || (s.Enroll? && s.afterReset)
  }

  /** Enrollment after a reset is always enrollment with the recovery key. */
  predicate Consistent(s: Screen) {
    s.Enroll? && s.afterReset ==> s.back == RecoveryMode
  }

  lemma {:induction false} RunsConsistent(actions: seq<Action>)
    ensures Consistent(After(START, actions).screen)
  {
    if actions != [] {
      RunsConsistent(actions[..|actions| - 1]);
    }
  }

  /** What takes a lock screen to one that needs an unlocked backend. */
  predicate Unlocks(a: Action) {
    a.RecoveryUnlocked? || a.AutoOpenStarted?
  }

  /** After a lock no screen needs an unlocked backend, until an action that follows an unlock says so. */
  lemma {:induction false} LockedStaysLocked(s: State, actions: seq<Action>)
    requires forall i :: 0 <= i < |actions| ==> !Unlocks(actions[i])
    ensures !NeedsUnlocked(After(Next(s, BackendLocked), actions).screen)
  {
    if actions != [] {
      LockedStaysLocked(s, actions[..|actions| - 1]);
    }
  }

  // ---------------------------------------------------------- enrollment

  /** Every state of a stretch of actions shows the enrollment screen. */
  ghost predicate Enrolling(s: State, actions: seq<Action>) {
    forall i :: 0 <= i <= |actions| ==> After(s, actions[..i]).screen.Enroll?
  }

  predicate LockIn(actions: seq<Action>) {
    exists i :: 0 <= i < |actions| && actions[i].BackendLocked?
  }

  lemma {:induction false} EnrollmentKept(s: State, actions: seq<Action>)
    requires s.screen.Enroll? && Enrolling(s, actions)
    ensures After(s, actions).screen == Enroll(s.screen.back, s.screen.afterReset && !LockIn(actions))
  {
    if actions != [] {
      var n := |actions| - 1;
      var earlier := actions[..n];
      forall i | 0 <= i <= n ensures After(s, earlier[..i]).screen.Enroll? {
        assert earlier[..i] == actions[..i];
      }
      EnrollmentKept(s, earlier);
      assert actions[..n + 1] == actions;
      assert LockIn(actions) <==> LockIn(earlier) || actions[n].BackendLocked? by {
        if LockIn(actions) {
          var i :| 0 <= i < |actions| && actions[i].BackendLocked?;
          assert i < n ==> earlier[i].BackendLocked?;
        }
        if LockIn(earlier) {
          var i :| 0 <= i < |earlier| && earlier[i].BackendLocked?;
          assert actions[i].BackendLocked?;
        }
      }
    }
  }

  /**
   * Enrolling from a form or the new-passphrase step and going back shows the
   * same screen again, unless it was the new-passphrase step and a lock came
   * between: then the recovery form.
   */
  lemma BackReturns(s: State, on: Kind, message: Message, between: seq<Action>)
    requires (s.screen.Form? || s.screen.ResetPassphrase?) && on == KindOf(s.screen) && message.EnrollmentRequired?
    requires Enrolling(Next(s, Failed(on, message)), between)
    ensures var back := Next(After(Next(s, Failed(on, message)), between), EnrollBack).screen;
      && (back == s.screen <==> s.screen.Form? || !LockIn(between))
      && (back != s.screen ==> back == Form(RecoveryMode))
  {
    assert After(Next(s, Failed(on, message)), between[..0]).screen.Enroll?;
    EnrollmentKept(Next(s, Failed(on, message)), between);
  }
}
