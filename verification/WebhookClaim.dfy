/**
 Concurrent deliveries of one webhook event (paypal_checkout/webhooks/views.py).

 A delivery stores the event, claims it with a conditional UPDATE inside the handlers'
 transaction, and commits or rolls back; a delivery that failed then clears processed_at
 outside that transaction.  The UPDATE takes the row lock, so while one delivery holds it
 every other write to the row waits, and a waiting claim is evaluated again afterwards.
 */
module WebhookClaim {
  import opened Options

  /** Where one delivery stands. */
  datatype Phase =
    | Fresh                 // not stored yet
    | Stored                // read as unprocessed, about to claim
    | Claimed               // holds the row lock, handlers running
    | Failing               // rolled back, about to record the error
    | Answered(a: Answer)
    | Lost                  // the worker died; PayPal gets no answer

  /** The HTTP answers: 200 processed, 200 duplicate, 500 retry. */
  datatype Answer = Processed | Duplicate | Retry {
    predicate Accepted() { Processed? || Duplicate? }
  }

  /** The event row as committed (None before it is created), who holds its lock, and every delivery. */
  datatype State = State(processed: Option<bool>, lock: Option<nat>, phases: map<nat, Phase>)

  datatype Step =
    | Store(d: nat)
    | Claim(d: nat)
    | ClaimError(d: nat)
    | Commit(d: nat)
    | Rollback(d: nat)
    | MarkFailed(d: nat)
    | Die(d: nat)

  function PhaseOf(s: State, d: nat): Phase {
    if d in s.phases then s.phases[d] else Fresh
  }

  predicate Enabled(s: State, step: Step) {
    match step
    case Store(d) => PhaseOf(s, d).Fresh?
    case Claim(d) => PhaseOf(s, d).Stored? && s.lock.None? && s.processed.Some?
    case ClaimError(d) => PhaseOf(s, d).Stored?
    case Commit(d) => PhaseOf(s, d).Claimed? && s.lock == Some(d)
    case Rollback(d) => PhaseOf(s, d).Claimed? && s.lock == Some(d)
    case MarkFailed(d) => PhaseOf(s, d).Failing? && s.lock.None? && s.processed.Some?
    case Die(d) => !PhaseOf(s, d).Answered?
  }

  function Move(s: State, d: nat, phase: Phase): State {
    s.(phases := s.phases[d := phase])
  }

  function Next(s: State, step: Step): State
    requires Enabled(s, step)
  {
    match step
    case Store(d) =>
      if s.processed == Some(true) then Move(s, d, Answered(Duplicate))
      else Move(s.(processed := Some(false)), d, Stored)
    case Claim(d) =>
      if s.processed.value then Move(s, d, Answered(Duplicate)) else Move(s.(lock := Some(d)), d, Claimed)
    case ClaimError(d) => Move(s, d, Failing)
    case Commit(d) => Move(State(Some(true), None, s.phases), d, Answered(Processed))
    case Rollback(d) => Move(s.(lock := None), d, Failing)
    case MarkFailed(d) => Move(s.(processed := Some(false)), d, Answered(Retry))
    case Die(d) => Move(s.(lock := if s.lock == Some(d) then None else s.lock), d, Lost)
  }

  const INITIAL := State(None, None, map[])

  predicate ValidRun(s: State, steps: seq<Step>)
    decreases |steps|
  {
    steps == [] || (Enabled(s, steps[0]) && ValidRun(Next(s, steps[0]), steps[1..]))
  }

  function Run(s: State, steps: seq<Step>): State
    requires ValidRun(s, steps)
    decreases |steps|
  {
    if steps == [] then s else Run(Next(s, steps[0]), steps[1..])
  }

  /** Handler runs whose effects were committed. */
  function Commits(steps: seq<Step>): nat {
    if steps == [] then 0 else (if steps[0].Commit? then 1 else 0) + Commits(steps[1..])
  }

  /** Failure marks that cleared a processed_at some delivery had committed. */
  function Clears(s: State, steps: seq<Step>): nat
    requires ValidRun(s, steps)
    decreases |steps|
  {
    if steps == [] then 0
    else (if steps[0].MarkFailed? && s.processed == Some(true) then 1 else 0) + Clears(Next(s, steps[0]), steps[1..])
  }

  function Flag(s: State): nat {
    if s.processed == Some(true) then 1 else 0
  }

  /** The lock is held exactly by the delivery whose handlers run, on a row that is unprocessed. */
  ghost predicate Inv(s: State) {
    && (s.lock.Some? ==> s.processed == Some(false) && PhaseOf(s, s.lock.value).Claimed?)
    && (forall d :: d in s.phases && s.phases[d].Claimed? ==> s.lock == Some(d))
    && (forall d :: d in s.phases && (s.phases[d].Stored? || s.phases[d].Failing?) ==> s.processed.Some?)
  }

  lemma StepKeeps(s: State, step: Step)
    requires Inv(s) && Enabled(s, step)
    ensures Inv(Next(s, step))
    ensures Flag(Next(s, step)) + (if step.MarkFailed? && s.processed == Some(true) then 1 else 0)
         == Flag(s) + if step.Commit? then 1 else 0
  {
  }

  lemma {:induction false} Accounting(s: State, steps: seq<Step>)
    requires Inv(s) && ValidRun(s, steps)
    ensures Inv(Run(s, steps))
    ensures Flag(Run(s, steps)) + Clears(s, steps) == Flag(s) + Commits(steps)
    decreases |steps|
  {
    if steps != [] {
      StepKeeps(s, steps[0]);
      Accounting(Next(s, steps[0]), steps[1..]);
    }
  }

  /**
   For any number of deliveries failing in any way: the committed handler runs are one if the
   event is processed now, plus one for every failure mark that cleared a processed event.
   */
  lemma CommittedRunsCounted(steps: seq<Step>)
    requires ValidRun(INITIAL, steps)
    ensures Commits(steps) == Flag(Run(INITIAL, steps)) + Clears(INITIAL, steps)
  {
    Accounting(INITIAL, steps);
  }

  /** When no failure mark lands on a rival's commit, the handlers' effects are committed at most once. */
  lemma AtMostOneCommit(steps: seq<Step>)
    requires ValidRun(INITIAL, steps) && Clears(INITIAL, steps) == 0
    ensures Commits(steps) <= 1
  {
    CommittedRunsCounted(steps);
  }

  // ---------- who fails ----------

  /** A claim on a row that a rival processed writes nothing and answers duplicate; on an open row it takes the lock. */
  lemma ClaimDecides(s: State, d: nat)
    requires Enabled(s, Claim(d))
    ensures Next(s, Claim(d)) ==
      if s.processed == Some(true) then State(s.processed, s.lock, s.phases[d := Answered(Duplicate)])
      else State(Some(false), Some(d), s.phases[d := Claimed])
  {}

  /** The delivery's own handlers raised, or its claim did. */
  predicate Fails(step: Step, d: nat) {
    step == Rollback(d) || step == ClaimError(d)
  }

  /** A delivery that is failing, or was answered 500, failed itself at some step. */
  lemma {:induction false} FailedItself(s: State, steps: seq<Step>, d: nat)
    requires ValidRun(s, steps)
    requires PhaseOf(Run(s, steps), d).Failing? || PhaseOf(Run(s, steps), d) == Answered(Retry)
    requires !PhaseOf(s, d).Failing? && PhaseOf(s, d) != Answered(Retry)
    ensures exists i :: 0 <= i < |steps| && Fails(steps[i], d)
    decreases |steps|
  {
    if !Fails(steps[0], d) {
      var next := Next(s, steps[0]);
      FailedItself(next, steps[1..], d);
      var i :| 0 <= i < |steps[1..]| && Fails(steps[1..][i], d);
      assert steps[i + 1] == steps[1..][i];
    }
  }

  /** No delivery is made to fail, or told to come again, by a rival. */
  lemma OnlyOwnFailures(steps: seq<Step>, d: nat)
    requires ValidRun(INITIAL, steps)
    requires PhaseOf(Run(INITIAL, steps), d).Failing? || PhaseOf(Run(INITIAL, steps), d) == Answered(Retry)
    ensures exists i :: 0 <= i < |steps| && Fails(steps[i], d)
  {
    FailedItself(INITIAL, steps, d);
  }

  function FailingOnes(s: State): set<nat> {
    set d | d in s.phases && s.phases[d].Failing?
  }

  function Failures(steps: seq<Step>): nat {
    if steps == [] then 0
    else (if steps[0].Rollback? || steps[0].ClaimError? then 1 else 0) + Failures(steps[1..])
  }

  lemma FailingMoves(s: State, step: Step)
    requires Enabled(s, step)
    ensures FailingOnes(Next(s, step)) <= FailingOnes(s) + if step.Rollback? || step.ClaimError? then {step.d} else {}
    ensures step.MarkFailed? ==> step.d in FailingOnes(s) && step.d !in FailingOnes(Next(s, step))
  {}

  lemma {:induction false} SubsetSize(a: set<nat>, b: set<nat>)
    requires a <= b
    ensures |a| <= |b|
    decreases |a|
  {
    if x :| x in a {
      SubsetSize(a - {x}, b - {x});
    }
  }

  lemma FailingStep(s: State, step: Step)
    requires Enabled(s, step)
    ensures |FailingOnes(Next(s, step))| + (if step.MarkFailed? then 1 else 0)
         <= |FailingOnes(s)| + if step.Rollback? || step.ClaimError? then 1 else 0
  {
    hide Next, Enabled;
    FailingMoves(s, step);
    var before, after := FailingOnes(s), FailingOnes(Next(s, step));
    hide FailingOnes;
    if step.MarkFailed? {
      SubsetSize(after, before - {step.d});
    } else {
      SubsetSize(after, before + if step.Rollback? || step.ClaimError? then {step.d} else {});
    }
  }

  lemma {:induction false} ClearsWithin(s: State, steps: seq<Step>)
    requires ValidRun(s, steps)
    ensures Clears(s, steps) <= |FailingOnes(s)| + Failures(steps)
    decreases |steps|
  {
    if steps != [] {
      FailingStep(s, steps[0]);
      ClearsWithin(Next(s, steps[0]), steps[1..]);
    }
  }

  /** Every commit beyond the first is paid for by a failed delivery; without failures there is at most one. */
  lemma CommitsWithinFailures(steps: seq<Step>)
    requires ValidRun(INITIAL, steps)
    ensures Clears(INITIAL, steps) <= Failures(steps)
    ensures Commits(steps) <= 1 + Failures(steps)
  {
    ClearsWithin(INITIAL, steps);
    CommittedRunsCounted(steps);
  }

  /** Once answered, a delivery takes no more steps. */
  lemma {:induction false} AnsweredStays(s: State, steps: seq<Step>, d: nat)
    requires ValidRun(s, steps) && PhaseOf(s, d).Answered?
    ensures PhaseOf(Run(s, steps), d) == PhaseOf(s, d)
    decreases |steps|
  {
    if steps != [] {
      AnsweredStays(Next(s, steps[0]), steps[1..], d);
    }
  }

  lemma {:induction false} AnsweredBy(s: State, steps: seq<Step>, d: nat)
    requires ValidRun(s, steps) && !PhaseOf(s, d).Answered?
    ensures PhaseOf(Run(s, steps), d) == Answered(Processed) <==> Commit(d) in steps
    ensures PhaseOf(Run(s, steps), d) == Answered(Retry) <==> MarkFailed(d) in steps
    decreases |steps|
  {
    if steps != [] {
      var next := Next(s, steps[0]);
      assert steps == [steps[0]] + steps[1..];
      if PhaseOf(next, d).Answered? {
        AnsweredStays(next, steps[1..], d);
        NoStepAfterAnswer(next, steps[1..], d);
      } else {
        AnsweredBy(next, steps[1..], d);
      }
    }
  }

  lemma {:induction false} NoStepAfterAnswer(s: State, steps: seq<Step>, d: nat)
    requires ValidRun(s, steps) && PhaseOf(s, d).Answered?
    ensures Commit(d) !in steps && MarkFailed(d) !in steps
    decreases |steps|
  {
    if steps != [] {
      assert steps == [steps[0]] + steps[1..];
      NoStepAfterAnswer(Next(s, steps[0]), steps[1..], d);
    }
  }

  /** A delivery is told "processed" exactly when its own handlers committed, and 500 exactly when it marked its
      failure. */
  lemma AnswersTellTheTruth(steps: seq<Step>, d: nat)
    requires ValidRun(INITIAL, steps)
    ensures PhaseOf(Run(INITIAL, steps), d) == Answered(Processed) <==> Commit(d) in steps
    ensures PhaseOf(Run(INITIAL, steps), d) == Answered(Retry) <==> MarkFailed(d) in steps
  {
    AnsweredBy(INITIAL, steps, d);
  }

  // ---------- answers ----------

  ghost predicate AcceptedSomewhere(s: State) {
    exists d :: d in s.phases && s.phases[d].Answered? && s.phases[d].a.Accepted()
  }

  /** A delivery is told 200 only when the event is processed at that moment, or by its own commit. */
  lemma AnswerStep(s: State, step: Step, d: nat)
    requires Inv(s) && Enabled(s, step)
    requires PhaseOf(Next(s, step), d).Answered? && PhaseOf(Next(s, step), d).a.Accepted()
    ensures PhaseOf(s, d) == PhaseOf(Next(s, step), d) || Flag(s) == 1 || step == Commit(d)
  {
  }

  lemma {:induction false} AcceptedAfterCommit(s: State, steps: seq<Step>)
    requires Inv(s) && ValidRun(s, steps) && !AcceptedSomewhere(s) && Flag(s) == 0
    requires AcceptedSomewhere(Run(s, steps))
    ensures Commits(steps) >= 1
    decreases |steps|
  {
    if steps != [] && !steps[0].Commit? {
      var next := Next(s, steps[0]);
      StepKeeps(s, steps[0]);
      if AcceptedSomewhere(next) {
        var d :| d in next.phases && next.phases[d].Answered? && next.phases[d].a.Accepted();
        AnswerStep(s, steps[0], d);
        assert false;
      }
      AcceptedAfterCommit(next, steps[1..]);
    }
  }

  /** Every 200, processed or duplicate, comes after a committed run: PayPal is never told "done"
      about work never done. */
  lemma NeverAcceptedWithoutCommit(steps: seq<Step>, d: nat)
    requires ValidRun(INITIAL, steps)
    requires PhaseOf(Run(INITIAL, steps), d).Answered? && PhaseOf(Run(INITIAL, steps), d).a.Accepted()
    ensures Commits(steps) >= 1
  {
    assert AcceptedSomewhere(Run(INITIAL, steps));
    AcceptedAfterCommit(INITIAL, steps);
  }

  /** Handlers of two deliveries never run at the same time. */
  lemma HandlersExclusive(steps: seq<Step>, d: nat, e: nat)
    requires ValidRun(INITIAL, steps)
    requires PhaseOf(Run(INITIAL, steps), d).Claimed? && PhaseOf(Run(INITIAL, steps), e).Claimed?
    ensures d == e
  {
    Accounting(INITIAL, steps);
  }

  lemma Prepend(s: State, step: Step, rest: seq<Step>)
    requires Enabled(s, step) && ValidRun(Next(s, step), rest)
    ensures ValidRun(s, [step] + rest) && Run(s, [step] + rest) == Run(Next(s, step), rest)
    ensures Commits([step] + rest) == (if step.Commit? then 1 else 0) + Commits(rest)
  {
    assert ([step] + rest)[1..] == rest;
  }

  /** A new delivery of an unprocessed event stores, claims and commits. */
  lemma CommitAgain(s: State, d: nat) returns (steps: seq<Step>)
    requires s.lock.None? && s.processed != Some(true) && PhaseOf(s, d).Fresh?
    ensures ValidRun(s, steps) && Commits(steps) == 1
  {
    var s1 := Next(s, Store(d));
    var s2 := Next(s1, Claim(d));
    Prepend(s2, Commit(d), []);
    Prepend(s1, Claim(d), [Commit(d)] + []);
    Prepend(s, Store(d), [Claim(d)] + ([Commit(d)] + []));
    steps := [Store(d)] + ([Claim(d)] + ([Commit(d)] + []));
  }

  /** Exactly-once fails without that proviso: a mark written after a rival's commit lets a second run commit. */
  lemma MarkCanClearCommit()
    ensures exists steps :: ValidRun(INITIAL, steps) && Commits(steps) == 2
  {
    var s1 := Next(INITIAL, Store(0));
    var s2 := Next(s1, Store(1));
    var s3 := Next(s2, ClaimError(0));
    var s4 := Next(s3, Claim(1));
    var s5 := Next(s4, Commit(1));
    var s6 := Next(s5, MarkFailed(0));
    var steps := CommitAgain(s6, 2);
    Prepend(s5, MarkFailed(0), steps);
    steps := [MarkFailed(0)] + steps;
    Prepend(s4, Commit(1), steps);
    steps := [Commit(1)] + steps;
    Prepend(s3, Claim(1), steps);
    steps := [Claim(1)] + steps;
    Prepend(s2, ClaimError(0), steps);
    steps := [ClaimError(0)] + steps;
    Prepend(s1, Store(1), steps);
    steps := [Store(1)] + steps;
    Prepend(INITIAL, Store(0), steps);
  }

  // ---------- one undisturbed delivery ----------

  /** The steps one delivery takes when no rival interferes. */
  function PostSteps(s: State, d: nat, handlersSucceed: bool): seq<Step> {
    if s.processed == Some(true) then [Store(d)]
    else if handlersSucceed then [Store(d), Claim(d), Commit(d)]
    else [Store(d), Claim(d), Rollback(d), MarkFailed(d)]
  }

  lemma PostStepsRun(s: State, d: nat, handlersSucceed: bool)
    requires s.lock.None? && PhaseOf(s, d).Fresh?
    ensures ValidRun(s, PostSteps(s, d, handlersSucceed))
    ensures var answer :=
        if s.processed == Some(true) then Duplicate else if handlersSucceed then Processed else Retry;
      Run(s, PostSteps(s, d, handlersSucceed))
        == State(Some(answer.Accepted()), None, s.phases[d := Answered(answer)])
  {
    var s1 := Next(s, Store(d));
    var steps := [];
    if s.processed != Some(true) {
      var s2 := Next(s1, Claim(d));
      if handlersSucceed {
        Prepend(s2, Commit(d), []);
        steps := [Commit(d)] + [];
      } else {
        var s3 := Next(s2, Rollback(d));
        Prepend(s3, MarkFailed(d), []);
        Prepend(s2, Rollback(d), [MarkFailed(d)] + []);
        steps := [Rollback(d)] + ([MarkFailed(d)] + []);
      }
      Prepend(s1, Claim(d), steps);
      steps := [Claim(d)] + steps;
    }
    Prepend(s, Store(d), steps);
    assert PostSteps(s, d, handlersSucceed) == [Store(d)] + steps;
  }

  class EventRow {
    var processed: Option<bool>
    var phases: map<nat, Phase>

    constructor ()
      ensures View() == INITIAL
    {
      processed := None;
      phases := map[];
    }

    function View(): State
      reads this
    {
      State(processed, None, phases)
    }

    /** ProcessWebhookView.post from _store onward, for a delivery no rival interferes with. */
    method Post(d: nat, handlersSucceed: bool) returns (answer: Answer)
      requires PhaseOf(View(), d).Fresh?
      modifies this
      ensures ValidRun(old(View()), PostSteps(old(View()), d, handlersSucceed))
      ensures View() == Run(old(View()), PostSteps(old(View()), d, handlersSucceed))
      ensures PhaseOf(View(), d) == Answered(answer)
    {
      PostStepsRun(View(), d, handlersSucceed);
      if processed.None? {
        processed := Some(false);
      }
      if processed.value {
        answer := Duplicate;
      } else {
        var savepoint := processed;
        processed := Some(true);
        if handlersSucceed {
          answer := Processed;
        } else {
          processed := savepoint;
          processed := Some(false);
          answer := Retry;
        }
      }
      phases := phases[d := Answered(answer)];
    }
  }
}
