/** The lockout window of web authentication as a refinement: the trimmed queue of recent failures decides every
    login exactly as counting in the full log of failures since the last success would. */
module Lockout {
  import opened Common
  import opened WebAuth
  import AuthProtocol

  datatype Attempt = Attempt(now: int, check: PasswordCheck)

  datatype Verdict = Locked | Rejected | Accepted

  predicate CountsAsFailure(check: PasswordCheck) { check in {Mismatch, InvalidHash} }

  // ---- The queue of one username and address ----------------------------------------------------------------------

  function QueueStep(policy: LockoutPolicy, queue: seq<int>, a: Attempt): (seq<int>, Verdict) {
    var trimmed := Trimmed(queue, a.now - policy.window);
    if |trimmed| >= policy.maxFailedAttempts then (trimmed, Locked)
    else if CountsAsFailure(a.check) then (trimmed + [a.now], Rejected)
    else if a.check == AnsweredFalse then (trimmed, Rejected)
    else ([], Accepted)
  }

  /** The queue step is what `Login` does to its own key and answers, an unknown user counting as a mismatch; every
      other key is left alone. */
  lemma LoginFollowsQueue(policy: LockoutPolicy, st: AuthState, username: string, addr: string, check: PasswordCheck,
                          remember: bool, now: int, draws: Draws)
    ensures var key := (username, addr);
      var (st', r) := LoggingIn(policy, st, username, addr, check, remember, now, draws);
      var (queue, verdict) := QueueStep(policy, FailuresOf(st, key),
                                            Attempt(now, if username in st.users then check else Mismatch));
      && FailuresOf(st', key) == queue
      && (verdict == Accepted <==> r.Ok?)
      && (verdict == Locked <==> r == Err(TooManyAttempts))
      && forall other :: other != key ==> FailuresOf(st', other) == FailuresOf(st, other)
  {
  }

  // ---- The reference: an unbounded log ----------------------------------------------------------------------------

  function CountSince(log: seq<int>, cutoff: int): nat {
    if log == [] then 0 else (if log[0] >= cutoff then 1 else 0) + CountSince(log[1..], cutoff)
  }

  /** Failures since the last success, never trimmed. */
  function LogStep(policy: LockoutPolicy, log: seq<int>, a: Attempt): (seq<int>, Verdict) {
    if CountSince(log, a.now - policy.window) >= policy.maxFailedAttempts then (log, Locked)
    else if CountsAsFailure(a.check) then (log + [a.now], Rejected)
    else if a.check == AnsweredFalse then (log, Rejected)
    else ([], Accepted)
  }

  function QueueRun(policy: LockoutPolicy, queue: seq<int>, attempts: seq<Attempt>): (seq<int>, seq<Verdict>)
    decreases |attempts|
  {
    if attempts == [] then (queue, [])
    else
      var (queue', verdict) := QueueStep(policy, queue, attempts[0]);
      var (final, verdicts) := QueueRun(policy, queue', attempts[1..]);
      (final, [verdict] + verdicts)
  }

  function LogRun(policy: LockoutPolicy, log: seq<int>, attempts: seq<Attempt>): (seq<int>, seq<Verdict>)
    decreases |attempts|
  {
    if attempts == [] then (log, [])
    else
      var (log', verdict) := LogStep(policy, log, attempts[0]);
      var (final, verdicts) := LogRun(policy, log', attempts[1..]);
      (final, [verdict] + verdicts)
  }

  // ---- Refinement -------------------------------------------------------------------------------------------------

  predicate Sorted(xs: seq<int>) { forall i, j :: 0 <= i < j < |xs| ==> xs[i] <= xs[j] }

  predicate NonDecreasing(attempts: seq<Attempt>, from: int) {
    forall i :: 0 <= i < |attempts| ==>
      from <= attempts[i].now && (i > 0 ==> attempts[i - 1].now <= attempts[i].now)
  }

  /** The queue is what is left of the log once entries older than some earlier window are dropped. */
  predicate Refines(policy: LockoutPolicy, queue: seq<int>, log: seq<int>, clock: int) {
    && Sorted(log)
    && (forall i :: 0 <= i < |log| ==> log[i] <= clock)
    && |queue| <= |log|
    && queue == log[|log| - |queue|..]
    && (forall i :: 0 <= i < |log| - |queue| ==> log[i] < clock - policy.window)
  }

  lemma {:induction false} TrimmedIsSuffix(xs: seq<int>, cutoff: int)
    requires Sorted(xs)
    ensures var r := Trimmed(xs, cutoff);
      && |r| <= |xs| && r == xs[|xs| - |r|..]
      && (forall i :: 0 <= i < |xs| - |r| ==> xs[i] < cutoff)
      && (forall i :: 0 <= i < |r| ==> r[i] >= cutoff)
      && |r| == CountSince(xs, cutoff)
  {
    if xs != [] && xs[0] < cutoff {
      TrimmedIsSuffix(xs[1..], cutoff);
    } else {
      CountAll(xs, cutoff);
    }
  }

  lemma {:induction false} CountAll(xs: seq<int>, cutoff: int)
    requires forall i :: 0 <= i < |xs| ==> xs[i] >= cutoff
    ensures CountSince(xs, cutoff) == |xs|
  {
    if xs != [] { CountAll(xs[1..], cutoff); }
  }

  lemma {:induction false} CountSkips(xs: seq<int>, n: nat, cutoff: int)
    requires n <= |xs| && forall i :: 0 <= i < n ==> xs[i] < cutoff
    ensures CountSince(xs, cutoff) == CountSince(xs[n..], cutoff)
  {
    if n > 0 {
      CountSkips(xs[1..], n - 1, cutoff);
      assert xs[1..][n - 1..] == xs[n..];
    }
  }

  /** At any later moment, trimming the queue counts exactly the log's failures within the window. */
  lemma TrimmedCountsLog(policy: LockoutPolicy, queue: seq<int>, log: seq<int>, clock: int, now: int)
    requires Refines(policy, queue, log, clock) && clock <= now
    ensures var trimmed := Trimmed(queue, now - policy.window);
      |trimmed| == CountSince(log, now - policy.window) && Refines(policy, trimmed, log, now)
  {
    var cutoff := now - policy.window;
    var n := |log| - |queue|;
    CountSkips(log, n, cutoff);
    TrimmedIsSuffix(queue, cutoff);
    TrimmedSuffixOfLog(queue, log, Trimmed(queue, cutoff), cutoff);
  }

  lemma TrimmedSuffixOfLog(queue: seq<int>, log: seq<int>, trimmed: seq<int>, cutoff: int)
    requires |trimmed| <= |queue| <= |log| && queue == log[|log| - |queue|..] && trimmed == queue[|queue| - |trimmed|..]
    requires forall i :: 0 <= i < |log| - |queue| ==> log[i] < cutoff
    requires forall i :: 0 <= i < |queue| - |trimmed| ==> queue[i] < cutoff
    ensures trimmed == log[|log| - |trimmed|..]
    ensures forall i :: 0 <= i < |log| - |trimmed| ==> log[i] < cutoff
  {
    var n := |log| - |queue|;
    assert forall i :: n <= i < |log| ==> log[i] == queue[i - n];
  }

  lemma AppendRefines(policy: LockoutPolicy, queue: seq<int>, log: seq<int>, now: int)
    requires Refines(policy, queue, log, now)
    ensures Refines(policy, queue + [now], log + [now], now)
  {
  }

  lemma StepRefines(policy: LockoutPolicy, queue: seq<int>, log: seq<int>, clock: int, a: Attempt)
    requires Refines(policy, queue, log, clock) && clock <= a.now
    ensures var (queue', v) := QueueStep(policy, queue, a);
      var (log', w) := LogStep(policy, log, a);
      v == w && Refines(policy, queue', log', a.now)
    ensures |queue| <= policy.maxFailedAttempts ==> |QueueStep(policy, queue, a).0| <= policy.maxFailedAttempts
  {
    var trimmed := Trimmed(queue, a.now - policy.window);
    TrimmedCountsLog(policy, queue, log, clock, a.now);
    TrimmedNoLonger(queue, a.now - policy.window);
    AppendRefines(policy, trimmed, log, a.now);
    NothingRefines(policy, a.now);
  }

  lemma NothingRefines(policy: LockoutPolicy, now: int)
    ensures Refines(policy, [], [], now)
  {
  }

  lemma {:induction false} TrimmedNoLonger(queue: seq<int>, cutoff: int)
    ensures |Trimmed(queue, cutoff)| <= |queue|
  {
    if queue != [] && queue[0] < cutoff { TrimmedNoLonger(queue[1..], cutoff); }
  }

  lemma {:induction false} RunRefines(policy: LockoutPolicy, queue: seq<int>, log: seq<int>, clock: int,
                                      attempts: seq<Attempt>)
    requires Refines(policy, queue, log, clock) && NonDecreasing(attempts, clock)
    requires |queue| <= policy.maxFailedAttempts
    ensures QueueRun(policy, queue, attempts).1 == LogRun(policy, log, attempts).1
    ensures |QueueRun(policy, queue, attempts).0| <= policy.maxFailedAttempts
    ensures exists end :: Refines(policy, QueueRun(policy, queue, attempts).0, LogRun(policy, log, attempts).0, end)
    decreases |attempts|
  {
    if attempts == [] {
      assert Refines(policy, queue, log, clock);
    } else {
      var a := attempts[0];
      StepRefines(policy, queue, log, clock, a);
      LaterAttempts(attempts, clock);
      RunRefines(policy, QueueStep(policy, queue, a).0, LogStep(policy, log, a).0, a.now, attempts[1..]);
    }
  }

  lemma {:induction false} LaterAttempts(attempts: seq<Attempt>, from: int)
    requires attempts != [] && NonDecreasing(attempts, from)
    ensures NonDecreasing(attempts[1..], attempts[0].now)
  {
    var rest := attempts[1..];
    forall i | 0 <= i < |rest|
      ensures attempts[0].now <= rest[i].now && (i > 0 ==> rest[i - 1].now <= rest[i].now)
    {
      FromFirst(attempts, from, i + 1);
      assert rest[i] == attempts[i + 1];
    }
  }

  lemma {:induction false} FromFirst(attempts: seq<Attempt>, from: int, i: nat)
    requires NonDecreasing(attempts, from) && i < |attempts|
    ensures attempts[0].now <= attempts[i].now
  {
    if i > 0 { FromFirst(attempts, from, i - 1); }
  }

  /** From a fresh start and with clocks that do not run backwards: every attempt gets the verdict that counting in the
      full log would give, and the queue stays sorted, never holds more than the allowed failures, and is the part of
      the log not yet dropped. */
  lemma LockoutRefinement(policy: LockoutPolicy, attempts: seq<Attempt>, clock: int)
    requires NonDecreasing(attempts, clock)
    ensures var (queue, verdicts) := QueueRun(policy, [], attempts);
      && verdicts == LogRun(policy, [], attempts).1
      && |queue| <= policy.maxFailedAttempts
      && Sorted(queue)
      && exists end :: Refines(policy, queue, LogRun(policy, [], attempts).0, end)
  {
    assert Refines(policy, [], [], clock);
    RunRefines(policy, [], [], clock, attempts);
  }

  /** A full queue locks until, and only until, its oldest entry leaves the window. */
  lemma LockoutLifts(policy: LockoutPolicy, queue: seq<int>, now: int)
    requires Sorted(queue) && |queue| == policy.maxFailedAttempts && queue != []
    ensures LockedOut(policy, queue, now) <==> now <= queue[0] + policy.window
  {
    TrimmedIsSuffix(queue, now - policy.window);
  }

  // ---- Whole runs, with any users and addresses interleaved -------------------------------------------------------

  function VerdictOf(r: Result<Issued, AuthError>): Verdict {
    match r
    case Ok(_) => Accepted
    case Err(TooManyAttempts) => Locked
    case Err(_) => Rejected
  }

  predicate LoginOn(op: AuthProtocol.Operation, key: Key) { op.LoginOp? && (op.username, op.addr) == key }

  /** The attempts a run makes on one username and address; one on an unknown user is a mismatch. */
  function AttemptsOn(policy: LockoutPolicy, st: AuthState, ops: seq<AuthProtocol.Operation>, key: Key): seq<Attempt>
    decreases |ops|
  {
    if ops == [] then []
    else
      var rest := AttemptsOn(policy, AuthProtocol.Apply(policy, st, ops[0]), ops[1..], key);
      if LoginOn(ops[0], key) then
        [Attempt(ops[0].now, if ops[0].username in st.users then ops[0].check else Mismatch)] + rest
      else rest
  }

  /** The verdicts those attempts get from the service. */
  function VerdictsOn(policy: LockoutPolicy, st: AuthState, ops: seq<AuthProtocol.Operation>, key: Key): seq<Verdict>
    decreases |ops|
  {
    if ops == [] then []
    else
      var rest := VerdictsOn(policy, AuthProtocol.Apply(policy, st, ops[0]), ops[1..], key);
      if LoginOn(ops[0], key) then
        var op := ops[0];
        [VerdictOf(LoggingIn(policy, st, op.username, op.addr, op.check, op.remember, op.now, op.draws).1)] + rest
      else rest
  }

  /** Nothing but a login on the key itself touches its failures. */
  lemma OthersKeepFailures(policy: LockoutPolicy, st: AuthState, op: AuthProtocol.Operation, key: Key)
    requires !LoginOn(op, key)
    ensures FailuresOf(AuthProtocol.Apply(policy, st, op), key) == FailuresOf(st, key)
  {
    if op.LoginOp? {
      LoginFollowsQueue(policy, st, op.username, op.addr, op.check, op.remember, op.now, op.draws);
    }
  }

  /** In every run each key's queue and verdicts are those of the queue machine on the key's own attempts. */
  lemma {:induction false} RunFollowsQueue(policy: LockoutPolicy, st: AuthState, ops: seq<AuthProtocol.Operation>,
                                           key: Key)
    ensures QueueRun(policy, FailuresOf(st, key), AttemptsOn(policy, st, ops, key))
         == (FailuresOf(AuthProtocol.Run(policy, st, ops), key), VerdictsOn(policy, st, ops, key))
    decreases |ops|
  {
    if ops != [] {
      var op := ops[0];
      RunFollowsQueue(policy, AuthProtocol.Apply(policy, st, op), ops[1..], key);
      if LoginOn(op, key) {
        LoginFollowsQueue(policy, st, op.username, op.addr, op.check, op.remember, op.now, op.draws);
        QueueCons(policy, FailuresOf(st, key),
                  Attempt(op.now, if op.username in st.users then op.check else Mismatch),
                  AttemptsOn(policy, AuthProtocol.Apply(policy, st, op), ops[1..], key));
      } else {
        OthersKeepFailures(policy, st, op, key);
      }
    }
  }

  lemma QueueCons(policy: LockoutPolicy, queue: seq<int>, a: Attempt, rest: seq<Attempt>)
    ensures var (queue', verdict) := QueueStep(policy, queue, a);
      QueueRun(policy, queue, [a] + rest)
      == (QueueRun(policy, queue', rest).0, [verdict] + QueueRun(policy, queue', rest).1)
  {
    assert ([a] + rest)[1..] == rest;
  }

  /** The lockout of the whole service: in every run from the start, with logins of all users and addresses, restores,
      logouts and revocations in any order, each username and address gets exactly the verdicts that counting its own
      failures since its last success within the window would give, as long as its own clock readings do not run
      backwards. */
  lemma LockoutOverRuns(policy: LockoutPolicy, ops: seq<AuthProtocol.Operation>, key: Key, clock: int)
    requires NonDecreasing(AttemptsOn(policy, EMPTY, ops, key), clock)
    ensures VerdictsOn(policy, EMPTY, ops, key) == LogRun(policy, [], AttemptsOn(policy, EMPTY, ops, key)).1
    ensures var failures := FailuresOf(AuthProtocol.Run(policy, EMPTY, ops), key);
      |failures| <= policy.maxFailedAttempts && Sorted(failures)
  {
    RunFollowsQueue(policy, EMPTY, ops, key);
    LockoutRefinement(policy, AttemptsOn(policy, EMPTY, ops, key), clock);
  }
}
