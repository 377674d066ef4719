/** `EC2Service`: a per-region client cache, the three-attempt start protocol
    (describe, decide, start, with linear backoff between attempts), and the
    batch that reassembles one result per requested instance. */
module Ec2 {
  import opened Types

  const MAX_RETRIES := 3
  const RETRY_DELAY_MS := 5000

  const UNKNOWN := "unknown"
  const MAX_RETRIES_REACHED := "Max retries reached"

  // ---------------------------------------------------------------------------
  // The EC2 API, as scripted replies
  // ---------------------------------------------------------------------------

  /** The SDK's `InstanceStateName`. */
  datatype InstanceStateName = Pending | Running | ShuttingDown | Terminated | Stopping | Stopped

  function StateText(n: InstanceStateName): string
  {
    match n
    case Pending => "pending"
    case Running => "running"
    case ShuttingDown => "shutting-down"
    case Terminated => "terminated"
    case Stopping => "stopping"
    case Stopped => "stopped"
  }

  /** What `DescribeInstances` gives: an instance with an optional state name,
      no instance, or a thrown value. */
  datatype DescribeReply = Found(state: Option<InstanceStateName>) | NotFound | DescribeThrew(thrown: Thrown)

  /** What `StartInstances` gives: an optional current state name of the
      starting instance, or a thrown value. */
  datatype StartReply = Starting(state: Option<InstanceStateName>) | StartThrew(thrown: Thrown)

  /** The replies of the API, by the number of calls of that kind made before. */
  datatype Script = Script(describeReply: nat -> DescribeReply, startReply: nat -> StartReply)

  /** One command sent to the API, with the region of the client it went through. */
  datatype Call = Call(instanceId: string, region: string)

  /** Outcome of an `async` call: `Promise.allSettled`'s two cases. */
  datatype Settled = Fulfilled(value: StartResult) | Rejected(reason: Thrown)

  // ---------------------------------------------------------------------------
  // The start protocol as functions
  // ---------------------------------------------------------------------------

  /** `x?.Name || 'unknown'` */
  function StateName(name: Option<InstanceStateName>): (r: string)
    ensures r == UNKNOWN <==> name.None?
    ensures name.Some? ==> r == StateText(name.value)
  {
    match name
    case None => UNKNOWN
    case Some(n) => StateText(n)
  }

  /** Comparing the state string with `InstanceStateName.running` or
      `.terminated` is comparing the state itself: `'unknown'` is no state's name. */
  lemma StateNameComparisons(name: Option<InstanceStateName>)
    ensures StateName(name) == StateText(Running) <==> name == Some(Running)
    ensures StateName(name) == StateText(Terminated) <==> name == Some(Terminated)
  {
  }

  function NotFoundError(instanceId: string, region: string): (e: Thrown)
    ensures e.ErrorObject? && |e.message| >= 9 + |instanceId| && e.message[..9] == "Instance "
    ensures e.message[9..9 + |instanceId|] == instanceId
    ensures e != TERMINATED_ERROR
  {
    var m := "Instance " + instanceId + " not found in region " + region;
    assert m[..9] == "Instance " && m[9..9 + |instanceId|] == instanceId;
    assert m[0] != TERMINATED_ERROR.message[0];
    ErrorObject(m)
  }

  const TERMINATED_ERROR := ErrorObject("Cannot start terminated instance")

  /** Whether an attempt whose describe gave `d` goes on to send the start command. */
  predicate SendsStart(d: DescribeReply)
  {
    d.Found? && d.state != Some(Running) && d.state != Some(Terminated)
  }

  /** The result of the body of the `try`: success with the two state names,
      or what it threw. */
  datatype AttemptOutcome =
    | AttemptSucceeded(previousState: Option<InstanceStateName>, currentState: Option<InstanceStateName>)
    | AttemptThrew(error: Thrown)

  /** One attempt, describe then decide then start; `s` is only consulted
      when the attempt sends the start command. */
  function AttemptOf(instanceId: string, region: string, d: DescribeReply, s: StartReply): AttemptOutcome
  {
    match d
    case DescribeThrew(t) => AttemptThrew(t)
    case NotFound => AttemptThrew(NotFoundError(instanceId, region))
    case Found(state) =>
      if state == Some(Running) then AttemptSucceeded(state, Some(Running))
      else if state == Some(Terminated) then AttemptThrew(TERMINATED_ERROR)
      else match s
        case StartThrew(t) => AttemptThrew(t)
        case Starting(current) => AttemptSucceeded(state, current)
  }

  /** The decision an attempt makes, case by case: a describe that throws or
      finds nothing, and a terminated instance, fail the attempt; a running
      instance succeeds without a start command; any other state sends it. */
  lemma AttemptOfDecides(instanceId: string, region: string, d: DescribeReply, s: StartReply)
    ensures var o := AttemptOf(instanceId, region, d, s);
      && (d.DescribeThrew? ==> o == AttemptThrew(d.thrown))
      && (d.NotFound? ==> o == AttemptThrew(NotFoundError(instanceId, region)))
      && (d == Found(Some(Running)) ==> o == AttemptSucceeded(Some(Running), Some(Running)))
      && (d == Found(Some(Terminated)) ==> o == AttemptThrew(TERMINATED_ERROR))
      && (SendsStart(d) && s.StartThrew? ==> o == AttemptThrew(s.thrown))
      && (SendsStart(d) && s.Starting? ==> o == AttemptSucceeded(d.state, s.state))
      && (o.AttemptSucceeded? <==> d.Found? && d.state != Some(Terminated) && (SendsStart(d) ==> s.Starting?))
  {
  }

  /** What a run of attempts does: its final outcome, how many describe and
      start commands it sends, and the sleeps between attempts. */
  datatype Trace = Trace(outcome: AttemptOutcome, describes: nat, starts: nat, sleeps: seq<nat>)

  /** The retry loop from attempt number `attempt` on, when `d` describe and
      `s` start commands have been answered before. */
  function Retry(instanceId: string, region: string, script: Script, d: nat, s: nat, attempt: nat): Trace
    requires 1 <= attempt <= MAX_RETRIES
    decreases MAX_RETRIES - attempt
  {
    var reply := script.describeReply(d);
    var started := if SendsStart(reply) then 1 else 0;
    var outcome := AttemptOf(instanceId, region, reply, script.startReply(s));
    if outcome.AttemptSucceeded? || attempt == MAX_RETRIES then Trace(outcome, 1, started, [])
    else
      var rest := Retry(instanceId, region, script, d + 1, s + started, attempt + 1);
      Trace(rest.outcome, rest.describes + 1, rest.starts + started, [RETRY_DELAY_MS * attempt] + rest.sleeps)
  }

  /** The result record an outcome becomes. */
  function ResultOf(instanceId: string, region: string, startTime: int, now: int, outcome: AttemptOutcome): StartResult
  {
    match outcome
    case AttemptSucceeded(previousState, currentState) =>
      Started(instanceId, region, startTime, now - startTime, StateName(previousState), StateName(currentState))
    case AttemptThrew(t) => NotStarted(instanceId, region, startTime, ErrorMessage(t))
  }

  /** The record names the instance and when its call began; it is a success
      exactly when the attempt succeeded, and then carries the elapsed time and
      both state names, otherwise the message of what was thrown. */
  lemma ResultOfMeans(instanceId: string, region: string, startTime: int, now: int, outcome: AttemptOutcome)
    ensures var r := ResultOf(instanceId, region, startTime, now, outcome);
      && r.instanceId == instanceId && r.region == region && r.startTime == startTime
      && (r.Success() <==> outcome.AttemptSucceeded?)
      && (r.Started? ==> r.duration == now - startTime && r.previousState == StateName(outcome.previousState) &&
                         r.currentState == StateName(outcome.currentState))
      && (r.NotStarted? ==> r.error == ErrorMessage(outcome.error))
  {
  }

  // Reference definitions, attempt by attempt, to check Retry against.

  /** How many start commands the first `k` attempts send. */
  function StartsBefore(script: Script, d: nat, k: nat): nat
  {
    if k == 0 then 0
    else StartsBefore(script, d, k - 1) + (if SendsStart(script.describeReply(d + k - 1)) then 1 else 0)
  }

  /** The outcome of attempt `k` (counting from 0) if it is reached. */
  function AttemptAt(instanceId: string, region: string, script: Script, d: nat, s: nat, k: nat): AttemptOutcome
  {
    AttemptOf(instanceId, region, script.describeReply(d + k), script.startReply(s + StartsBefore(script, d, k)))
  }

  /** `n` linear backoff delays, the first one after attempt `from`. */
  function Backoff(from: nat, n: nat): (r: seq<nat>)
    ensures |r| == n
  {
    if n == 0 then [] else Backoff(from, n - 1) + [RETRY_DELAY_MS * (from + n - 1)]
  }

  function Total(s: seq<nat>): nat
  {
    if s == [] then 0 else Total(s[..|s| - 1]) + s[|s| - 1]
  }

  function Repeat<T>(x: T, n: nat): (r: seq<T>)
    ensures |r| == n
  {
    if n == 0 then [] else Repeat(x, n - 1) + [x]
  }

  lemma {:induction false} BackoffCons(from: nat, n: nat)
    ensures Backoff(from, n + 1) == [RETRY_DELAY_MS * from] + Backoff(from + 1, n)
  {
    if n > 0 {
      BackoffCons(from, n - 1);
    }
  }

  lemma {:induction false} StartsBeforeShift(script: Script, d: nat, k: nat)
    ensures StartsBefore(script, d, k + 1) ==
              (if SendsStart(script.describeReply(d)) then 1 else 0) + StartsBefore(script, d + 1, k)
  {
    if k > 0 {
      StartsBeforeShift(script, d, k - 1);
    }
  }

  lemma AttemptAtShift(instanceId: string, region: string, script: Script, d: nat, s: nat, k: nat)
    requires k >= 1
    ensures AttemptAt(instanceId, region, script, d, s, k) ==
            AttemptAt(instanceId, region, script, d + 1, s + (if SendsStart(script.describeReply(d)) then 1 else 0), k - 1)
  {
    StartsBeforeShift(script, d, k - 1);
  }

  /** The number of attempts and the stopping rule. */
  lemma {:induction false} RetryAttempts(instanceId: string, region: string, script: Script, d: nat, s: nat, attempt: nat)
    requires 1 <= attempt <= MAX_RETRIES
    ensures var t := Retry(instanceId, region, script, d, s, attempt);
            && 1 <= t.describes <= MAX_RETRIES - attempt + 1
            && (t.outcome.AttemptThrew? ==> t.describes == MAX_RETRIES - attempt + 1)
    decreases MAX_RETRIES - attempt
  {
    var started := if SendsStart(script.describeReply(d)) then 1 else 0;
    if attempt < MAX_RETRIES {
      RetryAttempts(instanceId, region, script, d + 1, s + started, attempt + 1);
    }
  }

  /** One start command for each attempt whose describe calls for one. */
  lemma {:induction false} RetryStarts(instanceId: string, region: string, script: Script, d: nat, s: nat, attempt: nat)
    requires 1 <= attempt <= MAX_RETRIES
    ensures var t := Retry(instanceId, region, script, d, s, attempt);
            t.starts == StartsBefore(script, d, t.describes)
    decreases MAX_RETRIES - attempt
  {
    var started := if SendsStart(script.describeReply(d)) then 1 else 0;
    var outcome := AttemptOf(instanceId, region, script.describeReply(d), script.startReply(s));
    if outcome.AttemptThrew? && attempt < MAX_RETRIES {
      RetryStarts(instanceId, region, script, d + 1, s + started, attempt + 1);
      StartsStep(instanceId, region, script, d, s, attempt);
    } else {
      RetryStops(instanceId, region, script, d, s, attempt);
      assert StartsBefore(script, d, 1) == started;
    }
  }

  /** The inductive step of `RetryStarts`. */
  lemma StartsStep(instanceId: string, region: string, script: Script, d: nat, s: nat, attempt: nat)
    requires 1 <= attempt < MAX_RETRIES
    requires AttemptOf(instanceId, region, script.describeReply(d), script.startReply(s)).AttemptThrew?
    requires var inc := if SendsStart(script.describeReply(d)) then 1 else 0;
             var rest := Retry(instanceId, region, script, d + 1, s + inc, attempt + 1);
             rest.starts == StartsBefore(script, d + 1, rest.describes)
    ensures var t := Retry(instanceId, region, script, d, s, attempt);
            t.starts == StartsBefore(script, d, t.describes)
  {
    RetryGoesOn(instanceId, region, script, d, s, attempt);
    var inc := if SendsStart(script.describeReply(d)) then 1 else 0;
    var rest := Retry(instanceId, region, script, d + 1, s + inc, attempt + 1);
    StartsBeforeShift(script, d, rest.describes);
  }

  /** The sleeps are the linear backoff delays, one per failed attempt but the last. */
  lemma {:induction false} RetrySleeps(instanceId: string, region: string, script: Script, d: nat, s: nat, attempt: nat)
    requires 1 <= attempt <= MAX_RETRIES
    ensures var t := Retry(instanceId, region, script, d, s, attempt);
            t.describes >= 1 && t.sleeps == Backoff(attempt, t.describes - 1)
    decreases MAX_RETRIES - attempt
  {
    var started := if SendsStart(script.describeReply(d)) then 1 else 0;
    var outcome := AttemptOf(instanceId, region, script.describeReply(d), script.startReply(s));
    if outcome.AttemptThrew? && attempt < MAX_RETRIES {
      RetrySleeps(instanceId, region, script, d + 1, s + started, attempt + 1);
      var rest := Retry(instanceId, region, script, d + 1, s + started, attempt + 1);
      BackoffCons(attempt, rest.describes - 1);
    }
  }

  /** The outcome is that of the last attempt made. */
  lemma {:induction false} RetryLastOutcome(instanceId: string, region: string, script: Script, d: nat, s: nat, attempt: nat)
    requires 1 <= attempt <= MAX_RETRIES
    ensures var t := Retry(instanceId, region, script, d, s, attempt);
            t.describes >= 1 && t.outcome == AttemptAt(instanceId, region, script, d, s, t.describes - 1)
    decreases MAX_RETRIES - attempt
  {
    var started := if SendsStart(script.describeReply(d)) then 1 else 0;
    var outcome := AttemptOf(instanceId, region, script.describeReply(d), script.startReply(s));
    if outcome.AttemptThrew? && attempt < MAX_RETRIES {
      RetryLastOutcome(instanceId, region, script, d + 1, s + started, attempt + 1);
      LastOutcomeStep(instanceId, region, script, d, s, attempt);
    } else {
      RetryStops(instanceId, region, script, d, s, attempt);
      assert AttemptAt(instanceId, region, script, d, s, 0) == outcome;
    }
  }

  /** The inductive step of `RetryLastOutcome`: a failed attempt that is not
      the last passes the rest of the run's last outcome through. */
  lemma LastOutcomeStep(instanceId: string, region: string, script: Script, d: nat, s: nat, attempt: nat)
    requires 1 <= attempt < MAX_RETRIES
    requires AttemptOf(instanceId, region, script.describeReply(d), script.startReply(s)).AttemptThrew?
    requires var inc := if SendsStart(script.describeReply(d)) then 1 else 0;
             var rest := Retry(instanceId, region, script, d + 1, s + inc, attempt + 1);
             rest.describes >= 1 && rest.outcome == AttemptAt(instanceId, region, script, d + 1, s + inc, rest.describes - 1)
    ensures var t := Retry(instanceId, region, script, d, s, attempt);
            t.describes >= 1 && t.outcome == AttemptAt(instanceId, region, script, d, s, t.describes - 1)
  {
    RetryGoesOn(instanceId, region, script, d, s, attempt);
    var inc := if SendsStart(script.describeReply(d)) then 1 else 0;
    var rest := Retry(instanceId, region, script, d + 1, s + inc, attempt + 1);
    var t := Retry(instanceId, region, script, d, s, attempt);
    assert t.describes == rest.describes + 1 && t.outcome == rest.outcome;
    AttemptAtShift(instanceId, region, script, d, s, rest.describes);
  }

  /** Every attempt before the last one made failed. */
  lemma {:induction false} RetryEarlierFailed(instanceId: string, region: string, script: Script, d: nat, s: nat, attempt: nat)
    requires 1 <= attempt <= MAX_RETRIES
    ensures var t := Retry(instanceId, region, script, d, s, attempt);
            forall k :: 0 <= k < t.describes - 1 ==> AttemptAt(instanceId, region, script, d, s, k).AttemptThrew?
    decreases MAX_RETRIES - attempt
  {
    var started := if SendsStart(script.describeReply(d)) then 1 else 0;
    var outcome := AttemptOf(instanceId, region, script.describeReply(d), script.startReply(s));
    if outcome.AttemptThrew? && attempt < MAX_RETRIES {
      RetryEarlierFailed(instanceId, region, script, d + 1, s + started, attempt + 1);
      var rest := Retry(instanceId, region, script, d + 1, s + started, attempt + 1);
      forall k | 0 <= k < rest.describes
        ensures AttemptAt(instanceId, region, script, d, s, k).AttemptThrew?
      {
        if k == 0 {
          assert AttemptAt(instanceId, region, script, d, s, 0) == outcome;
        } else {
          AttemptAtShift(instanceId, region, script, d, s, k);
        }
      }
    }
  }

  /** The protocol as a whole: at most three attempts, each beginning with a
      describe; at most one start command per attempt; the attempts before
      the last one all failed and the outcome is that of the last one; the
      sleeps are 5 s after attempt 1 and 10 s after attempt 2, none after the
      last; a failure comes only after all three attempts. */
  lemma RetrySpec(instanceId: string, region: string, script: Script, d: nat, s: nat)
    ensures var t := Retry(instanceId, region, script, d, s, 1);
            && 1 <= t.describes <= MAX_RETRIES
            && t.starts <= t.describes
            && t.starts == StartsBefore(script, d, t.describes)
            && t.sleeps == [5000, 10000][..t.describes - 1]
            && (forall k :: 0 <= k < t.describes - 1 ==> AttemptAt(instanceId, region, script, d, s, k).AttemptThrew?)
            && t.outcome == AttemptAt(instanceId, region, script, d, s, t.describes - 1)
            && (t.outcome.AttemptThrew? ==> t.describes == MAX_RETRIES && t.sleeps == [5000, 10000])
  {
    RetryAttempts(instanceId, region, script, d, s, 1);
    RetryStarts(instanceId, region, script, d, s, 1);
    RetrySleeps(instanceId, region, script, d, s, 1);
    RetryLastOutcome(instanceId, region, script, d, s, 1);
    RetryEarlierFailed(instanceId, region, script, d, s, 1);
    var t := Retry(instanceId, region, script, d, s, 1);
    StartsBeforeAtMost(script, d, t.describes);
    assert Backoff(1, t.describes - 1) == [5000, 10000][..t.describes - 1];
  }

  /** The command counts alone: one to three describes, and no more starts
      than describes. */
  lemma RetryCounts(instanceId: string, region: string, script: Script, d: nat, s: nat)
    ensures var t := Retry(instanceId, region, script, d, s, 1);
            1 <= t.describes <= MAX_RETRIES && t.starts <= t.describes
  {
    RetryAttempts(instanceId, region, script, d, s, 1);
    RetryStarts(instanceId, region, script, d, s, 1);
    StartsBeforeAtMost(script, d, Retry(instanceId, region, script, d, s, 1).describes);
  }

  lemma {:induction false} StartsBeforeAtMost(script: Script, d: nat, k: nat)
    ensures StartsBefore(script, d, k) <= k
  {
    if k > 0 {
      StartsBeforeAtMost(script, d, k - 1);
    }
  }

  /** A success on an already running instance: one describe, no start
      command, no sleep, and both state names are `'running'`. */
  lemma AlreadyRunning(instanceId: string, region: string, script: Script, d: nat, s: nat, startTime: int, now: int)
    requires script.describeReply(d) == Found(Some(Running))
    ensures Retry(instanceId, region, script, d, s, 1) == Trace(AttemptSucceeded(Some(Running), Some(Running)), 1, 0, [])
    ensures ResultOf(instanceId, region, startTime, now, Retry(instanceId, region, script, d, s, 1).outcome) ==
            Started(instanceId, region, startTime, now - startTime, "running", "running")
  {
  }

  /** A terminated instance is not a fast failure: the error is thrown inside
      the `try`, so all three attempts run, with both sleeps, and no start
      command is sent. */
  lemma TerminatedIsRetried(instanceId: string, region: string, script: Script, d: nat, s: nat)
    requires forall k :: d <= k < d + MAX_RETRIES ==> script.describeReply(k) == Found(Some(Terminated))
    ensures Retry(instanceId, region, script, d, s, 1) == Trace(AttemptThrew(TERMINATED_ERROR), 3, 0, [5000, 10000])
  {
    assert script.describeReply(d) == Found(Some(Terminated));
    assert script.describeReply(d + 1) == Found(Some(Terminated));
    assert script.describeReply(d + 2) == Found(Some(Terminated));
  }

  /** Likewise an instance that is not found is retried three times. */
  lemma NotFoundIsRetried(instanceId: string, region: string, script: Script, d: nat, s: nat)
    requires forall k :: d <= k < d + MAX_RETRIES ==> script.describeReply(k) == NotFound
    ensures Retry(instanceId, region, script, d, s, 1) ==
            Trace(AttemptThrew(NotFoundError(instanceId, region)), 3, 0, [5000, 10000])
  {
    assert script.describeReply(d) == NotFound;
    assert script.describeReply(d + 1) == NotFound;
    assert script.describeReply(d + 2) == NotFound;
  }

  /** When every describe throws, the result cites the third error. */
  lemma DescribeAlwaysThrows(instanceId: string, region: string, script: Script, d: nat, s: nat)
    requires forall k :: d <= k < d + MAX_RETRIES ==> script.describeReply(k).DescribeThrew?
    ensures var t := Retry(instanceId, region, script, d, s, 1);
            t == Trace(AttemptThrew(script.describeReply(d + 2).thrown), 3, 0, [5000, 10000])
  {
    assert script.describeReply(d).DescribeThrew?;
    assert script.describeReply(d + 1).DescribeThrew?;
    assert script.describeReply(d + 2).DescribeThrew?;
  }

  /** Missing state names become `'unknown'` on both sides. */
  lemma UnknownStates(instanceId: string, region: string, script: Script, d: nat, s: nat, startTime: int, now: int)
    requires script.describeReply(d) == Found(None)
    requires script.startReply(s) == Starting(None)
    ensures Retry(instanceId, region, script, d, s, 1) == Trace(AttemptSucceeded(None, None), 1, 1, [])
    ensures ResultOf(instanceId, region, startTime, now, Retry(instanceId, region, script, d, s, 1).outcome) ==
            Started(instanceId, region, startTime, now - startTime, "unknown", "unknown")
  {
  }

  // The loop of startInstance against Retry: after `attempt - 1` failed
  // attempts that sent `started` start commands, the whole run is the rest
  // of the run, from `attempt` on, resumed.

  function Resume(attempt: nat, started: nat, rest: Trace): Trace
    requires attempt >= 1
  {
    Trace(rest.outcome, attempt - 1 + rest.describes, started + rest.starts, Backoff(1, attempt - 1) + rest.sleeps)
  }

  lemma ResumeStart(rest: Trace)
    ensures Resume(1, 0, rest) == rest
  {
    assert Backoff(1, 0) + rest.sleeps == rest.sleeps;
  }

  /** One more failed attempt moves from the rest of the run to the rest
      after it. */
  lemma ResumeStep(attempt: nat, started: nat, inc: nat, rest: Trace)
    requires attempt >= 1
    ensures Resume(attempt, started, Trace(rest.outcome, rest.describes + 1, rest.starts + inc,
                                           [RETRY_DELAY_MS * attempt] + rest.sleeps)) ==
            Resume(attempt + 1, started + inc, rest)
  {
    assert Backoff(1, attempt - 1) + ([RETRY_DELAY_MS * attempt] + rest.sleeps) ==
           Backoff(1, attempt) + rest.sleeps;
  }

  lemma ResumeDone(attempt: nat, started: nat, outcome: AttemptOutcome, inc: nat)
    requires attempt >= 1
    ensures Resume(attempt, started, Trace(outcome, 1, inc, [])) ==
            Trace(outcome, attempt, started + inc, Backoff(1, attempt - 1))
  {
    assert Backoff(1, attempt - 1) + [] == Backoff(1, attempt - 1);
  }

  lemma {:induction false} TotalSnoc(s: seq<nat>, x: nat)
    ensures Total(s + [x]) == Total(s) + x
  {
    assert (s + [x])[..|s|] == s;
  }

  // ---------------------------------------------------------------------------
  // State: the platform, the SDK clients and the service
  // ---------------------------------------------------------------------------

  /** The platform's logs and clock at one moment. */
  datatype Snapshot = Snapshot(describeLog: seq<Call>, startLog: seq<Call>, sleepLog: seq<nat>, clock: int)

  /** Inside the loop of `startInstance`, before attempt `attempt`: the
      earlier attempts failed, having sent `started` start commands and
      slept the backoff delays after each, and `t`, the whole run from
      `before` on, is what is left of it resumed. */
  ghost predicate Midway(instanceId: string, region: string, script: Script, before: Snapshot, t: Trace,
                         attempt: nat, started: nat, now: Snapshot)
  {
    && 1 <= attempt <= MAX_RETRIES
    && LoggedSoFar(instanceId, region, before, attempt, started, now)
    && t == Retry(instanceId, region, script, |before.describeLog|, |before.startLog|, 1)
    && t == Resume(attempt, started, Retry(instanceId, region, script, |now.describeLog|, |now.startLog|, attempt))
  }

  /** The logs and the clock after `attempt - 1` failed attempts that sent
      `started` start commands. */
  ghost predicate LoggedSoFar(instanceId: string, region: string, before: Snapshot, attempt: nat, started: nat, now: Snapshot)
    requires attempt >= 1
  {
    var call := Call(instanceId, region);
    && now.describeLog == before.describeLog + Repeat(call, attempt - 1)
    && now.startLog == before.startLog + Repeat(call, started)
    && now.sleepLog == before.sleepLog + Backoff(1, attempt - 1)
    && now.clock == before.clock + Total(Backoff(1, attempt - 1))
  }

  /** After the loop of `startInstance`: the result is the run's outcome
      and the logs and the clock have grown by exactly the run's calls and
      sleeps. */
  ghost predicate Finished(instanceId: string, region: string, script: Script, before: Snapshot, t: Trace,
                           result: StartResult, now: Snapshot)
  {
    var call := Call(instanceId, region);
    && t == Retry(instanceId, region, script, |before.describeLog|, |before.startLog|, 1)
    && result == ResultOf(instanceId, region, before.clock, now.clock, t.outcome)
    && now.describeLog == before.describeLog + Repeat(call, t.describes)
    && now.startLog == before.startLog + Repeat(call, t.starts)
    && now.sleepLog == before.sleepLog + t.sleeps
    && now.clock == before.clock + Total(t.sleeps)
  }

  /** What one attempt does, seen from snapshots: its outcome, and the
      calls it adds to the logs. */
  ghost predicate Attempted(instanceId: string, region: string, script: Script, mid: Snapshot,
                            outcome: AttemptOutcome, after: Snapshot)
  {
    && outcome == AttemptOf(instanceId, region, script.describeReply(|mid.describeLog|), script.startReply(|mid.startLog|))
    && Called(instanceId, region, script, mid, after)
  }

  /** One describe call, and a start call when the describe calls for one. */
  ghost predicate Called(instanceId: string, region: string, script: Script, mid: Snapshot, after: Snapshot)
  {
    var call := Call(instanceId, region);
    && after.describeLog == mid.describeLog + [call]
    && after.startLog == mid.startLog + (if SendsStart(script.describeReply(|mid.describeLog|)) then [call] else [])
    && after.sleepLog == mid.sleepLog
    && after.clock == mid.clock
  }

  lemma AppendRepeat<T>(prefix: seq<T>, x: T, n: nat)
    ensures prefix + Repeat(x, n) + [x] == prefix + Repeat(x, n + 1)
  {
    assert Repeat(x, n + 1) == Repeat(x, n) + [x];
  }

  /** The rest of the run from attempt `attempt` when that attempt is the
      last one made. */
  lemma RetryStops(instanceId: string, region: string, script: Script, d: nat, s: nat, attempt: nat)
    requires 1 <= attempt <= MAX_RETRIES
    requires var o := AttemptOf(instanceId, region, script.describeReply(d), script.startReply(s));
             o.AttemptSucceeded? || attempt == MAX_RETRIES
    ensures Retry(instanceId, region, script, d, s, attempt) ==
            Trace(AttemptOf(instanceId, region, script.describeReply(d), script.startReply(s)), 1,
                  if SendsStart(script.describeReply(d)) then 1 else 0, [])
  {
  }

  /** The rest of the run from attempt `attempt` when that attempt fails
      and is not the last. */
  lemma RetryGoesOn(instanceId: string, region: string, script: Script, d: nat, s: nat, attempt: nat)
    requires 1 <= attempt < MAX_RETRIES
    requires AttemptOf(instanceId, region, script.describeReply(d), script.startReply(s)).AttemptThrew?
    ensures var inc := if SendsStart(script.describeReply(d)) then 1 else 0;
            var next := Retry(instanceId, region, script, d + 1, s + inc, attempt + 1);
            Retry(instanceId, region, script, d, s, attempt) ==
            Trace(next.outcome, next.describes + 1, next.starts + inc, [RETRY_DELAY_MS * attempt] + next.sleeps)
  {
  }

  /** The attempt that ends the loop completes the run. */
  lemma PassFinishes(instanceId: string, region: string, script: Script, before: Snapshot, t: Trace,
                     attempt: nat, started: nat, mid: Snapshot, outcome: AttemptOutcome, after: Snapshot)
    requires Midway(instanceId, region, script, before, t, attempt, started, mid)
    requires Attempted(instanceId, region, script, mid, outcome, after)
    requires outcome.AttemptSucceeded? || attempt == MAX_RETRIES
    ensures Finished(instanceId, region, script, before, t, ResultOf(instanceId, region, before.clock, after.clock, outcome), after)
  {
    var call := Call(instanceId, region);
    var d, s := |mid.describeLog|, |mid.startLog|;
    var reply := script.describeReply(d);
    var inc := if SendsStart(reply) then 1 else 0;
    var rest := Retry(instanceId, region, script, d, s, attempt);
    RetryStops(instanceId, region, script, d, s, attempt);
    assert rest == Trace(outcome, 1, inc, []);
    ResumeDone(attempt, started, outcome, inc);
    AppendRepeat(before.describeLog, call, attempt - 1);
    if inc == 1 {
      AppendRepeat(before.startLog, call, started);
    } else {
      assert after.startLog == mid.startLog;
    }
  }

  /** A failed attempt and the sleep after it, in the logs. */
  lemma LoggedNext(instanceId: string, region: string, script: Script, before: Snapshot,
                   attempt: nat, started: nat, mid: Snapshot, after: Snapshot)
    requires attempt >= 1
    requires LoggedSoFar(instanceId, region, before, attempt, started, mid)
    requires Called(instanceId, region, script, mid, after.(sleepLog := mid.sleepLog, clock := mid.clock))
    requires after.sleepLog == mid.sleepLog + [RETRY_DELAY_MS * attempt]
    requires after.clock == mid.clock + RETRY_DELAY_MS * attempt
    ensures LoggedSoFar(instanceId, region, before, attempt + 1,
                        started + (if SendsStart(script.describeReply(|mid.describeLog|)) then 1 else 0), after)
  {
    var call := Call(instanceId, region);
    TotalSnoc(Backoff(1, attempt - 1), RETRY_DELAY_MS * attempt);
    AppendRepeat(before.describeLog, call, attempt - 1);
    if SendsStart(script.describeReply(|mid.describeLog|)) {
      AppendRepeat(before.startLog, call, started);
    } else {
      assert after.startLog == mid.startLog;
    }
    assert after.sleepLog == before.sleepLog + Backoff(1, attempt);
  }

  /** A failed attempt before the last one moves the resumed run on by one
      attempt. */
  lemma ResumedNext(instanceId: string, region: string, script: Script, t: Trace,
                    attempt: nat, started: nat, mid: Snapshot, outcome: AttemptOutcome, after: Snapshot)
    requires 1 <= attempt < MAX_RETRIES
    requires t == Resume(attempt, started, Retry(instanceId, region, script, |mid.describeLog|, |mid.startLog|, attempt))
    requires Attempted(instanceId, region, script, mid, outcome, after.(sleepLog := mid.sleepLog, clock := mid.clock))
    requires outcome.AttemptThrew?
    ensures var inc := if SendsStart(script.describeReply(|mid.describeLog|)) then 1 else 0;
            t == Resume(attempt + 1, started + inc,
                        Retry(instanceId, region, script, |after.describeLog|, |after.startLog|, attempt + 1))
  {
    var d, s := |mid.describeLog|, |mid.startLog|;
    var inc := if SendsStart(script.describeReply(d)) then 1 else 0;
    var next := Retry(instanceId, region, script, d + 1, s + inc, attempt + 1);
    RetryGoesOn(instanceId, region, script, d, s, attempt);
    ResumeStep(attempt, started, inc, next);
    assert |after.describeLog| == d + 1 && |after.startLog| == s + inc;
  }

  /** A failed attempt before the last one, and the sleep after it, lead to
      the next attempt. */
  lemma PassContinues(instanceId: string, region: string, script: Script, before: Snapshot, t: Trace,
                      attempt: nat, started: nat, mid: Snapshot, outcome: AttemptOutcome, after: Snapshot)
    requires Midway(instanceId, region, script, before, t, attempt, started, mid)
    requires Attempted(instanceId, region, script, mid, outcome, after.(sleepLog := mid.sleepLog, clock := mid.clock))
    requires outcome.AttemptThrew? && attempt < MAX_RETRIES
    requires after.sleepLog == mid.sleepLog + [RETRY_DELAY_MS * attempt]
    requires after.clock == mid.clock + RETRY_DELAY_MS * attempt
    ensures Midway(instanceId, region, script, before, t, attempt + 1,
                   started + (if SendsStart(script.describeReply(|mid.describeLog|)) then 1 else 0), after)
  {
    LoggedNext(instanceId, region, script, before, attempt, started, mid, after);
    ResumedNext(instanceId, region, script, t, attempt, started, mid, outcome, after);
  }

  /** Everything outside the process the service talks to: the EC2 API of
      every region (scripted), whether creating an SDK client for a region
      throws, the timer behind `sleep`, and the clock behind `Date`. */
  class Platform {
    const script: Script
    const clientFailure: string -> Option<Thrown>
    var describeLog: seq<Call>
    var startLog: seq<Call>
    var sleepLog: seq<nat>
    var clock: int

    ghost function Snap(): Snapshot
      reads this
    {
      Snapshot(describeLog, startLog, sleepLog, clock)
    }

    constructor (script: Script, clientFailure: string -> Option<Thrown>, clock: int)
      ensures this.script == script && this.clientFailure == clientFailure
      ensures describeLog == [] && startLog == [] && sleepLog == [] && this.clock == clock
    {
      this.script := script;
      this.clientFailure := clientFailure;
      this.clock := clock;
      describeLog, startLog, sleepLog := [], [], [];
    }

    /** `client.send(new DescribeInstancesCommand(...))` */
    method Describe(client: Ec2Client, instanceId: string) returns (r: DescribeReply)
      modifies this
      ensures r == script.describeReply(|old(describeLog)|)
      ensures describeLog == old(describeLog) + [Call(instanceId, client.region)]
      ensures startLog == old(startLog) && sleepLog == old(sleepLog) && clock == old(clock)
    {
      r := script.describeReply(|describeLog|);
      describeLog := describeLog + [Call(instanceId, client.region)];
    }

    /** `client.send(new StartInstancesCommand(...))` */
    method Start(client: Ec2Client, instanceId: string) returns (r: StartReply)
      modifies this
      ensures r == script.startReply(|old(startLog)|)
      ensures startLog == old(startLog) + [Call(instanceId, client.region)]
      ensures describeLog == old(describeLog) && sleepLog == old(sleepLog) && clock == old(clock)
    {
      r := script.startReply(|startLog|);
      startLog := startLog + [Call(instanceId, client.region)];
    }

    /** `await this.sleep(ms)` */
    method Sleep(ms: nat)
      modifies this
      ensures sleepLog == old(sleepLog) + [ms] && clock == old(clock) + ms
      ensures describeLog == old(describeLog) && startLog == old(startLog)
    {
      sleepLog := sleepLog + [ms];
      clock := clock + ms;
    }
  }

  /** An `EC2Client` bound to one region. */
  class Ec2Client {
    const region: string

    constructor (region: string)
      ensures this.region == region
    {
      this.region := region;
    }
  }

  predicate Echoes(r: StartResult, inst: Instance)
  {
    r.instanceId == inst.instanceId && r.region == inst.region
  }

  /** One result per settled call, at the same index; a rejected call becomes
      a failure for that index's instance, stamped with `now`. */
  function SettledResult(inst: Instance, s: Settled, now: int): (r: StartResult)
    ensures s.Fulfilled? ==> r == s.value
    ensures s.Rejected? ==> Echoes(r, inst) && r.NotStarted? && r.startTime == now && r.error == ErrorMessage(s.reason)
  {
    match s
    case Fulfilled(v) => v
    case Rejected(t) => NotStarted(inst.instanceId, inst.region, now, ErrorMessage(t))
  }

  function Reassemble(instances: seq<Instance>, settled: seq<Settled>, now: int): (r: seq<StartResult>)
    requires |settled| == |instances|
    ensures |r| == |instances|
    ensures forall i :: 0 <= i < |r| ==> r[i] == SettledResult(instances[i], settled[i], now)
  {
    seq(|instances|, i requires 0 <= i < |instances| => SettledResult(instances[i], settled[i], now))
  }

  /** Batch isolation: every index gets a result for its own instance, a
      rejection turns into a failure carrying its message, and the success of
      one index depends on that index's call alone. */
  lemma ReassembleIsolates(instances: seq<Instance>, settled: seq<Settled>, now: int)
    requires |settled| == |instances|
    requires forall i :: 0 <= i < |settled| && settled[i].Fulfilled? ==> Echoes(settled[i].value, instances[i])
    ensures var r := Reassemble(instances, settled, now);
            forall i :: 0 <= i < |r| ==>
              && Echoes(r[i], instances[i])
              && (r[i].Success() <==> settled[i].Fulfilled? && settled[i].value.Success())
              && (settled[i].Rejected? ==> r[i].NotStarted? && r[i].error == ErrorMessage(settled[i].reason))
  {
  }

  // ---------------------------------------------------------------------------
  // The batch as a function
  // ---------------------------------------------------------------------------

  /** What one `startInstance` call does to the platform and to the set of
      cached regions. */
  datatype Step = Step(settled: Settled, after: Snapshot, cached: set<string>)

  /** The result `startInstance(inst)` fulfils with once it has a client,
      the platform being at `now` when it starts. */
  function CallResult(script: Script, inst: Instance, now: Snapshot): (r: StartResult)
    ensures Echoes(r, inst) && r.startTime == now.clock
  {
    var t := Retry(inst.instanceId, inst.region, script, |now.describeLog|, |now.startLog|, 1);
    ResultOf(inst.instanceId, inst.region, now.clock, now.clock + Total(t.sleeps), t.outcome)
  }

  /** One `startInstance(inst)` call, when the regions in `cached` already
      have a client and the platform is at `now`: a client construction that
      throws rejects the call and changes nothing; otherwise the run of
      attempts is `Retry`, its commands are logged, its sleeps pass, and the
      region is cached. */
  function StartCall(script: Script, clientFailure: string -> Option<Thrown>, cached: set<string>,
                     inst: Instance, now: Snapshot): (st: Step)
    ensures cached <= st.cached <= cached + {inst.region}
    ensures st.settled.Rejected? ==> st.after == now && st.cached == cached
    ensures st.settled.Fulfilled? ==> Echoes(st.settled.value, inst) && inst.region in st.cached
  {
    if inst.region !in cached && clientFailure(inst.region).Some? then
      Step(Rejected(clientFailure(inst.region).value), now, cached)
    else
      var call := Call(inst.instanceId, inst.region);
      var t := Retry(inst.instanceId, inst.region, script, |now.describeLog|, |now.startLog|, 1);
      var clock := now.clock + Total(t.sleeps);
      Step(Fulfilled(CallResult(script, inst, now)),
           Snapshot(now.describeLog + Repeat(call, t.describes), now.startLog + Repeat(call, t.starts),
                    now.sleepLog + t.sleeps, clock),
           cached + {inst.region})
  }

  /** A call whose client construction throws. */
  lemma StartCallRejects(script: Script, clientFailure: string -> Option<Thrown>, cached: set<string>,
                         inst: Instance, now: Snapshot)
    requires inst.region !in cached && clientFailure(inst.region).Some?
    ensures StartCall(script, clientFailure, cached, inst, now) ==
            Step(Rejected(clientFailure(inst.region).value), now, cached)
  {
  }

  /** A call that gets a client runs the attempts that `Retry` describes. */
  lemma StartCallFulfils(script: Script, clientFailure: string -> Option<Thrown>, cached: set<string>,
                         inst: Instance, now: Snapshot, t: Trace, result: StartResult, after: Snapshot)
    requires inst.region in cached || clientFailure(inst.region).None?
    requires t == Retry(inst.instanceId, inst.region, script, |now.describeLog|, |now.startLog|, 1)
    requires result == ResultOf(inst.instanceId, inst.region, now.clock, after.clock, t.outcome)
    requires after.describeLog == now.describeLog + Repeat(Call(inst.instanceId, inst.region), t.describes)
    requires after.startLog == now.startLog + Repeat(Call(inst.instanceId, inst.region), t.starts)
    requires after.sleepLog == now.sleepLog + t.sleeps
    requires after.clock == now.clock + Total(t.sleeps)
    ensures StartCall(script, clientFailure, cached, inst, now) == Step(Fulfilled(result), after, cached + {inst.region})
  {
  }

  /** The settled outcome of one call, case by case. */
  lemma StartCallOutcome(script: Script, clientFailure: string -> Option<Thrown>, cached: set<string>,
                         inst: Instance, now: Snapshot)
    ensures var settled := StartCall(script, clientFailure, cached, inst, now).settled;
            && (settled.Rejected? <==> inst.region !in cached && clientFailure(inst.region).Some?)
            && (settled.Rejected? ==> settled.reason == clientFailure(inst.region).value)
            && (settled.Fulfilled? ==> settled.value == CallResult(script, inst, now))
  {
  }

  /** What a batch of calls does: the settled outcomes, by index, and the
      platform and cache afterwards. */
  datatype BatchRun = BatchRun(settled: seq<Settled>, after: Snapshot, cached: set<string>)

  /** A call as a step from a cache and a platform state. */
  function StartCallStep(script: Script, clientFailure: string -> Option<Thrown>): (set<string>, Instance, Snapshot) -> Step
  {
    (cached: set<string>, inst: Instance, now: Snapshot) => StartCall(script, clientFailure, cached, inst, now)
  }

  /** The calls of `startMultipleInstances`, one per instance in index order,
      each in the state the calls before it left. */
  function Batch(step: (set<string>, Instance, Snapshot) -> Step, cached: set<string>,
                 instances: seq<Instance>, now: Snapshot): (run: BatchRun)
    ensures |run.settled| == |instances|
    decreases |instances|
  {
    if instances == [] then BatchRun([], now, cached)
    else
      var front := Batch(step, cached, instances[..|instances| - 1], now);
      var last := step(front.cached, instances[|instances| - 1], front.after);
      BatchRun(front.settled + [last.settled], last.after, last.cached)
  }

  /** Call `i` of a batch is the call for `instances[i]` in the state the
      first `i` calls left. */
  lemma {:induction false} BatchAt(step: (set<string>, Instance, Snapshot) -> Step, cached: set<string>,
                                   instances: seq<Instance>, now: Snapshot, i: nat)
    requires i < |instances|
    ensures var front := Batch(step, cached, instances[..i], now);
            Batch(step, cached, instances, now).settled[i] == step(front.cached, instances[i], front.after).settled
    decreases |instances|
  {
    var n := |instances| - 1;
    if i < n {
      BatchAt(step, cached, instances[..n], now, i);
      assert instances[..n][..i] == instances[..i];
    } else {
      assert instances[..n] == instances[..i];
    }
  }

  /** The cache only grows, and a region whose client construction throws
      is never added to it. */
  lemma {:induction false} BatchCache(script: Script, clientFailure: string -> Option<Thrown>, cached: set<string>,
                                      instances: seq<Instance>, now: Snapshot, region: string)
    ensures var run := Batch(StartCallStep(script, clientFailure), cached, instances, now);
            && cached <= run.cached
            && (clientFailure(region).Some? ==> (region in run.cached <==> region in cached))
    decreases |instances|
  {
    if instances != [] {
      var n := |instances| - 1;
      BatchCache(script, clientFailure, cached, instances[..n], now, region);
      var front := Batch(StartCallStep(script, clientFailure), cached, instances[..n], now);
      StartCallOutcome(script, clientFailure, front.cached, instances[n], front.after);
    }
  }

  /** Call `i` rejects exactly when its region had no cached client before
      the batch and creating one throws, and carries what creating it threw. */
  lemma BatchRejections(script: Script, clientFailure: string -> Option<Thrown>, cached: set<string>,
                        instances: seq<Instance>, now: Snapshot, i: nat)
    requires i < |instances|
    ensures var settled := Batch(StartCallStep(script, clientFailure), cached, instances, now).settled;
            var region := instances[i].region;
            && (settled[i].Rejected? <==> region !in cached && clientFailure(region).Some?)
            && (settled[i].Rejected? ==> settled[i].reason == clientFailure(region).value)
  {
    var step := StartCallStep(script, clientFailure);
    BatchAt(step, cached, instances, now, i);
    var front := Batch(step, cached, instances[..i], now);
    BatchCache(script, clientFailure, cached, instances[..i], now, instances[i].region);
    StartCallOutcome(script, clientFailure, front.cached, instances[i], front.after);
  }

  /** A call of the batch that fulfils does so with the result of its own
      run of attempts, for its own instance, from the state the calls ahead
      of it left. */
  lemma BatchFulfilments(script: Script, clientFailure: string -> Option<Thrown>, cached: set<string>,
                         instances: seq<Instance>, now: Snapshot, i: nat)
    requires i < |instances|
    ensures var settled := Batch(StartCallStep(script, clientFailure), cached, instances, now).settled;
            var before := Batch(StartCallStep(script, clientFailure), cached, instances[..i], now).after;
            settled[i].Fulfilled? ==> settled[i].value == CallResult(script, instances[i], before)
  {
    var step := StartCallStep(script, clientFailure);
    BatchAt(step, cached, instances, now, i);
    var front := Batch(step, cached, instances[..i], now);
    StartCallOutcome(script, clientFailure, front.cached, instances[i], front.after);
  }

  /** Every fulfilled call of the batch answers for its own instance. */
  lemma BatchEchoes(script: Script, clientFailure: string -> Option<Thrown>, cached: set<string>,
                    instances: seq<Instance>, now: Snapshot)
    ensures var settled := Batch(StartCallStep(script, clientFailure), cached, instances, now).settled;
            forall i :: 0 <= i < |settled| && settled[i].Fulfilled? ==> Echoes(settled[i].value, instances[i])
  {
    forall i | 0 <= i < |instances| {
      BatchFulfilments(script, clientFailure, cached, instances, now, i);
    }
  }

  class EC2Service {
    var clients: map<string, Ec2Client>
    const platform: Platform

    /** Every cached client is bound to the region it is cached under. */
    ghost predicate Valid()
      reads this
    {
      forall region :: region in clients ==> clients[region].region == region
    }

    constructor (platform: Platform)
      ensures Valid() && clients == map[] && this.platform == platform
    {
      clients := map[];
      this.platform := platform;
    }

    /** Creates a region's client on its first request and returns the cached
        one afterwards; no other region's entry changes. */
    method GetClient(region: string) returns (r: Result<Ec2Client, Thrown>)
      requires Valid()
      modifies this`clients
      ensures Valid()
      ensures region in old(clients) ==> r == Ok(old(clients)[region]) && clients == old(clients)
      ensures region !in old(clients) && platform.clientFailure(region).Some? ==>
                r == Err(platform.clientFailure(region).value) && clients == old(clients)
      ensures region !in old(clients) && platform.clientFailure(region).None? ==>
                r.Ok? && fresh(r.value) && clients == old(clients)[region := r.value]
      ensures r.Ok? ==> r.value.region == region
    {
      if region !in clients {
        var failure := platform.clientFailure(region);
        if failure.Some? {
          return Err(failure.value);
        }
        var client := new Ec2Client(region);
        clients := clients[region := client];
      }
      return Ok(clients[region]);
    }

    /** The body of the `try` in one attempt: describe, then return on a
        running instance, throw on a missing or terminated one, or send the
        start command. */
    method TryAttempt(client: Ec2Client, instanceId: string, region: string) returns (outcome: AttemptOutcome)
      requires client.region == region
      modifies platform
      ensures var reply := platform.script.describeReply(|old(platform.describeLog)|);
              && outcome == AttemptOf(instanceId, region, reply, platform.script.startReply(|old(platform.startLog)|))
              && platform.describeLog == old(platform.describeLog) + [Call(instanceId, region)]
              && platform.startLog == old(platform.startLog) + (if SendsStart(reply) then [Call(instanceId, region)] else [])
      ensures platform.sleepLog == old(platform.sleepLog) && platform.clock == old(platform.clock)
    {
      var described := platform.Describe(client, instanceId);
      match described {
        case DescribeThrew(t) =>
          outcome := AttemptThrew(t);
        case NotFound =>
          outcome := AttemptThrew(NotFoundError(instanceId, region));
        case Found(state) =>
          if state == Some(Running) {
            return AttemptSucceeded(state, Some(Running));
          }
          if state == Some(Terminated) {
            return AttemptThrew(TERMINATED_ERROR);
          }
          var started := platform.Start(client, instanceId);
          match started {
            case StartThrew(t) =>
              outcome := AttemptThrew(t);
            case Starting(currentState) =>
              outcome := AttemptSucceeded(state, currentState);
          }
      }
    }

    /** One pass through the body of the `for` loop of `startInstance`:
        the `try` (an attempt) and, when it throws, the `catch`, which gives
        up after the last attempt and otherwise sleeps `5000 * attempt` ms.
        `exit` is the value the loop returns, if it returns now. */
    method Pass(client: Ec2Client, instanceId: string, region: string, attempt: nat, startTime: int,
                ghost before: Snapshot, ghost t: Trace, ghost started: nat)
      returns (exit: Option<StartResult>, ghost started': nat)
      requires client.region == region && startTime == before.clock
      requires Midway(instanceId, region, platform.script, before, t, attempt, started, platform.Snap())
      modifies platform
      ensures exit.None? ==>
                attempt < MAX_RETRIES &&
                Midway(instanceId, region, platform.script, before, t, attempt + 1, started', platform.Snap())
      ensures exit.Some? ==> Finished(instanceId, region, platform.script, before, t, exit.value, platform.Snap())
    {
      ghost var mid := platform.Snap();
      started' := started + if SendsStart(platform.script.describeReply(|mid.describeLog|)) then 1 else 0;
      var outcome := TryAttempt(client, instanceId, region);
      ghost var tried := platform.Snap();
      if outcome.AttemptSucceeded? || attempt == MAX_RETRIES {
        PassFinishes(instanceId, region, platform.script, before, t, attempt, started, mid, outcome, tried);
      }
      if outcome.AttemptSucceeded? {
        return Some(ResultOf(instanceId, region, startTime, platform.clock, outcome)), started';
      }
      var errorMessage := ErrorMessage(outcome.error);
      if attempt == MAX_RETRIES {
        return Some(NotStarted(instanceId, region, startTime, errorMessage)), started';
      }
      platform.Sleep(RETRY_DELAY_MS * attempt);
      PassContinues(instanceId, region, platform.script, before, t, attempt, started, mid, outcome, platform.Snap());
      return None, started';
    }

    /** The `for` loop of `startInstance`: the attempts made with one
        client, as `Retry` describes them. */
    method RetryLoop(client: Ec2Client, instanceId: string, region: string) returns (result: StartResult, ghost t: Trace)
      requires client.region == region
      modifies platform
      ensures Finished(instanceId, region, platform.script, old(platform.Snap()), t, result, platform.Snap())
    {
      var startTime := platform.clock;
      ghost var before := platform.Snap();
      t := Retry(instanceId, region, platform.script, |before.describeLog|, |before.startLog|, 1);
      ResumeStart(t);
      ghost var started: nat := 0;
      var attempt := 1;
      while attempt <= MAX_RETRIES
        invariant Midway(instanceId, region, platform.script, before, t, attempt, started, platform.Snap())
      {
        var exit;
        exit, started := Pass(client, instanceId, region, attempt, startTime, before, t, started);
        if exit.Some? {
          return exit.value, t;
        }
        attempt := attempt + 1;
      }
      // Every pass through the last attempt returns from the loop.
      assert false;
      return NotStarted(instanceId, region, startTime, MAX_RETRIES_REACHED), t;
    }

    /** `startInstance`: at most three attempts of describe, decide, start,
        with a `5000 * attempt` ms sleep after each failed attempt but the
        last. Only creating the client, which happens outside the `try`, can
        make the call reject. */
    method StartInstance(instanceId: string, region: string) returns (r: Settled)
      requires Valid()
      modifies this`clients, platform
      ensures Valid()
      ensures old(clients).Keys <= clients.Keys <= old(clients).Keys + {region}
      ensures forall k :: k in old(clients) ==> clients[k] == old(clients)[k]
      ensures r.Fulfilled? ==> Echoes(r.value, Instance(instanceId, region))
      ensures old(platform.describeLog) <= platform.describeLog
      ensures old(platform.startLog) <= platform.startLog
      ensures |platform.describeLog| <= |old(platform.describeLog)| + MAX_RETRIES
      ensures |platform.startLog| - |old(platform.startLog)| <= |platform.describeLog| - |old(platform.describeLog)|
      ensures region !in old(clients) && platform.clientFailure(region).Some? ==>
                && r == Rejected(platform.clientFailure(region).value)
                && platform.describeLog == old(platform.describeLog)
                && platform.startLog == old(platform.startLog)
                && platform.sleepLog == old(platform.sleepLog)
                && platform.clock == old(platform.clock)
      ensures region in old(clients) || platform.clientFailure(region).None? ==>
                var t := Retry(instanceId, region, platform.script,
                               |old(platform.describeLog)|, |old(platform.startLog)|, 1);
                && r == Fulfilled(ResultOf(instanceId, region, old(platform.clock), platform.clock, t.outcome))
                && platform.describeLog == old(platform.describeLog) + Repeat(Call(instanceId, region), t.describes)
                && platform.startLog == old(platform.startLog) + Repeat(Call(instanceId, region), t.starts)
                && platform.sleepLog == old(platform.sleepLog) + t.sleeps
                && platform.clock == old(platform.clock) + Total(t.sleeps)
      ensures StartCall(platform.script, platform.clientFailure, old(clients).Keys, Instance(instanceId, region),
                        old(platform.Snap())) == Step(r, platform.Snap(), clients.Keys)
    {
      ghost var before := platform.Snap();
      var got := GetClient(region);
      if got.Err? {
        StartCallRejects(platform.script, platform.clientFailure, old(clients).Keys, Instance(instanceId, region), before);
        return Rejected(got.error);
      }
      RetryCounts(instanceId, region, platform.script, |platform.describeLog|, |platform.startLog|);
      ghost var t: Trace;
      var result;
      result, t := RetryLoop(got.value, instanceId, region);
      StartCallFulfils(platform.script, platform.clientFailure, old(clients).Keys, Instance(instanceId, region),
                       before, t, result, platform.Snap());
      return Fulfilled(result);
    }

    /** `startMultipleInstances`: one call per instance, then the settled
        outcomes reassembled by index. */
    method StartMultipleInstances(instances: seq<Instance>) returns (results: seq<StartResult>, ghost settled: seq<Settled>)
      requires Valid()
      modifies this`clients, platform
      ensures Valid()
      ensures old(clients).Keys <= clients.Keys
      ensures forall k :: k in old(clients) ==> clients[k] == old(clients)[k]
      ensures var run := Batch(StartCallStep(platform.script, platform.clientFailure), old(clients).Keys, instances, old(platform.Snap()));
              settled == run.settled && platform.Snap() == run.after && clients.Keys == run.cached
      ensures |settled| == |instances| && results == Reassemble(instances, settled, platform.clock)
      ensures |results| == |instances|
      ensures forall i :: 0 <= i < |results| ==> Echoes(results[i], instances[i])
      ensures old(platform.describeLog) <= platform.describeLog
      ensures |platform.describeLog| <= |old(platform.describeLog)| + MAX_RETRIES * |instances|
      ensures |platform.startLog| - |old(platform.startLog)| <= |platform.describeLog| - |old(platform.describeLog)|
    {
      var outcomes: seq<Settled> := [];
      var i := 0;
      while i < |instances|
        invariant 0 <= i <= |instances| && |outcomes| == i
        invariant Valid() && old(clients).Keys <= clients.Keys
        invariant forall k :: k in old(clients) ==> clients[k] == old(clients)[k]
        invariant old(platform.describeLog) <= platform.describeLog
        invariant old(platform.startLog) <= platform.startLog
        invariant |platform.describeLog| <= |old(platform.describeLog)| + MAX_RETRIES * i
        invariant |platform.startLog| - |old(platform.startLog)| <= |platform.describeLog| - |old(platform.describeLog)|
        invariant Batch(StartCallStep(platform.script, platform.clientFailure), old(clients).Keys, instances[..i], old(platform.Snap())) ==
                  BatchRun(outcomes, platform.Snap(), clients.Keys)
      {
        var outcome := StartInstance(instances[i].instanceId, instances[i].region);
        assert instances[..i + 1][..i] == instances[..i];
        outcomes := outcomes + [outcome];
        i := i + 1;
      }
      assert instances[..i] == instances;
      results := Reassemble(instances, outcomes, platform.clock);
      settled := outcomes;
      BatchEchoes(platform.script, platform.clientFailure, old(clients).Keys, instances, old(platform.Snap()));
      ReassembleIsolates(instances, settled, platform.clock);
    }
  }
}
