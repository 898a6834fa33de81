/**
 * Readiness polling (`AparaviClient.wait_for_task_ready`) and task creation
 * followed by polling (`AparaviClient.create_and_wait_for_task`).
 *
 * The server and the wall clock are inputs: `statuses(i)` is what
 * `get_task_status` returns or raises on attempt i (`Client.GetTaskStatus`
 * derives it from the server's reply) and `clock(i)` is the number of seconds
 * elapsed since the call began when attempt i starts. The methods do not
 * sleep; the loop keeps the current delay in `delay`, and the schedule of
 * sleeps is stated on the function `Poll` (lemma `SleepSchedule`). The loop
 * reports how it ends as an `Ending`, which `Raise` turns into the value
 * returned or the exception raised.
 */
module Polling {
  import opened Json
  import opened Exceptions
  import opened Models
  import opened Client

  /** What the status endpoint and the clock do during one polling call. */
  datatype StatusFeed = StatusFeed(statuses: nat -> Result<ResultBase>, clock: nat -> int)

  /** The arguments of `wait_for_task_ready` (times in whole seconds). */
  datatype PollArgs = PollArgs(token: Json, taskType: Json, maxRetries: int, initialDelay: int, timeout: Option<int>)

  /** `(is_ready, last_status)`. */
  datatype Polled = Polled(ready: bool, lastStatus: Option<ResultBase>)

  /** A polling run: its outcome, the number of status checks made and the sleeps performed, in order. */
  datatype PollRun = PollRun(result: Result<Polled>, checks: nat, sleeps: seq<int>)

  /** How the loop ends: by returning, or by one of the three exceptions it raises itself. */
  datatype Ending =
    | Finished(polled: Polled)
    | OutOfTime
    | StillMissing
    | CheckRaised(cause: Exception)

  /** The loop's part of a run. */
  datatype Trace = Trace(ending: Ending, checks: nat, sleeps: seq<int>)

  /** How one status check ends, as the loop body sees it. */
  datatype StatusCheck =
    | Ready(status: ResultBase)
    | NotReady(status: ResultBase)
    | NotFound
    | Broken(exc: Exception)

  /** `result.data.get("serviceUp")` is truthy. */
  predicate ServiceUp(rb: ResultBase)
  {
    rb.data.JObj? && Truthy(GetOr(rb.data.entries, "serviceUp", JNull))
  }

  /**
   * The log line `result.data["notes"][0]`, evaluated when `notes` is truthy:
   * a dictionary has no key 0 and a number or boolean cannot be subscripted.
   */
  function NotesFailure(notes: Json): (r: Option<Exception>)
    ensures r.None? <==> !Truthy(notes) || notes.JArr? || notes.JStr?
  {
    if !Truthy(notes) then None
    else match notes
      case JObj(_) => Some(Exception(KeyError, "0"))
      case JNum(_) => Some(Exception(TypeError, "'int' object is not subscriptable"))
      case JBool(_) => Some(Exception(TypeError, "'bool' object is not subscriptable"))
      case _ => None
  }

  /**
   * One pass of the loop body's `try` block: a status whose service is up is
   * ready, one whose service is not up is not ready yet, TaskNotFoundError is
   * "not found", and every other exception (including one raised by the
   * `data.get` and `notes[0]` lookups) breaks the loop.
   */
  function Check(status: Result<ResultBase>): (r: StatusCheck)
    ensures r.NotFound? <==> status.Err? && status.exc.kind == TaskNotFoundError
    ensures r.Ready? ==> status == Ok(r.status) && ServiceUp(r.status)
    ensures r.NotReady? <==> status.Ok? && !ServiceUp(status.value) && (status.value.data.JObj? || !Truthy(status.value.data))
    ensures r.NotReady? ==> r.status == status.value
    ensures status.Err? && status.exc.kind != TaskNotFoundError ==> r == Broken(status.exc)
    // a service that is up, with readable notes, is ready
    ensures status.Ok? && ServiceUp(status.value) && NotesFailure(GetOr(status.value.data.entries, "notes", JNull)).None?
            ==> r == Ready(status.value)
    // the lookups themselves can fail: `get` on a truthy non-dictionary, or `notes[0]`
    ensures status.Ok? && Truthy(status.value.data) && !status.value.data.JObj?
            ==> r == Broken(MissingAttribute(status.value.data, "get"))
    ensures status.Ok? && ServiceUp(status.value) && NotesFailure(GetOr(status.value.data.entries, "notes", JNull)).Some?
            ==> r == Broken(NotesFailure(GetOr(status.value.data.entries, "notes", JNull)).value)
  {
    match status
    case Err(e) => if e.kind == TaskNotFoundError then NotFound else Broken(e)
    case Ok(rb) =>
      if !Truthy(rb.data) then NotReady(rb)
      else if !rb.data.JObj? then Broken(MissingAttribute(rb.data, "get"))
      else if !Truthy(GetOr(rb.data.entries, "serviceUp", JNull)) then NotReady(rb)
      else match NotesFailure(GetOr(rb.data.entries, "notes", JNull))
        case Some(e) => Broken(e)
        case None => Ready(rb)
  }

  /** `if timeout and elapsed > timeout`: None and 0 switch the check off. */
  predicate TimedOut(timeout: Option<int>, elapsed: int)
  {
    timeout.Some? && timeout.value != 0 && elapsed > timeout.value
  }

  function TimeoutError(a: PollArgs): Exception
  {
    Exception(TaskTimeoutError, "Task " + Str(a.token) + " failed to become ready within "
                                + (if a.timeout.Some? then IntToString(a.timeout.value) else "None")
                                + " seconds")
  }

  function GoneError(a: PollArgs): Exception
  {
    Exception(TaskNotFoundError, "Task " + Str(a.token) + " not found after "
                                 + IntToString(a.maxRetries) + " attempts")
  }

  function CheckFailed(e: Exception): Exception
  {
    Exception(AparaviError, "Error checking task status: " + e.message)
  }

  /** What the call returns or raises for a given ending of the loop. */
  function Raise(a: PollArgs, e: Ending): Result<Polled>
  {
    match e
    case Finished(polled) => Ok(polled)
    case OutOfTime => Err(TimeoutError(a))
    case StillMissing => Err(GoneError(a))
    case CheckRaised(cause) => Err(CheckFailed(cause))
  }

  /** The same trace, preceded by the given sleeps. */
  function Prefixed(sleeps: seq<int>, t: Trace): Trace
  {
    t.(sleeps := sleeps + t.sleeps)
  }

  /**
   * The loop from attempt `i` on, with `last` the last status retrieved so
   * far: the reference definition the method below is proved against.
   */
  function PollFrom(a: PollArgs, feed: StatusFeed, i: nat, last: Option<ResultBase>): (t: Trace)
    ensures t.checks >= i
    ensures t.ending.Finished? && t.ending.polled.ready
            ==> t.ending.polled.lastStatus.Some? && ServiceUp(t.ending.polled.lastStatus.value)
    decreases if i < a.maxRetries then a.maxRetries - i else 0
  {
    if i >= a.maxRetries then Trace(Finished(Polled(false, last)), i, [])
    else if TimedOut(a.timeout, feed.clock(i)) then Trace(OutOfTime, i, [])
    else match Check(feed.statuses(i))
      case Ready(st) => Trace(Finished(Polled(true, Some(st))), i + 1, [])
      case Broken(e) => Trace(CheckRaised(e), i + 1, [])
      case NotFound =>
        if i == a.maxRetries - 1 then Trace(StillMissing, i + 1, [])
        else Prefixed([a.initialDelay + 2 * (i + 1)], PollFrom(a, feed, i + 1, last))
      case NotReady(st) =>
        if i == a.maxRetries - 1 then Trace(Finished(Polled(false, Some(st))), i + 1, [])
        else Prefixed([a.initialDelay + 2 * (i + 1)], PollFrom(a, feed, i + 1, Some(st)))
  }

  /** `wait_for_task_ready` as a whole: the warm-up sleep, then the loop. */
  function Poll(a: PollArgs, feed: StatusFeed): (run: PollRun)
    // `time.sleep` refuses a negative warm-up before anything is checked
    ensures a.initialDelay < 0 <==> run.sleeps == []
    ensures a.initialDelay < 0 ==> run == PollRun(Err(Exception(ValueError, "sleep length must be non-negative")), 0, [])
    // otherwise the warm-up sleep comes first
    ensures a.initialDelay >= 0 ==> run.sleeps[0] == a.initialDelay
    // a ready result carries a status whose service is up
    ensures run.result.Ok? && run.result.value.ready
            ==> run.result.value.lastStatus.Some? && ServiceUp(run.result.value.lastStatus.value)
    // only the documented exceptions escape
    ensures run.result.Err? ==> run.result.exc.kind in {ValueError, TaskTimeoutError, TaskNotFoundError, AparaviError}
  {
    if a.initialDelay < 0 then PollRun(Err(Exception(ValueError, "sleep length must be non-negative")), 0, [])
    else
      var t := PollFrom(a, feed, 0, None);
      PollRun(Raise(a, t.ending), t.checks, [a.initialDelay] + t.sleeps)
  }

  /** `AparaviClient.wait_for_task_ready`. */
  method WaitForTaskReady(c: AparaviClient, a: PollArgs, feed: StatusFeed)
    returns (result: Result<Polled>, sent: seq<Request>)
    ensures result == Poll(a, feed).result
    ensures |sent| == Poll(a, feed).checks
    ensures forall j | 0 <= j < |sent| :: sent[j] == StatusRequest(c, a.token, a.taskType)
  {
    sent := [];
    if a.initialDelay < 0 {
      // time.sleep refuses a negative length
      result := Err(Exception(ValueError, "sleep length must be non-negative"));
      return;
    }
    PollIsLoop(a, feed);
    var ending;
    ending, sent := Loop(c, a, feed);
    result := Raise(a, ending);
  }

  /** The `for` loop: how it ends, and the status requests it sends. */
  method Loop(c: AparaviClient, a: PollArgs, feed: StatusFeed) returns (ending: Ending, sent: seq<Request>)
    ensures ending == PollFrom(a, feed, 0, None).ending
    ensures |sent| == PollFrom(a, feed, 0, None).checks
    ensures forall j | 0 <= j < |sent| :: sent[j] == StatusRequest(c, a.token, a.taskType)
  {
    sent := [];
    ghost var trace := PollFrom(a, feed, 0, None);
    var delay := a.initialDelay;
    var lastStatus: Option<ResultBase> := None;
    var attempt: nat := 0;
    while attempt < a.maxRetries
      invariant attempt == 0 || attempt < a.maxRetries
      invariant delay == a.initialDelay + 2 * attempt
      invariant |sent| == attempt
      invariant forall j | 0 <= j < |sent| :: sent[j] == StatusRequest(c, a.token, a.taskType)
      invariant trace.ending == PollFrom(a, feed, attempt, lastStatus).ending
      invariant trace.checks == PollFrom(a, feed, attempt, lastStatus).checks
      decreases a.maxRetries - attempt
    {
      if TimedOut(a.timeout, feed.clock(attempt)) {
        TimeoutEndsLoop(a, feed, attempt, lastStatus);
        return OutOfTime, sent;
      }
      sent := sent + [StatusRequest(c, a.token, a.taskType)];
      var outcome, remembered := Attempt(a, feed, attempt, lastStatus);
      if outcome.Some? {
        return outcome.value, sent;
      }
      ContinueStep(a, feed, attempt, lastStatus);
      lastStatus := remembered;
      delay := delay + 2;
      attempt := attempt + 1;
    }
    ending := Finished(Polled(false, lastStatus));
  }

  /** After the warm-up sleep, the outcome and the checks are the loop's. */
  lemma PollIsLoop(a: PollArgs, feed: StatusFeed)
    requires a.initialDelay >= 0
    ensures Poll(a, feed).result == Raise(a, PollFrom(a, feed, 0, None).ending)
    ensures Poll(a, feed).checks == PollFrom(a, feed, 0, None).checks
  {
  }

  /** A timed-out attempt ends the loop with no further check. */
  lemma TimeoutEndsLoop(a: PollArgs, feed: StatusFeed, i: nat, last: Option<ResultBase>)
    requires i < a.maxRetries && TimedOut(a.timeout, feed.clock(i))
    ensures PollFrom(a, feed, i, last) == Trace(OutOfTime, i, [])
  {
  }

  /**
   * The loop body after the timeout check: the `try` block, then the
   * final-attempt check. It yields how the loop ends when attempt `i` ends
   * it (by returning or by raising), and otherwise `last_status` for the
   * next attempt.
   */
  method Attempt(a: PollArgs, feed: StatusFeed, i: nat, last: Option<ResultBase>)
    returns (outcome: Option<Ending>, remembered: Option<ResultBase>)
    requires i < a.maxRetries && !TimedOut(a.timeout, feed.clock(i))
    ensures outcome.Some? ==> outcome.value == PollFrom(a, feed, i, last).ending
                              && PollFrom(a, feed, i, last).checks == i + 1
    ensures outcome.None? ==> i < a.maxRetries - 1 && Absorbed(a, feed, i) && remembered == Remembered(feed, i, last)
  {
    var check := Check(feed.statuses(i));
    remembered := last;
    if check.Ready? {
      return Some(Finished(Polled(true, Some(check.status)))), remembered;
    } else if check.Broken? {
      return Some(CheckRaised(check.exc)), remembered;
    } else if check.NotReady? {
      remembered := Some(check.status);
    }
    if i == a.maxRetries - 1 {
      // the final attempt: a task still not found is an error, a task still not ready is not
      outcome := if check.NotFound? then Some(StillMissing) else Some(Finished(Polled(false, remembered)));
    } else {
      outcome := None;
    }
  }

  /** Attempt `j` neither times out nor ends the loop: the task is not ready yet, or not yet visible. */
  predicate Absorbed(a: PollArgs, feed: StatusFeed, j: nat)
  {
    !TimedOut(a.timeout, feed.clock(j)) && (Check(feed.statuses(j)).NotReady? || Check(feed.statuses(j)).NotFound?)
  }

  /** Attempt `k` decides the outcome, whatever was retrieved before it. */
  predicate Decisive(a: PollArgs, feed: StatusFeed, k: nat)
  {
    k == a.maxRetries - 1 || !Absorbed(a, feed, k)
  }

  /** The status an absorbed attempt leaves behind as `last_status`. */
  function Remembered(feed: StatusFeed, j: nat, last: Option<ResultBase>): Option<ResultBase>
  {
    if Check(feed.statuses(j)).NotReady? then Some(Check(feed.statuses(j)).status) else last
  }

  /** One absorbed, non-final attempt: a sleep, then the loop from the next attempt. */
  lemma ContinueStep(a: PollArgs, feed: StatusFeed, i: nat, last: Option<ResultBase>)
    requires i < a.maxRetries - 1 && Absorbed(a, feed, i)
    ensures var run, next := PollFrom(a, feed, i, last), PollFrom(a, feed, i + 1, Remembered(feed, i, last));
            && run.ending == next.ending
            && run.checks == next.checks
            && run.sleeps == [a.initialDelay + 2 * (i + 1)] + next.sleeps
  {
    var next := PollFrom(a, feed, i + 1, Remembered(feed, i, last));
    assert PollFrom(a, feed, i, last) == Prefixed([a.initialDelay + 2 * (i + 1)], next);
  }

  /** Absorbed attempts are skipped over: the outcome is the one of the first decisive attempt. */
  lemma {:induction false} SkipAbsorbed(a: PollArgs, feed: StatusFeed, i: nat, last: Option<ResultBase>, k: nat)
    requires i <= k < a.maxRetries
    requires forall j | i <= j < k :: Absorbed(a, feed, j)
    requires Decisive(a, feed, k)
    ensures PollFrom(a, feed, i, last).ending == PollFrom(a, feed, k, None).ending
    ensures PollFrom(a, feed, i, last).checks == PollFrom(a, feed, k, None).checks
    decreases k - i
  {
    if i < k {
      ContinueStep(a, feed, i, last);
      SkipAbsorbed(a, feed, i + 1, Remembered(feed, i, last), k);
    } else {
      DecisiveIgnoresLast(a, feed, k, last);
    }
  }

  /** A decisive attempt's outcome does not depend on the statuses retrieved before it. */
  lemma DecisiveIgnoresLast(a: PollArgs, feed: StatusFeed, k: nat, last: Option<ResultBase>)
    requires k < a.maxRetries && Decisive(a, feed, k)
    ensures PollFrom(a, feed, k, last).ending == PollFrom(a, feed, k, None).ending
    ensures PollFrom(a, feed, k, last).checks == PollFrom(a, feed, k, None).checks
  {
    if !TimedOut(a.timeout, feed.clock(k)) {
      match Check(feed.statuses(k))
      case NotReady(_) => assert k == a.maxRetries - 1;
      case NotFound => assert k == a.maxRetries - 1;
      case _ =>
    }
  }

  /** If the first attempt that finds the service up is attempt k, polling reports ready after k + 1 checks. */
  lemma ReadyOnAttempt(a: PollArgs, feed: StatusFeed, k: nat, st: ResultBase)
    requires a.initialDelay >= 0 && k < a.maxRetries
    requires forall j | 0 <= j < k :: Absorbed(a, feed, j)
    requires !TimedOut(a.timeout, feed.clock(k)) && Check(feed.statuses(k)) == Ready(st)
    ensures Poll(a, feed).result == Ok(Polled(true, Some(st)))
    ensures Poll(a, feed).checks == k + 1
  {
    SkipAbsorbed(a, feed, 0, None, k);
  }

  /** A ready result always carries a status whose service is up. */
  lemma ReadyMeansServiceUp(a: PollArgs, feed: StatusFeed)
    ensures var run := Poll(a, feed);
            run.result.Ok? && run.result.value.ready
            ==> run.result.value.lastStatus.Some? && ServiceUp(run.result.value.lastStatus.value)
  {
  }

  /** A not-ready final attempt ends the loop without raising, with that attempt's status, after all checks. */
  lemma NotReadyOnFinalAttempt(a: PollArgs, feed: StatusFeed, st: ResultBase)
    requires a.initialDelay >= 0 && a.maxRetries >= 1
    requires forall j | 0 <= j < a.maxRetries - 1 :: Absorbed(a, feed, j)
    requires !TimedOut(a.timeout, feed.clock(a.maxRetries - 1))
    requires Check(feed.statuses(a.maxRetries - 1)) == NotReady(st)
    ensures Poll(a, feed).result == Ok(Polled(false, Some(st)))
    ensures Poll(a, feed).checks == a.maxRetries
  {
    SkipAbsorbed(a, feed, 0, None, a.maxRetries - 1);
  }

  /** Not found on the final attempt raises TaskNotFoundError, whatever earlier attempts returned. */
  lemma NotFoundOnFinalAttempt(a: PollArgs, feed: StatusFeed)
    requires a.initialDelay >= 0 && a.maxRetries >= 1
    requires forall j | 0 <= j < a.maxRetries - 1 :: Absorbed(a, feed, j)
    requires !TimedOut(a.timeout, feed.clock(a.maxRetries - 1))
    requires Check(feed.statuses(a.maxRetries - 1)) == NotFound
    ensures Poll(a, feed).result == Err(GoneError(a))
    ensures GoneError(a).kind == TaskNotFoundError
    ensures Poll(a, feed).checks == a.maxRetries
  {
    SkipAbsorbed(a, feed, 0, None, a.maxRetries - 1);
  }

  /** Elapsed time beyond a set timeout before attempt k raises TaskTimeoutError; attempt k is never made. */
  lemma TimesOutBeforeAttempt(a: PollArgs, feed: StatusFeed, k: nat)
    requires a.initialDelay >= 0 && k < a.maxRetries
    requires forall j | 0 <= j < k :: Absorbed(a, feed, j)
    requires TimedOut(a.timeout, feed.clock(k))
    ensures Poll(a, feed).result.Err? && Poll(a, feed).result.exc.kind == TaskTimeoutError
    ensures Poll(a, feed).checks == k
  {
    SkipAbsorbed(a, feed, 0, None, k);
  }

  /** Any other failure of a status check aborts at once, re-raised as a plain AparaviError. */
  lemma AbortsOnOtherError(a: PollArgs, feed: StatusFeed, k: nat, e: Exception)
    requires a.initialDelay >= 0 && k < a.maxRetries
    requires forall j | 0 <= j < k :: Absorbed(a, feed, j)
    requires !TimedOut(a.timeout, feed.clock(k)) && Check(feed.statuses(k)) == Broken(e)
    ensures Poll(a, feed).result == Err(Exception(AparaviError, "Error checking task status: " + e.message))
    ensures Poll(a, feed).checks == k + 1
  {
    SkipAbsorbed(a, feed, 0, None, k);
  }

  /** With no attempts allowed the call still sleeps once, then returns (False, None) without a check. */
  lemma NoAttempts(a: PollArgs, feed: StatusFeed)
    requires a.initialDelay >= 0 && a.maxRetries <= 0
    ensures Poll(a, feed) == PollRun(Ok(Polled(false, None)), 0, [a.initialDelay])
  {
  }

  /** The run ended before making the attempt it was at: a timeout, or no attempts at all. */
  predicate Stopped(a: PollArgs, run: PollRun)
  {
    (run.result.Err? && run.result.exc.kind == TaskTimeoutError) || a.maxRetries <= 0
  }

  /** The same, for the loop's own trace. */
  predicate Halted(a: PollArgs, t: Trace)
  {
    t.ending.OutOfTime? || a.maxRetries <= 0
  }

  /** Sleep log of the loop from attempt i: the j-th sleep is initialDelay + 2 * (i + 1 + j). */
  lemma {:induction false} PollFromSleeps(a: PollArgs, feed: StatusFeed, i: nat, last: Option<ResultBase>)
    requires i == 0 || i < a.maxRetries
    ensures var t := PollFrom(a, feed, i, last);
            && (forall j | 0 <= j < |t.sleeps| :: t.sleeps[j] == a.initialDelay + 2 * (i + 1 + j))
            && t.checks == i + |t.sleeps| + (if Halted(a, t) then 0 else 1)
            && (a.maxRetries > i ==> t.checks <= a.maxRetries)
    decreases if i < a.maxRetries then a.maxRetries - i else 0
  {
    if i < a.maxRetries && !TimedOut(a.timeout, feed.clock(i)) && i != a.maxRetries - 1 {
      match Check(feed.statuses(i))
      case NotFound => PollFromSleeps(a, feed, i + 1, last);
      case NotReady(st) => PollFromSleeps(a, feed, i + 1, Some(st));
      case _ =>
    }
  }

  /**
   * The delay schedule: one warm-up sleep of initialDelay, then after each
   * unsuccessful non-final attempt a sleep 2 seconds longer than the one
   * before (linear backoff). There is one sleep per check, plus one when the
   * run stopped before an attempt; never more than maxRetries checks.
   */
  lemma SleepSchedule(a: PollArgs, feed: StatusFeed)
    requires a.initialDelay >= 0
    ensures var run := Poll(a, feed);
            && |run.sleeps| >= 1
            && (forall j | 0 <= j < |run.sleeps| :: run.sleeps[j] == a.initialDelay + 2 * j)
            && |run.sleeps| == run.checks + (if Stopped(a, run) then 1 else 0)
            && (a.maxRetries > 0 ==> run.checks <= a.maxRetries)
  {
    var t := PollFrom(a, feed, 0, None);
    PollFromSleeps(a, feed, 0, None);
    assert Stopped(a, Poll(a, feed)) == Halted(a, t);
  }

  /** With the timeout unset or 0, the loop never ends in a timeout. */
  lemma {:induction false} NoTimeoutFrom(a: PollArgs, feed: StatusFeed, i: nat, last: Option<ResultBase>)
    requires a.timeout.None? || a.timeout == Some(0)
    ensures !PollFrom(a, feed, i, last).ending.OutOfTime?
    decreases if i < a.maxRetries then a.maxRetries - i else 0
  {
    if i < a.maxRetries && i != a.maxRetries - 1 {
      match Check(feed.statuses(i))
      case NotFound => NoTimeoutFrom(a, feed, i + 1, last);
      case NotReady(st) => NoTimeoutFrom(a, feed, i + 1, Some(st));
      case _ =>
    }
  }

  /** With the timeout unset or 0, polling never raises TaskTimeoutError. */
  lemma NoTimeoutWhenDisabled(a: PollArgs, feed: StatusFeed)
    requires a.timeout.None? || a.timeout == Some(0)
    ensures Poll(a, feed).result.Err? ==> Poll(a, feed).result.exc.kind != TaskTimeoutError
  {
    NoTimeoutFrom(a, feed, 0, None);
  }

  /** What the server does during `create_and_wait_for_task`. */
  datatype Backend = Backend(validateReply: HttpOutcome, createReply: HttpOutcome, status: StatusFeed)

  /** `(task_token, task_type, ready_status)`. */
  datatype Created = Created(token: Json, taskType: Json, status: ResultBase)

  /** `create_and_wait_for_task`: create the task, then poll it with the server-assigned token and type. */
  function CreateAndWait(c: AparaviClient, pipeline: Json, name: Option<string>, threads: Option<int>,
                         maxRetries: int, initialDelay: int, timeout: Option<int>, b: Backend): (x: Exchange<Created>)
    // a creation failure propagates unchanged and nothing is polled
    ensures var created := ExecutePipeline(c, pipeline, name, threads, b.validateReply, b.createReply);
            created.result.Err? ==> x == Exchange(Err(created.result.exc), created.sent)
    // every status request carries the token and the type the server assigned
    ensures var created := ExecutePipeline(c, pipeline, name, threads, b.validateReply, b.createReply);
            created.result.Ok? ==>
              && created.sent <= x.sent
              && forall j | |created.sent| <= j < |x.sent| ::
                   x.sent[j] == StatusRequest(c, created.result.value.token, created.result.value.taskType)
    // after creation, polling decides: one status request per check, the created task with the
    // ready status, a TaskTimeoutError for a task that does not become ready, or the polling error
    ensures var created := ExecutePipeline(c, pipeline, name, threads, b.validateReply, b.createReply);
            created.result.Ok? ==>
              var task := created.result.value;
              var run := Poll(PollArgs(task.token, task.taskType, maxRetries, initialDelay, timeout), b.status);
              && |x.sent| == |created.sent| + run.checks
              && (run.result.Ok? && run.result.value.ready ==>
                    run.result.value.lastStatus.Some?
                    && x.result == Ok(Created(task.token, task.taskType, run.result.value.lastStatus.value)))
              && (run.result.Ok? && !run.result.value.ready ==> x.result.Err? && x.result.exc.kind == TaskTimeoutError)
              && (run.result.Err? ==> x.result == Err(run.result.exc))
    // success hands back the created task and a status whose service is up
    ensures x.result.Ok? ==>
              var created := ExecutePipeline(c, pipeline, name, threads, b.validateReply, b.createReply);
              && created.result.Ok?
              && x.result.value.token == created.result.value.token
              && x.result.value.taskType == created.result.value.taskType
              && ServiceUp(x.result.value.status)
  {
    var created := ExecutePipeline(c, pipeline, name, threads, b.validateReply, b.createReply);
    if created.result.Err? then Exchange(Err(created.result.exc), created.sent)
    else
      var task := created.result.value;
      var run := Poll(PollArgs(task.token, task.taskType, maxRetries, initialDelay, timeout), b.status);
      var sent := created.sent + seq(run.checks, _ => StatusRequest(c, task.token, task.taskType));
      match run.result
      case Err(e) => Exchange(Err(e), sent)
      case Ok(polled) =>
        if !polled.ready then
          Exchange(Err(Exception(TaskTimeoutError, "Task " + Str(task.token) + " failed to become ready after "
                                                   + IntToString(maxRetries) + " attempts")), sent)
        else Exchange(Ok(Created(task.token, task.taskType, polled.lastStatus.value)), sent)
  }

  /** `AparaviClient.create_and_wait_for_task`. */
  method CreateAndWaitForTask(c: AparaviClient, pipeline: Json, name: Option<string>, threads: Option<int>,
                              maxRetries: int, initialDelay: int, timeout: Option<int>, b: Backend)
    returns (result: Result<Created>, sent: seq<Request>)
    ensures result == CreateAndWait(c, pipeline, name, threads, maxRetries, initialDelay, timeout, b).result
    ensures sent == CreateAndWait(c, pipeline, name, threads, maxRetries, initialDelay, timeout, b).sent
  {
    var created := ExecutePipeline(c, pipeline, name, threads, b.validateReply, b.createReply);
    sent := created.sent;
    if created.result.Err? {
      result := Err(created.result.exc);
      return;
    }
    var task := created.result.value;
    var polled, statusRequests := WaitForTaskReady(c, PollArgs(task.token, task.taskType, maxRetries, initialDelay, timeout), b.status);
    sent := sent + statusRequests;
    assert statusRequests == seq(|statusRequests|, _ => StatusRequest(c, task.token, task.taskType));
    match polled {
      case Err(e) =>
        result := Err(e);
      case Ok(p) =>
        if !p.ready {
          result := Err(Exception(TaskTimeoutError, "Task " + Str(task.token) + " failed to become ready after "
                                                   + IntToString(maxRetries) + " attempts"));
        } else {
          result := Ok(Created(task.token, task.taskType, p.lastStatus.value));
        }
    }
  }
}
