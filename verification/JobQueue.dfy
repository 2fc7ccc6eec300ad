/** A queued job: its states, its counted retries, the delay before a retry, and its stored record. */
module JobQueue {
  import opened Options
  import opened Sequences

  datatype Status = Pending | Enqueued | Started | Done | Failed

  const DEFAULT_MAX_RETRIES := 5
  const RETRY_INTERVAL := 600

  /** A number of seconds, or a pair between which the number is drawn. */
  datatype Delay = Seconds(n: int) | Range(lo: int, hi: int)

  /** One item of the retry pattern: from this retry on, wait so long. */
  datatype Entry = Entry(count: int, delay: Delay)

  /** The job in memory; times are in seconds, maxRetries 0 means no limit. */
  datatype JobData = JobData(status: Status, retry: int, maxRetries: nat, eta: Option<int>,
                             result: Option<string>, excInfo: Option<string>, identityKey: Option<string>,
                             enqueuedAt: Option<int>, startedAt: Option<int>, doneAt: Option<int>, workerPid: Option<nat>)

  /** How the function of a job ends. */
  datatype Ending = Returns(value: Option<string>) | Retryable(ignoreRetry: bool) | OtherError

  /** What `perform` does to its caller. */
  datatype Raised = Nothing | RetryableJobError | FailedJobError | Other

  // ------------------------------------------------------------------ perform

  function Performed(j: JobData, e: Ending): (JobData, Raised) {
    var tried := j.(retry := j.retry + 1);
    match e
    case Returns(v) => (tried.(result := v), Nothing)
    case Retryable(true) => (j, RetryableJobError)
    case Retryable(false) =>
      (tried, if j.maxRetries != 0 && tried.retry >= j.maxRetries then FailedJobError else RetryableJobError)
    case OtherError => (tried, Other)
  }

  // ------------------------------------------------------------------ the delay

  function CountOf(e: Entry): int { e.count }

  /** The scan over the sorted pattern, left at the first count above retry. */
  function Scan(items: seq<Entry>, retry: int, sofar: Delay): Delay {
    if items == [] || retry < items[0].count then sofar else Scan(items[1..], retry, items[0].delay)
  }

  predicate Falsy(seconds: Option<Delay>) {
    seconds == None || seconds == Some(Seconds(0))
  }

  /** The delay before it is drawn from its range. */
  function DelayFor(pattern: seq<Entry>, retry: int, seconds: Option<Delay>): Delay {
    if !Falsy(seconds) then seconds.value else Scan(SortBy(pattern, CountOf), retry, Seconds(RETRY_INTERVAL))
  }

  ghost predicate Drawn(d: Delay, s: int) {
    match d case Seconds(n) => s == n case Range(lo, hi) => lo <= s <= hi
  }

  predicate Drawable(d: Delay) {
    d.Range? ==> d.lo <= d.hi
  }

  // ------------------------------------------------------------------ the record

  /** The stored columns; unset dates and texts are None, an unset pid is 0. */
  datatype Record = Record(status: Status, retry: int, maxRetries: nat, eta: Option<int>,
                           result: Option<string>, excInfo: Option<string>, identityKey: Option<string>,
                           enqueuedAt: Option<int>, startedAt: Option<int>, doneAt: Option<int>, workerPid: nat)

  /** `x or False` for a text */
  function Truthy(s: Option<string>): Option<string> {
    if s == Some("") then None else s
  }

  /** `_prepare_common_stored_values` */
  function Stored(j: JobData): Record {
    Record(j.status, j.retry, j.maxRetries, j.eta, Truthy(j.result), j.excInfo, Truthy(j.identityKey),
           j.enqueuedAt, j.startedAt, j.doneAt, if j.workerPid.Some? then j.workerPid.value else 0)
  }

  /** `_load_from_db_record` */
  function Loaded(r: Record): JobData {
    JobData(r.status, r.retry, r.maxRetries, r.eta, Truthy(r.result), Truthy(r.excInfo), Truthy(r.identityKey),
            r.enqueuedAt, r.startedAt, r.doneAt, Some(r.workerPid))
  }

  // ------------------------------------------------------------------ the code

  class Job {
    const pattern: seq<Entry>
    var data: JobData

    constructor (pattern: seq<Entry>, maxRetries: Option<nat>, identityKey: Option<string>, seconds: Option<int>, now: int)
      ensures this.pattern == pattern
      ensures data == JobData(Pending, 0, if maxRetries.Some? then maxRetries.value else DEFAULT_MAX_RETRIES,
                              EtaAfter(if seconds.Some? then seconds.value else 0, now),
                              None, None, identityKey, None, None, None, None)
    {
      this.pattern := pattern;
      data := JobData(Pending, 0, if maxRetries.Some? then maxRetries.value else DEFAULT_MAX_RETRIES,
                      EtaAfter(if seconds.Some? then seconds.value else 0, now),
                      None, None, identityKey, None, None, None, None);
    }

    /** `perform` */
    method Perform(ending: Ending) returns (raised: Raised)
      modifies this
      ensures (data, raised) == Performed(old(data), ending)
      ensures data == match ending
                      case Returns(v) => old(data).(retry := old(data).retry + 1, result := v)
                      case Retryable(ignoreRetry) => old(data).(retry := old(data).retry + if ignoreRetry then 0 else 1)
                      case OtherError => old(data).(retry := old(data).retry + 1)
    {
      data := data.(retry := data.retry + 1);
      match ending
      case Returns(v) =>
        data := data.(result := v);
        raised := Nothing;
      case Retryable(ignoreRetry) =>
        if ignoreRetry {
          data := data.(retry := data.retry - 1);
          return RetryableJobError;
        } else if data.maxRetries == 0 {
          return RetryableJobError;
        } else if data.retry >= data.maxRetries {
          return FailedJobError;
        }
        return RetryableJobError;
      case OtherError =>
        raised := Other;
    }

    /** `_get_retry_seconds`; None when the range is empty, which raises. */
    method GetRetrySeconds(seconds: Option<Delay>) returns (r: Option<int>)
      ensures r.Some? == Drawable(DelayFor(pattern, data.retry, seconds))
      ensures r.Some? ==> Drawn(DelayFor(pattern, data.retry, seconds), r.value)
    {
      var delay := Seconds(RETRY_INTERVAL);
      if Falsy(seconds) && pattern != [] {
        var items := SortBy(pattern, CountOf);
        var k := 0;
        while k < |items|
          invariant 0 <= k <= |items|
          invariant Scan(items, data.retry, Seconds(RETRY_INTERVAL)) == Scan(items[k..], data.retry, delay)
        {
          assert items[k..][1..] == items[k + 1..];
          if data.retry >= items[k].count {
            delay := items[k].delay;
          } else {
            break;
          }
          k := k + 1;
        }
      } else if !Falsy(seconds) {
        delay := seconds.value;
      }
      match delay
      case Seconds(n) => r := Some(n);
      case Range(lo, hi) =>
        if lo > hi {
          return None;
        }
        var s :| lo <= s <= hi;
        r := Some(s);
    }

    /** `postpone`; false when no delay can be drawn. */
    method Postpone(result: Option<string>, seconds: Option<Delay>, now: int) returns (ok: bool)
      modifies this
      ensures ok == Drawable(DelayFor(pattern, old(data).retry, seconds))
      ensures !ok ==> data == old(data)
      ensures ok ==> exists s :: Drawn(DelayFor(pattern, old(data).retry, seconds), s)
                                 && data == ToPostponed(old(data), result, s, now)
                                 && data == old(data).(eta := if s == 0 then None else Some(now + s), excInfo := None,
                                                       result := if result.Some? then result else old(data).result)
    {
      var s := GetRetrySeconds(seconds);
      if s.None? {
        return false;
      }
      data := data.(eta := EtaAfter(s.value, now), excInfo := None,
                    result := if result.Some? then result else data.result);
      return true;
    }

    method SetPending(result: Option<string>, resetRetry: bool)
      modifies this
      ensures data == old(data).(status := Pending, enqueuedAt := None, startedAt := None, workerPid := None,
                                 retry := if resetRetry then 0 else old(data).retry,
                                 result := if result.Some? then result else old(data).result)
    {
      data := data.(status := Pending, enqueuedAt := None, startedAt := None, workerPid := None);
      if resetRetry {
        data := data.(retry := 0);
      }
      if result.Some? {
        data := data.(result := result);
      }
    }

    method SetStarted(now: int, pid: nat)
      modifies this
      ensures data == old(data).(status := Started, startedAt := Some(now), workerPid := Some(pid))
    {
      data := data.(status := Started, startedAt := Some(now), workerPid := Some(pid));
    }

    method SetDone(result: Option<string>, now: int)
      modifies this
      ensures data == old(data).(status := Done, excInfo := None, doneAt := Some(now),
                                 result := if result.Some? then result else old(data).result)
    {
      data := data.(status := Done, excInfo := None, doneAt := Some(now));
      if result.Some? {
        data := data.(result := result);
      }
    }

    method SetFailed(excInfo: Option<string>)
      modifies this
      ensures data == old(data).(status := Failed, excInfo := if excInfo.Some? then excInfo else old(data).excInfo)
    {
      data := data.(status := Failed);
      if excInfo.Some? {
        data := data.(excInfo := excInfo);
      }
    }

    /** `store` into a queue.job record, and `load` from it. */
    method Store() returns (r: Record)
      ensures r == Stored(data)
    {
      r := Record(data.status, data.retry, data.maxRetries, data.eta, Truthy(data.result), data.excInfo,
                  Truthy(data.identityKey), data.enqueuedAt, data.startedAt, data.doneAt,
                  if data.workerPid.Some? then data.workerPid.value else 0);
    }

    method Load(r: Record)
      modifies this
      ensures data == Loaded(r)
    {
      data := Loaded(r);
    }

    /** `runjob`: the record it leaves, and whether it raises nothing. The start is stored at once; what ends
        the attempt is stored in a transaction of its own. */
    method RunJob(r: Record, run: Attempted) returns (r': Record, ok: bool)
      modifies this
      ensures Ran(pattern, r, run, r', ok) && Happens(pattern, r, Run(run, ok), r')
    {
      if r.status != Enqueued {
        return r, true;
      }
      Load(r);
      SetStarted(run.startedAt, run.pid);
      r' := Store();
      var raised := Perform(run.ending);
      match raised
      case Nothing =>
        SetDone(None, run.endedAt);
        r' := Store();
        ok := true;
      case RetryableJobError =>
        ok := Postpone(Some(run.message), run.seconds, run.endedAt);
        if ok {
          SetPending(None, false);
          r' := Store();
        }
      case _ =>
        SetFailed(Some(run.message));
        r' := Store();
        ok := false;
    }

    /** `_change_job_state` to pending, by `requeue`. */
    method Requeue(r: Record) returns (r': Record)
      modifies this
      ensures r' == Stored(ToPending(Loaded(r), None, true)) && Happens(pattern, r, Event.Requeue, r')
    {
      Load(r);
      SetPending(None, true);
      r' := Store();
    }

    /** `_change_job_state` to done, by `button_done`. */
    method ButtonDone(r: Record, result: string, now: int) returns (r': Record)
      modifies this
      ensures r' == Stored(ToDone(Loaded(r), Some(result), now)) && Happens(pattern, r, MarkDone(result, now), r')
    {
      Load(r);
      SetDone(Some(result), now);
      r' := Store();
    }
  }

  /** The setter of eta: a delay of zero is falsy and leaves no eta. */
  function EtaAfter(seconds: int, now: int): Option<int> {
    if seconds == 0 then None else Some(now + seconds)
  }

  function ToPending(j: JobData, result: Option<string>, resetRetry: bool): JobData {
    j.(status := Pending, enqueuedAt := None, startedAt := None, workerPid := None,
       retry := if resetRetry then 0 else j.retry,
       result := if result.Some? then result else j.result)
  }

  function ToStarted(j: JobData, now: int, pid: nat): JobData {
    j.(status := Started, startedAt := Some(now), workerPid := Some(pid))
  }

  function ToDone(j: JobData, result: Option<string>, now: int): JobData {
    j.(status := Done, excInfo := None, doneAt := Some(now), result := if result.Some? then result else j.result)
  }

  function ToPostponed(j: JobData, result: Option<string>, s: int, now: int): JobData {
    j.(eta := EtaAfter(s, now), excInfo := None, result := if result.Some? then result else j.result)
  }

  function ToFailed(j: JobData, excInfo: Option<string>): JobData {
    j.(status := Failed, excInfo := if excInfo.Some? then excInfo else j.excInfo)
  }

  /** One attempt: how the function ends, the text of its error and the delay that the error asks for, the
      worker and the times. */
  datatype Attempted = Attempted(ending: Ending, message: string, seconds: Option<Delay>, pid: nat, startedAt: int, endedAt: int)

  function Begun(r: Record, run: Attempted): JobData {
    ToStarted(Loaded(r), run.startedAt, run.pid)
  }

  /** What `runjob` leaves of a record: an attempt that fails to draw its delay leaves the job started. */
  ghost predicate Ran(pattern: seq<Entry>, r: Record, run: Attempted, r': Record, ok: bool) {
    if r.status != Enqueued then r' == r && ok
    else
      var p := Performed(Begun(r, run), run.ending);
      var delay := DelayFor(pattern, p.0.retry, run.seconds);
      match p.1
      case Nothing => ok && r' == Stored(ToDone(p.0, None, run.endedAt))
      case RetryableJobError =>
        && ok == Drawable(delay)
        && (!ok ==> r' == Stored(Begun(r, run)))
        && (ok ==> exists s :: Drawn(delay, s)
                     && r' == Stored(ToPending(ToPostponed(p.0, Some(run.message), s, run.endedAt), None, false)))
      case _ => !ok && r' == Stored(ToFailed(p.0, Some(run.message)))
  }

  // ------------------------------------------------------------------ the pattern lookup

  /** The entry in force at retry: its count is the greatest that is not above retry. */
  ghost predicate InForce(pattern: seq<Entry>, retry: int, e: Entry) {
    && e in pattern && e.count <= retry
    && forall x :: x in pattern && x.count <= retry ==> x.count <= e.count
  }

  ghost predicate DistinctCounts(pattern: seq<Entry>) {
    forall x, y :: x in pattern && y in pattern && x.count == y.count ==> x == y
  }

  /** The first entry of a sorted pattern has the smallest count. */
  lemma {:induction false} FirstIsLeast(items: seq<Entry>)
    requires items != [] && SortedBy(items, CountOf)
    ensures SortedBy(items[1..], CountOf)
    ensures forall x :: x in items ==> items[0].count <= x.count
    ensures forall x :: x in items <==> x == items[0] || x in items[1..]
  {
    forall x | x in items ensures items[0].count <= x.count {
      var i :| 0 <= i < |items| && items[i] == x;
      assert CountOf(items[0]) <= CountOf(items[i]);
    }
  }

  /** The scan of a sorted pattern stops at the entry in force. */
  lemma {:induction false} ScanSorted(items: seq<Entry>, retry: int, sofar: Delay)
    requires SortedBy(items, CountOf)
    ensures (forall x :: x in items ==> retry < x.count) ==> Scan(items, retry, sofar) == sofar
    ensures (exists x :: x in items && x.count <= retry) ==>
              exists e :: InForce(items, retry, e) && Scan(items, retry, sofar) == e.delay
  {
    if items != [] {
      var rest := items[1..];
      FirstIsLeast(items);
      hide SortedBy;
      if retry >= items[0].count {
        ScanSorted(rest, retry, items[0].delay);
        if exists x :: x in rest && x.count <= retry {
          var e :| InForce(rest, retry, e) && Scan(rest, retry, items[0].delay) == e.delay;
          assert InForce(items, retry, e);
        } else {
          assert InForce(items, retry, items[0]);
        }
      }
    }
  }

  /** For every pattern and every retry count: the delay of the entry with the greatest count not
      above the retry count, or the default interval if there is none. */
  lemma {:induction false} PatternDelay(pattern: seq<Entry>, retry: int, seconds: Option<Delay>)
    requires DistinctCounts(pattern) && Falsy(seconds)
    ensures forall e :: InForce(pattern, retry, e) ==> DelayFor(pattern, retry, seconds) == e.delay
    ensures (forall x :: x in pattern ==> retry < x.count) <==> !exists e :: InForce(pattern, retry, e)
    ensures (forall x :: x in pattern ==> retry < x.count) ==>
              DelayFor(pattern, retry, seconds) == Seconds(RETRY_INTERVAL)
  {
    var items := SortBy(pattern, CountOf);
    SortBySorted(pattern, CountOf);
    ScanSorted(items, retry, Seconds(RETRY_INTERVAL));
    if exists x :: x in items && x.count <= retry {
      var e :| InForce(items, retry, e) && Scan(items, retry, Seconds(RETRY_INTERVAL)) == e.delay;
      assert InForce(pattern, retry, e);
    }
  }

  /** A delay that the error asks for comes before the pattern, unless it is zero. */
  lemma {:induction false} GivenDelay(pattern: seq<Entry>, retry: int, d: Delay)
    ensures d != Seconds(0) ==> DelayFor(pattern, retry, Some(d)) == d
    ensures DelayFor(pattern, retry, Some(Seconds(0))) == DelayFor(pattern, retry, None)
  {
  }

  // ------------------------------------------------------------------ store and load

  /** What storing and loading keeps: everything but empty texts, which become unset, and an unset
      pid, which becomes 0. A second store changes nothing more. */
  lemma {:induction false} StoreLoadRoundTrip(j: JobData)
    ensures Loaded(Stored(j)) == j.(result := Truthy(j.result), excInfo := Truthy(j.excInfo),
                                    identityKey := Truthy(j.identityKey),
                                    workerPid := Some(if j.workerPid.Some? then j.workerPid.value else 0))
    ensures Loaded(Stored(Loaded(Stored(j)))) == Loaded(Stored(j))
    ensures Loaded(Stored(j)) == j <==>
            j.workerPid.Some? && j.result != Some("") && j.excInfo != Some("") && j.identityKey != Some("")
  {
  }

  // ------------------------------------------------------------------ counted retries over runs

  /** An attempt that ended in a retryable error, and whether `perform` gave up with FailedJobError. */
  datatype Attempt = Attempt(ignored: bool, gaveUp: bool)

  function Counted(log: seq<Attempt>): nat {
    if log == [] then 0
    else Counted(log[..|log| - 1]) + if log[|log| - 1].ignored then 0 else 1
  }

  /** The job in memory and its record, each with the attempts it has seen: loading the record takes
      the job back to what was stored. */
  datatype Machine = Machine(mem: JobData, log: seq<Attempt>, record: Record, storedLog: seq<Attempt>)

  datatype Step = Perform(ignoreRetry: bool) | Postpone(s: int, now: int, result: Option<string>)
                | KeepPending(result: Option<string>) | Enqueue(now: int) | Start(now: int, pid: nat)
                | Fail(excInfo: Option<string>) | Store | Load

  /** One step; a job whose attempt gave up is performed no more. */
  ghost predicate Next(m: Machine, s: Step, m': Machine) {
    match s
    case Perform(ignoreRetry) =>
      && (forall a :: a in m.log ==> !a.gaveUp)
      && var p := Performed(m.mem, Retryable(ignoreRetry));
         m' == m.(mem := p.0, log := m.log + [Attempt(ignoreRetry, p.1 == FailedJobError)])
    case Postpone(s, now, result) => m' == m.(mem := ToPostponed(m.mem, result, s, now))
    case KeepPending(result) => m' == m.(mem := ToPending(m.mem, result, false))
    case Enqueue(now) => m' == m.(record := m.record.(status := Enqueued, enqueuedAt := Some(now)))
    case Start(now, pid) => m' == m.(mem := ToStarted(m.mem, now, pid))
    case Fail(excInfo) => m' == m.(mem := ToFailed(m.mem, excInfo))
    case Store => m' == m.(record := Stored(m.mem), storedLog := m.log)
    case Load => m' == m.(mem := Loaded(m.record), log := m.storedLog)
  }

  ghost predicate Initial(m: Machine) {
    m.log == [] && m.storedLog == [] && m.mem.retry == 0 && m.record == Stored(m.mem)
  }

  /** The counter is right for a log: it counts the attempts that were not ignored, stays within the
      limit, and exactly the attempt that reaches the limit gave up. */
  ghost predicate CountedRight(retry: int, limit: nat, log: seq<Attempt>) {
    && retry == Counted(log) && retry <= limit
    && forall i :: 0 <= i < |log| ==> (log[i].gaveUp <==> !log[i].ignored && Counted(log[..i + 1]) == limit)
  }

  /** One more attempt below the limit keeps the counter right. */
  lemma {:induction false} CountedSnoc(log: seq<Attempt>, a: Attempt, limit: nat)
    requires CountedRight(Counted(log), limit, log) && Counted(log) < limit
    requires a.gaveUp <==> !a.ignored && Counted(log) + 1 == limit
    ensures Counted(log + [a]) == Counted(log) + if a.ignored then 0 else 1
    ensures CountedRight(Counted(log + [a]), limit, log + [a])
  {
    var all := log + [a];
    assert all[..|all| - 1] == log && all[..|all|] == all;
    forall i | 0 <= i < |log| ensures all[i] == log[i] && all[..i + 1] == log[..i + 1] {
    }
  }

  /** An attempt counts unless it is ignored, and gives up at the limit. */
  lemma {:induction false} PerformCounts(j: JobData, ignoreRetry: bool, log: seq<Attempt>)
    requires j.maxRetries > 0 && CountedRight(j.retry, j.maxRetries, log)
    requires forall a :: a in log ==> !a.gaveUp
    ensures var p := Performed(j, Retryable(ignoreRetry));
            && p.0.maxRetries == j.maxRetries
            && CountedRight(p.0.retry, j.maxRetries, log + [Attempt(ignoreRetry, p.1 == FailedJobError)])
  {
    BelowLimit(log, j.maxRetries);
    CountedSnoc(log, Attempt(ignoreRetry, Performed(j, Retryable(ignoreRetry)).1 == FailedJobError), j.maxRetries);
  }

  /** Every step keeps the counters of job and record right. */
  lemma {:induction false} StepCounts(m: Machine, s: Step, m': Machine, limit: nat)
    requires limit > 0 && Next(m, s, m')
    requires m.mem.maxRetries == limit && m.record.maxRetries == limit
    requires CountedRight(m.mem.retry, limit, m.log) && CountedRight(m.record.retry, limit, m.storedLog)
    ensures m'.mem.maxRetries == limit && m'.record.maxRetries == limit
    ensures CountedRight(m'.mem.retry, limit, m'.log) && CountedRight(m'.record.retry, limit, m'.storedLog)
  {
    hide CountedRight;
    if s.Perform? {
      PerformCounts(m.mem, s.ignoreRetry, m.log);
    }
  }

  /** While no attempt has given up, the counter is below the limit. */
  lemma {:induction false} BelowLimit(log: seq<Attempt>, limit: nat)
    requires limit > 0 && CountedRight(Counted(log), limit, log)
    requires forall a :: a in log ==> !a.gaveUp
    ensures Counted(log) < limit
  {
    if log != [] {
      var n := |log| - 1;
      assert log[n] in log && log[..n + 1] == log;
      if log[n].ignored {
        var before := log[..n];
        forall i | 0 <= i < |before| ensures before[i] == log[i] && before[..i + 1] == log[..i + 1] {
        }
        BelowLimit(before, limit);
      }
    }
  }

  ghost predicate StepAt(ms: seq<Machine>, steps: seq<Step>, i: nat)
    requires i < |steps| && |ms| == |steps| + 1
  {
    Next(ms[i], steps[i], ms[i + 1])
  }

  /** Over every run of attempts that all end in a retryable error, the retry counter of the job equals
      the number of attempts that were not ignored, never exceeds the limit, and FailedJobError is
      raised at exactly the attempt that reaches it. */
  lemma {:induction false} RunCounts(ms: seq<Machine>, steps: seq<Step>, n: nat, limit: nat)
    requires |ms| == |steps| + 1 && n <= |steps| && Initial(ms[0])
    requires limit > 0 && ms[0].mem.maxRetries == limit
    requires forall i :: 0 <= i < |steps| ==> StepAt(ms, steps, i)
    ensures ms[n].mem.maxRetries == limit && ms[n].record.maxRetries == limit
    ensures CountedRight(ms[n].mem.retry, limit, ms[n].log)
    ensures CountedRight(ms[n].record.retry, limit, ms[n].storedLog)
    decreases n
  {
    if n > 0 {
      RunCounts(ms, steps, n - 1, limit);
      assert StepAt(ms, steps, n - 1);
      StepCounts(ms[n - 1], steps[n - 1], ms[n], limit);
    }
  }

  /** Postponing by the pattern waits the delay of the entry in force; the eta is now plus that delay
      unless the delay is zero, which leaves no eta. */
  lemma {:induction false} PostponedByPattern(pattern: seq<Entry>, retry: int, e: Entry, s: int, now: int)
    requires DistinctCounts(pattern) && InForce(pattern, retry, e) && Drawn(DelayFor(pattern, retry, None), s)
    ensures Drawn(e.delay, s)
    ensures EtaAfter(s, now) == Some(now + s) <==> s != 0
  {
    PatternDelay(pattern, retry, None);
  }

  /** Running a queued job whose function ends in a retryable error is a run of these steps. */
  lemma {:induction false} RunIsSteps(pattern: seq<Entry>, m: Machine, run: Attempted, r': Record, ok: bool)
    returns (ms: seq<Machine>, steps: seq<Step>)
    requires Ran(pattern, m.record, run, r', ok) && m.record.status == Enqueued && run.ending.Retryable?
    requires forall a :: a in m.storedLog ==> !a.gaveUp
    ensures |ms| == |steps| + 1 && ms[0] == m && ms[|steps|].record == r'
    ensures forall i :: 0 <= i < |steps| ==> StepAt(ms, steps, i)
  {
    var j, p := Begun(m.record, run), Performed(Begun(m.record, run), run.ending);
    var log := m.storedLog + [Attempt(run.ending.ignoreRetry, p.1 == FailedJobError)];
    var begun := Machine(j, m.storedLog, Stored(j), m.storedLog);
    var tried := begun.(mem := p.0, log := log);
    ms := [m, m.(mem := Loaded(m.record), log := m.storedLog), m.(mem := j, log := m.storedLog), begun];
    steps := [Load, Start(run.startedAt, run.pid), Store];
    if p.1 == FailedJobError {
      var failed := tried.(mem := ToFailed(p.0, Some(run.message)));
      ms := ms + [tried, failed, failed.(record := r', storedLog := log)];
      steps := steps + [Perform(run.ending.ignoreRetry), Fail(Some(run.message)), Store];
    } else if ok {
      var s :| Drawn(DelayFor(pattern, p.0.retry, run.seconds), s)
               && r' == Stored(ToPending(ToPostponed(p.0, Some(run.message), s, run.endedAt), None, false));
      var postponed := tried.(mem := ToPostponed(p.0, Some(run.message), s, run.endedAt));
      var pending := postponed.(mem := ToPending(postponed.mem, None, false));
      ms := ms + [tried, postponed, pending, pending.(record := r', storedLog := log)];
      steps := steps + [Perform(run.ending.ignoreRetry), Postpone(s, run.endedAt, Some(run.message)), KeepPending(None), Store];
    }
  }

  // ------------------------------------------------------------------ what a run leaves of the record

  predicate InDelay(d: Delay, s: int) {
    match d case Seconds(n) => s == n case Range(lo, hi) => lo <= s && s <= hi
  }

  /** The seconds a retryable attempt is postponed by: those the error asks for, or those of the pattern entry in
      force at the counter, or ten minutes. */
  ghost predicate Waits(pattern: seq<Entry>, retry: int, seconds: Option<Delay>, s: int) {
    if seconds.Some? && seconds.value != Seconds(0) then InDelay(seconds.value, s)
    else if exists e :: InForce(pattern, retry, e) then forall e :: InForce(pattern, retry, e) ==> InDelay(e.delay, s)
    else s == 600
  }

  lemma {:induction false} DrawnWaits(pattern: seq<Entry>, retry: int, seconds: Option<Delay>, s: int)
    requires DistinctCounts(pattern) && Drawn(DelayFor(pattern, retry, seconds), s)
    ensures Waits(pattern, retry, seconds, s)
  {
    if seconds.Some? {
      GivenDelay(pattern, retry, seconds.value);
    }
    PatternDelay(pattern, retry, None);
  }

  /** A stored text: an empty one is unset. */
  function Kept(text: Option<string>): Option<string> { if text == Some("") then None else text }

  /** A run that succeeds. */
  lemma {:induction false} RunSucceeds(pattern: seq<Entry>, r: Record, run: Attempted, r': Record, ok: bool)
    requires r.status == Enqueued && Ran(pattern, r, run, r', ok) && run.ending.Returns?
    ensures ok
    ensures r' == r.(status := Done, retry := r.retry + 1, result := Kept(run.ending.value), excInfo := None,
                     identityKey := Kept(r.identityKey), startedAt := Some(run.startedAt), doneAt := Some(run.endedAt),
                     workerPid := run.pid)
  {
  }

  /** A run that fails, for another error or at the limit. */
  lemma {:induction false} RunFails(pattern: seq<Entry>, r: Record, run: Attempted, r': Record, ok: bool)
    requires r.status == Enqueued && Ran(pattern, r, run, r', ok)
    requires run.ending.OtherError? || (run.ending == Retryable(false) && r.maxRetries != 0 && r.retry + 1 >= r.maxRetries)
    ensures !ok
    ensures r' == r.(status := Failed, retry := r.retry + 1, result := Kept(r.result), excInfo := Some(run.message),
                     identityKey := Kept(r.identityKey), startedAt := Some(run.startedAt), workerPid := run.pid)
  {
  }

  /** A run that is to be tried again: it waits from the end of the attempt, if a delay can be drawn. */
  lemma {:induction false} RunPostpones(pattern: seq<Entry>, r: Record, run: Attempted, r': Record, ok: bool)
    requires r.status == Enqueued && Ran(pattern, r, run, r', ok) && DistinctCounts(pattern) && run.ending.Retryable?
    requires run.ending.ignoreRetry || r.maxRetries == 0 || r.retry + 1 < r.maxRetries
    ensures var retry := if run.ending.ignoreRetry then r.retry else r.retry + 1;
            if ok
            then exists s :: Waits(pattern, retry, run.seconds, s)
                   && r' == r.(status := Pending, retry := retry, eta := if s == 0 then None else Some(run.endedAt + s),
                               result := Kept(Some(run.message)), excInfo := None, identityKey := Kept(r.identityKey),
                               enqueuedAt := None, startedAt := None, workerPid := 0)
            else r' == r.(status := Started, result := Kept(r.result), excInfo := Kept(r.excInfo),
                          identityKey := Kept(r.identityKey), startedAt := Some(run.startedAt), workerPid := run.pid)
  {
    if ok {
      var p := Performed(Begun(r, run), run.ending);
      var s :| Drawn(DelayFor(pattern, p.0.retry, run.seconds), s)
               && r' == Stored(ToPending(ToPostponed(p.0, Some(run.message), s, run.endedAt), None, false));
      DrawnWaits(pattern, p.0.retry, run.seconds, s);
      hide Waits, Drawn, DelayFor;
    }
  }

  /** A job that is put back starts over, and one that is marked as done keeps its counter. */
  lemma {:induction false} ButtonsLeave(pattern: seq<Entry>, r: Record, e: Event, r': Record)
    requires Happens(pattern, r, e, r')
    ensures e.Requeue? ==>
              r' == r.(status := Pending, retry := 0, result := Kept(r.result), excInfo := Kept(r.excInfo),
                       identityKey := Kept(r.identityKey), enqueuedAt := None, startedAt := None, workerPid := 0)
    ensures e.MarkDone? ==>
              r' == r.(status := Done, result := Kept(Some(e.result)), excInfo := None,
                       identityKey := Kept(r.identityKey), doneAt := Some(e.now))
  {
  }

  // ------------------------------------------------------------------ the life of a stored job

  /** The runner queues a pending job, or puts it back when the server does not answer; the server runs it;
      a user puts it back into the queue or marks it as done. */
  datatype Event = ToQueue(now: int) | FromQueue | Run(run: Attempted, ok: bool) | Requeue | MarkDone(result: string, now: int)

  ghost predicate Happens(pattern: seq<Entry>, r: Record, e: Event, r': Record) {
    match e
    case ToQueue(now) => r.status == Pending && r' == r.(status := Enqueued, enqueuedAt := Some(now))
    case FromQueue => r' == if r.status == Enqueued then r.(status := Pending, enqueuedAt := None, startedAt := None) else r
    case Run(run, ok) => Ran(pattern, r, run, r', ok)
    case Requeue => r' == Stored(ToPending(Loaded(r), None, true))
    case MarkDone(result, now) => r' == Stored(ToDone(Loaded(r), Some(result), now))
  }

  /** How the attempts since the last requeue ended; one that failed to draw its delay was not stored. */
  ghost function Endings(log: seq<Ending>, r: Record, e: Event, r': Record): seq<Ending> {
    match e
    case Requeue => []
    case Run(run, _) => if r.status == Enqueued && r'.status != Started then log + [run.ending] else log
    case _ => log
  }

  function Tries(log: seq<Ending>): nat {
    if log == [] then 0 else Tries(log[..|log| - 1]) + if log[|log| - 1] == Retryable(true) then 0 else 1
  }

  /** The last attempt failed for another error, or it was the one that reached the limit. */
  ghost predicate GaveUp(limit: nat, log: seq<Ending>) {
    && log != []
    && (log[|log| - 1].OtherError? || (log[|log| - 1] == Retryable(false) && limit > 0 && Tries(log) == limit))
  }

  /** The stored counter is the number of counted attempts since the last requeue; a job that is not done
      has failed exactly if the last attempt gave up, and otherwise all its attempts were retryable and one
      more is left. */
  ghost predicate LifeInv(limit: nat, r: Record, log: seq<Ending>) {
    && r.maxRetries == limit && r.retry == Tries(log) && (limit > 0 ==> r.retry <= limit)
    && (r.status != Done ==> (r.status == Failed <==> GaveUp(limit, log)))
    && (r.status !in {Done, Failed} ==> (limit > 0 ==> r.retry < limit) && forall e :: e in log ==> e.Retryable?)
  }

  lemma {:induction false} TriesSnoc(log: seq<Ending>, e: Ending)
    ensures Tries(log + [e]) == Tries(log) + if e == Retryable(true) then 0 else 1
    ensures forall x :: x in log + [e] <==> x in log || x == e
  {
    var all := log + [e];
    assert all[..|all| - 1] == log;
  }

  lemma {:induction false} RunKeepsLife(pattern: seq<Entry>, limit: nat, log: seq<Ending>, r: Record, run: Attempted,
                                        ok: bool, r': Record)
    requires LifeInv(limit, r, log) && Ran(pattern, r, run, r', ok) && r.status == Enqueued
    ensures LifeInv(limit, r', if r'.status == Started then log else log + [run.ending])
  {
    TriesSnoc(log, run.ending);
    hide Tries, DelayFor;
  }

  lemma {:induction false} EventKeepsLife(pattern: seq<Entry>, limit: nat, log: seq<Ending>, r: Record, e: Event, r': Record)
    requires LifeInv(limit, r, log) && Happens(pattern, r, e, r')
    ensures LifeInv(limit, r', Endings(log, r, e, r'))
  {
    if e.Run? && r.status == Enqueued {
      RunKeepsLife(pattern, limit, log, r, e.run, e.ok, r');
    }
  }

  ghost predicate LifeStep(pattern: seq<Entry>, rs: seq<Record>, es: seq<Event>, logs: seq<seq<Ending>>, i: nat)
    requires i < |es| && |rs| == |logs| == |es| + 1
  {
    Happens(pattern, rs[i], es[i], rs[i + 1]) && logs[i + 1] == Endings(logs[i], rs[i], es[i], rs[i + 1])
  }

  /** Over the whole life of a stored job, whatever its attempts end in: the counter is the number of counted
      attempts since the last requeue and never exceeds the limit, a pending or queued job has an attempt
      left, and a job that is not done has failed exactly if its last attempt gave up. */
  lemma {:induction false} LifeCounts(pattern: seq<Entry>, rs: seq<Record>, es: seq<Event>, logs: seq<seq<Ending>>, n: nat)
    requires n <= |es| && |rs| == |logs| == |es| + 1
    requires rs[0].status == Pending && rs[0].retry == 0 && logs[0] == []
    requires forall i :: 0 <= i < |es| ==> LifeStep(pattern, rs, es, logs, i)
    ensures LifeInv(rs[0].maxRetries, rs[n], logs[n])
    decreases n
  {
    if n > 0 {
      LifeCounts(pattern, rs, es, logs, n - 1);
      assert LifeStep(pattern, rs, es, logs, n - 1);
      EventKeepsLife(pattern, rs[0].maxRetries, logs[n - 1], rs[n - 1], es[n - 1], rs[n]);
    }
  }

  /** An attempt whose delay cannot be drawn is not counted, and the job stays started until a user acts. */
  lemma {:induction false} UndrawableIsLost(pattern: seq<Entry>, r: Record, run: Attempted, r': Record, ok: bool)
    requires r.status == Enqueued && Ran(pattern, r, run, r', ok)
    ensures r'.status == Started <==>
            run.ending.Retryable?
            && (run.ending.ignoreRetry || r.maxRetries == 0 || r.retry + 1 < r.maxRetries)
            && !Drawable(DelayFor(pattern, if run.ending.ignoreRetry then r.retry else r.retry + 1, run.seconds))
    ensures r'.status == Started ==>
              && r'.retry == r.retry
              && forall e, next :: Happens(pattern, r', e, next) ==> next == r' || e.Requeue? || e.MarkDone?
  {
    hide DelayFor;
  }
}
