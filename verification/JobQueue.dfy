/** The durable job queue: leases, backoff and bounded retries, first as steps on a
    table, then as the object every worker calls. */
module JobQueue {
  import opened Domain
  import opened Seqs

  type JobId = int
  type Kind = int
  type Worker = int

  datatype JobStatus = Queued | Leased | RetryWait | Succeeded | JobFailed

  /** What a worker last said about its progress. */
  datatype Note = Note(current: Option<int>, total: Option<int>, message: Option<string>)

  function Or<T>(now: Option<T>, before: Option<T>): Option<T> {
    if now.Some? then now else before
  }

  /** A heartbeat leaves out what it has nothing new to say about. */
  function Noted(before: Note, told: Note): Note {
    Note(Or(told.current, before.current), Or(told.total, before.total), Or(told.message, before.message))
  }

  datatype Job = Job(
    kind: Kind,
    priority: int,
    created: real,
    key: Option<string>,
    status: JobStatus,
    attempts: nat,
    maxAttempts: int,
    owner: Option<Worker>,
    leaseExpires: Option<real>,
    heartbeat: Option<real>,
    started: Option<real>,
    completed: Option<real>,
    scheduled: Option<real>,
    cancelRequested: Option<real>,
    progress: Note)

  /** Rows of the job-event table. */
  datatype Entry =
    | Enqueued(job: JobId)
    | Claimed(job: JobId, worker: Worker, attempt: nat, at: real)
    | CancelAsked(job: JobId)
    | Progressed(job: JobId, note: Note)
    | Completed(job: JobId)
    | RetryScheduled(job: JobId, attempt: nat, at: real, until: real)
    | FailedForGood(job: JobId, attempt: nat)
    | LeaseReaped(job: JobId)

  datatype Table = Table(jobs: map<JobId, Job>, log: seq<Entry>) {
    function Put(id: JobId, j: Job, e: Entry): Table {
      Table(jobs[id := j], log + [e])
    }
  }

  // ----- backoff

  datatype Backoff = Backoff(base: real, max: real, jitter: real)

  function Pow2(n: nat): real {
    if n == 0 then 1.0 else 2.0 * Pow2(n - 1)
  }

  /** The exponential part of `delay_for`, without the jitter. */
  function Delay(b: Backoff, attempt: int): real {
    var e := b.base * Pow2(if attempt > 1 then attempt - 1 else 0);
    if e < b.max then e else b.max
  }

  /** How often an amount that has doubled `n` times contains the first one. */
  ghost function Doubled(n: nat): nat {
    if n == 0 then 1 else Doubled(n - 1) + Doubled(n - 1)
  }

  /** A wait of the `k`-th attempt: the base for the first, doubling with every further
      one, but never more than the ceiling. */
  ghost predicate WaitsAs(b: Backoff, k: int, wait: real) {
    var full := b.base * (if k >= 1 then Doubled(k - 1) else 1) as real;
    wait <= full && wait <= b.max && (wait == full || wait == b.max)
  }

  lemma DelayIs(b: Backoff, attempt: int)
    ensures WaitsAs(b, attempt, Delay(b, attempt))
    ensures attempt == 1 ==> Delay(b, attempt) == if b.base <= b.max then b.base else b.max
  {
    PowersAgree(if attempt > 1 then attempt - 1 else 0);
  }

  lemma {:induction false} PowersAgree(n: nat)
    ensures Pow2(n) == Doubled(n) as real
  {
    if n > 0 {
      PowersAgree(n - 1);
    }
  }

  // ----- steps

  datatype Action =
    | Enqueue(id: JobId, kind: Kind, priority: int, maxAttempts: int, key: string, now: real)
    | Claim(id: JobId, worker: Worker, kinds: seq<Kind>, lease: real, now: real)
    | Heartbeat(id: JobId, worker: Worker, lease: real, now: real, told: Note)
    | Cancel(id: JobId, now: real)
    | Complete(id: JobId, now: real)
    | Fail(id: JobId, retryable: bool, now: real, draw: real)
    | Requeue(now: real)
    | Reap(id: JobId, now: real)

  predicate Due(j: Job, kinds: seq<Kind>, now: real) {
    && j.status == Queued
    && (kinds == [] || j.kind in kinds)
    && (j.scheduled.None? || j.scheduled.value <= now)
  }

  /** Claimed before: higher priority, or the same and older. */
  predicate NoWorse(a: Job, b: Job) {
    a.priority > b.priority || (a.priority == b.priority && a.created <= b.created)
  }

  predicate KeyTaken(t: Table, key: string) {
    key != "" && exists id :: id in t.jobs && t.jobs[id].key == Some(key)
  }

  /** What each operation finds before it acts. An expired lease is the only one reaped. */
  ghost predicate Enabled(t: Table, b: Backoff, a: Action) {
    match a
    case Enqueue(id, _, _, _, key, _) => id !in t.jobs && !KeyTaken(t, key)
    case Claim(id, _, kinds, _, now) =>
      && id in t.jobs && Due(t.jobs[id], kinds, now)
      && forall x :: x in t.jobs && Due(t.jobs[x], kinds, now) ==> NoWorse(t.jobs[id], t.jobs[x])
    case Heartbeat(id, worker, _, _, _) => id in t.jobs && t.jobs[id].status == Leased && t.jobs[id].owner == Some(worker)
    case Cancel(id, _) => id in t.jobs && t.jobs[id].status !in {Succeeded, JobFailed}
    case Complete(id, _) => id in t.jobs
    case Fail(id, _, _, draw) => id in t.jobs && 0.0 <= draw <= b.jitter
    case Requeue(_) => true
    case Reap(id, now) => id in t.jobs && Expired(t.jobs[id], now)
  }

  predicate Expired(j: Job, now: real) {
    j.status == Leased && j.leaseExpires.Some? && j.leaseExpires.value < now
  }

  function NewJob(kind: Kind, priority: int, maxAttempts: int, key: string, now: real): Job {
    Job(kind, priority, now, if key == "" then None else Some(key), Queued, 0, maxAttempts,
        None, None, None, None, None, None, None, Note(None, None, None))
  }

  function Requeued(jobs: map<JobId, Job>, now: real): map<JobId, Job> {
    map id | id in jobs ::
      if jobs[id].status == RetryWait && jobs[id].scheduled.Some? && jobs[id].scheduled.value <= now
      then jobs[id].(status := Queued) else jobs[id]
  }

  function Beaten(j: Job, lease: real, now: real, told: Note): Job {
    j.(leaseExpires := Some(now + lease), heartbeat := Some(now), progress := Noted(j.progress, told))
  }

  /** A new total alone is saved but not logged. */
  predicate Speaks(told: Note) {
    told.message.Some? || told.current.Some?
  }

  predicate Retries(j: Job, retryable: bool) {
    retryable && j.attempts < j.maxAttempts
  }

  function Next(t: Table, b: Backoff, a: Action): Table
    requires a.Enqueue? || a.Requeue? || a.id in t.jobs
  {
    match a
    case Enqueue(id, kind, priority, maxAttempts, key, now) =>
      t.Put(id, NewJob(kind, priority, maxAttempts, key, now), Enqueued(id))
    case Claim(id, worker, _, lease, now) =>
      var j := t.jobs[id];
      t.Put(id, j.(status := Leased, owner := Some(worker), leaseExpires := Some(now + lease), heartbeat := Some(now),
                   started := if j.started.Some? then j.started else Some(now), attempts := j.attempts + 1),
            Claimed(id, worker, j.attempts + 1, now))
    case Heartbeat(id, worker, lease, now, told) =>
      var j := Beaten(t.jobs[id], lease, now, told);
      if Speaks(told) then t.Put(id, j, Progressed(id, j.progress)) else t.(jobs := t.jobs[id := j])
    case Cancel(id, now) =>
      t.Put(id, t.jobs[id].(cancelRequested := Some(now)), CancelAsked(id))
    case Complete(id, now) =>
      t.Put(id, t.jobs[id].(status := Succeeded, completed := Some(now), owner := None, leaseExpires := None), Completed(id))
    case Fail(id, retryable, now, draw) =>
      var j := t.jobs[id].(owner := None, leaseExpires := None);
      var until := now + Delay(b, j.attempts) + draw;
      if Retries(j, retryable)
      then t.Put(id, j.(status := RetryWait, scheduled := Some(until)), RetryScheduled(id, j.attempts, now, until))
      else t.Put(id, j.(status := JobFailed, completed := Some(now)), FailedForGood(id, j.attempts))
    case Requeue(now) => t.(jobs := Requeued(t.jobs, now))
    case Reap(id, _) =>
      t.Put(id, t.jobs[id].(status := Queued, owner := None, leaseExpires := None), LeaseReaped(id))
  }

  // ----- what the log says about one job

  function Claims(log: seq<Entry>, id: JobId): nat {
    if log == [] then 0
    else Claims(log[..|log| - 1], id) + if IsClaim(log[|log| - 1], id) then 1 else 0
  }

  function Reaps(log: seq<Entry>, id: JobId): nat {
    if log == [] then 0
    else Reaps(log[..|log| - 1], id) + if log[|log| - 1] == LeaseReaped(id) then 1 else 0
  }

  predicate IsClaim(e: Entry, id: JobId) {
    e.Claimed? && e.job == id
  }

  predicate IsRetry(e: Entry, id: JobId) {
    e.RetryScheduled? && e.job == id
  }

  /** Entries that hand a claimed job back: a retryable failure or a reaped lease. */
  predicate Frees(e: Entry, id: JobId) {
    IsRetry(e, id) || e == LeaseReaped(id)
  }

  /** Claimed, and not handed back since. */
  predicate Held(log: seq<Entry>, id: JobId) {
    log != [] &&
    var e := log[|log| - 1];
    IsClaim(e, id) || (!Frees(e, id) && Held(log[..|log| - 1], id))
  }

  function LastRetry(log: seq<Entry>, id: JobId): (r: Option<Entry>)
    ensures r.Some? ==> IsRetry(r.value, id)
  {
    if log == [] then None
    else if IsRetry(log[|log| - 1], id) then Some(log[|log| - 1])
    else LastRetry(log[..|log| - 1], id)
  }

  /** No claim while held, none before its backoff has passed, and every backoff is the
      exponential delay of the attempt it follows, and at most the jitter more. */
  predicate Orderly(log: seq<Entry>, b: Backoff, id: JobId) {
    log == [] ||
    var init, e := log[..|log| - 1], log[|log| - 1];
    && Orderly(init, b, id)
    && (IsClaim(e, id) ==> !Held(init, id) && (LastRetry(init, id).Some? ==> e.at >= LastRetry(init, id).value.until))
    && (IsRetry(e, id) ==>
          e.attempt == Claims(init, id) && e.at + Delay(b, e.attempt) <= e.until <= e.at + Delay(b, e.attempt) + b.jitter)
  }

  function Most(j: Job): int {
    if j.maxAttempts > 1 then j.maxAttempts else 1
  }

  ghost predicate JobOk(j: Job, log: seq<Entry>, b: Backoff, id: JobId) {
    && (j.status == Leased <==> j.owner.Some?) && (j.owner.Some? <==> j.leaseExpires.Some?)
    && j.attempts == Claims(log, id)
    && j.attempts <= Most(j) + Reaps(log, id)
    && (j.status in {Queued, RetryWait} ==> j.attempts < Most(j) + Reaps(log, id) && !Held(log, id))
    && (j.scheduled == match LastRetry(log, id) case Some(e) => Some(e.until) case None => None)
    && Orderly(log, b, id)
  }

  ghost predicate Sane(t: Table, b: Backoff) {
    && (forall id :: id in t.jobs ==> JobOk(t.jobs[id], t.log, b, id))
    && (forall e :: e in t.log ==> e.job in t.jobs)
    && (forall x, y :: x in t.jobs && y in t.jobs && t.jobs[x].key.Some? && t.jobs[x].key == t.jobs[y].key ==> x == y)
  }

  // ----- every step keeps it

  lemma OtherJob(log: seq<Entry>, e: Entry, b: Backoff, id: JobId, j: Job)
    requires JobOk(j, log, b, id) && e.job != id
    ensures JobOk(j, log + [e], b, id)
  {
    assert (log + [e])[..|log|] == log;
  }

  lemma {:induction false} Unmentioned(log: seq<Entry>, b: Backoff, id: JobId)
    requires forall e :: e in log ==> e.job != id
    ensures Claims(log, id) == 0 && Reaps(log, id) == 0 && !Held(log, id) && LastRetry(log, id).None? && Orderly(log, b, id)
  {
    if log != [] {
      assert log[|log| - 1] in log;
      Unmentioned(log[..|log| - 1], b, id);
    }
  }

  lemma PutKeeps(t: Table, b: Backoff, id: JobId, j: Job, e: Entry)
    requires Sane(t, b) && e.job == id
    requires JobOk(j, t.log + [e], b, id)
    requires j.key.Some? ==> forall x :: x in t.jobs && x != id ==> t.jobs[x].key != j.key
    ensures Sane(t.Put(id, j, e), b)
  {
    var t' := t.Put(id, j, e);
    forall x | x in t'.jobs ensures JobOk(t'.jobs[x], t'.log, b, x) {
      if x != id {
        OtherJob(t.log, e, b, x, t.jobs[x]);
      }
    }
  }

  lemma StepKeeps(t: Table, b: Backoff, a: Action)
    requires Sane(t, b) && Enabled(t, b, a)
    ensures Sane(Next(t, b, a), b)
  {
    match a
    case Enqueue(id, kind, priority, maxAttempts, key, now) => EnqueueKeeps(t, b, a);
    case Requeue(now) => RequeueKeeps(t, b, now);
    case Heartbeat(id, worker, lease, now, told) => HeartbeatKeeps(t, b, a);
    case _ => EntryKeeps(t, b, a);
  }

  lemma EnqueueKeeps(t: Table, b: Backoff, a: Action)
    requires Sane(t, b) && a.Enqueue? && Enabled(t, b, a)
    ensures Sane(Next(t, b, a), b)
  {
    Unmentioned(t.log, b, a.id);
    var e := Enqueued(a.id);
    assert (t.log + [e])[..|t.log|] == t.log;
    PutKeeps(t, b, a.id, NewJob(a.kind, a.priority, a.maxAttempts, a.key, a.now), e);
  }

  lemma RequeueKeeps(t: Table, b: Backoff, now: real)
    requires Sane(t, b)
    ensures Sane(Next(t, b, Requeue(now)), b)
  {
    var t' := Next(t, b, Requeue(now));
    forall id | id in t'.jobs ensures JobOk(t'.jobs[id], t'.log, b, id) {
      assert JobOk(t.jobs[id], t.log, b, id);
    }
  }

  lemma HeartbeatKeeps(t: Table, b: Backoff, a: Action)
    requires Sane(t, b) && a.Heartbeat? && Enabled(t, b, a)
    ensures Sane(Next(t, b, a), b)
  {
    var t' := Next(t, b, a);
    var j := Beaten(t.jobs[a.id], a.lease, a.now, a.told);
    assert JobOk(t.jobs[a.id], t.log, b, a.id);
    if Speaks(a.told) {
      var e := Progressed(a.id, j.progress);
      assert (t.log + [e])[..|t.log|] == t.log;
      PutKeeps(t, b, a.id, j, e);
    } else {
      forall id | id in t'.jobs ensures JobOk(t'.jobs[id], t'.log, b, id) {
        assert JobOk(t.jobs[id], t.log, b, id);
      }
    }
  }

  lemma ClaimOk(t: Table, b: Backoff, a: Action)
    requires Sane(t, b) && Enabled(t, b, a) && (a.Claim? || a.Reap?)
    ensures JobOk(Next(t, b, a).jobs[a.id], Next(t, b, a).log, b, a.id)
  {
    hide Delay;
    var e := Next(t, b, a).log[|t.log|];
    assert (t.log + [e])[..|t.log|] == t.log;
    assert JobOk(t.jobs[a.id], t.log, b, a.id);
  }

  lemma FailOk(t: Table, b: Backoff, a: Action)
    requires Sane(t, b) && Enabled(t, b, a) && a.Fail?
    ensures JobOk(Next(t, b, a).jobs[a.id], Next(t, b, a).log, b, a.id)
  {
    hide Delay;
    var e := Next(t, b, a).log[|t.log|];
    assert (t.log + [e])[..|t.log|] == t.log;
    assert JobOk(t.jobs[a.id], t.log, b, a.id);
  }

  lemma ReportOk(t: Table, b: Backoff, a: Action)
    requires Sane(t, b) && Enabled(t, b, a) && (a.Cancel? || a.Complete?)
    ensures JobOk(Next(t, b, a).jobs[a.id], Next(t, b, a).log, b, a.id)
  {
    hide Delay;
    var e := Next(t, b, a).log[|t.log|];
    assert (t.log + [e])[..|t.log|] == t.log;
    assert JobOk(t.jobs[a.id], t.log, b, a.id);
  }

  lemma EntryKeeps(t: Table, b: Backoff, a: Action)
    requires Sane(t, b) && Enabled(t, b, a) && !a.Enqueue? && !a.Requeue? && !a.Heartbeat?
    ensures Sane(Next(t, b, a), b)
  {
    hide JobOk, Delay;
    if a.Fail? { FailOk(t, b, a); } else if a.Claim? || a.Reap? { ClaimOk(t, b, a); } else { ReportOk(t, b, a); }
    var t' := Next(t, b, a);
    assert t' == t.Put(a.id, t'.jobs[a.id], t'.log[|t.log|]);
    PutKeeps(t, b, a.id, t'.jobs[a.id], t'.log[|t.log|]);
  }

  // ----- every run

  /** Any interleaving of any number of workers: each action acts on the table the
      previous one left. */
  ghost predicate Runs(t: Table, b: Backoff, acts: seq<Action>, end: Table)
    decreases |acts|
  {
    if acts == [] then end == t
    else Enabled(t, b, acts[0]) && Runs(Next(t, b, acts[0]), b, acts[1..], end)
  }

  lemma {:induction false} RunKeeps(t: Table, b: Backoff, acts: seq<Action>, end: Table)
    requires Sane(t, b) && Runs(t, b, acts, end)
    ensures Sane(end, b)
    decreases |acts|
  {
    if acts != [] {
      StepKeeps(t, b, acts[0]);
      RunKeeps(Next(t, b, acts[0]), b, acts[1..], end);
    }
  }

  const EMPTY := Table(map[], [])

  /** Lease safety and bounded work, over all runs: a job is leased exactly when it
      has an owner and an expiry; its attempts are its claims; and they exceed what
      it was allowed only by leases that ran out. */
  lemma LeasesAndAttempts(b: Backoff, acts: seq<Action>, end: Table, id: JobId)
    requires Runs(EMPTY, b, acts, end) && id in end.jobs
    ensures var j := end.jobs[id];
      && (j.status == Leased <==> j.owner.Some?) && (j.owner.Some? <==> j.leaseExpires.Some?)
      && j.attempts == |ClaimsOf(end.log, id)|
      && j.attempts <= (if j.maxAttempts > 1 then j.maxAttempts else 1) + multiset(end.log)[LeaseReaped(id)]
  {
    RunKeeps(EMPTY, b, acts, end);
    ClaimsCount(end.log, id);
    ReapsCount(end.log, id);
  }

  /** Where the log says that the job was claimed. */
  ghost function ClaimsOf(log: seq<Entry>, id: JobId): set<nat> {
    set i: nat | i < |log| && log[i].Claimed? && log[i].job == id
  }

  lemma {:induction false} ClaimsCount(log: seq<Entry>, id: JobId)
    ensures Claims(log, id) == |ClaimsOf(log, id)|
  {
    if log == [] {
      assert ClaimsOf(log, id) == {};
    } else {
      var init := log[..|log| - 1];
      ClaimsCount(init, id);
      assert ClaimsOf(log, id) == ClaimsOf(init, id) + if IsClaim(log[|log| - 1], id) then {|log| - 1} else {};
    }
  }

  lemma {:induction false} ReapsCount(log: seq<Entry>, id: JobId)
    ensures Reaps(log, id) == multiset(log)[LeaseReaped(id)]
  {
    if log != [] {
      ReapsCount(log[..|log| - 1], id);
      assert log == log[..|log| - 1] + [log[|log| - 1]];
    }
  }

  lemma {:induction false} HeldSince(log: seq<Entry>, id: JobId, i: nat)
    requires i < |log| && IsClaim(log[i], id) && forall k :: i < k < |log| ==> !Frees(log[k], id)
    ensures Held(log, id)
  {
    if i < |log| - 1 {
      HeldSince(log[..|log| - 1], id, i);
    }
  }

  lemma {:induction false} OrderlyBefore(log: seq<Entry>, b: Backoff, id: JobId, n: nat)
    requires Orderly(log, b, id) && n <= |log|
    ensures Orderly(log[..n], b, id)
    decreases |log|
  {
    if n < |log| {
      OrderlyBefore(log[..|log| - 1], b, id, n);
      assert log[..|log| - 1][..n] == log[..n];
    } else {
      assert log[..n] == log;
    }
  }

  lemma AtClaim(log: seq<Entry>, b: Backoff, id: JobId, k: nat)
    requires Orderly(log, b, id) && k < |log| && IsClaim(log[k], id)
    ensures !Held(log[..k], id)
    ensures LastRetry(log[..k], id).Some? ==> log[k].at >= LastRetry(log[..k], id).value.until
  {
    OrderlyBefore(log, b, id, k + 1);
    assert log[..k + 1][..k] == log[..k];
  }

  /** Between two claims of one job there is always a retryable failure or a reaped
      lease of that job. */
  lemma ClaimsAreSeparated(b: Backoff, acts: seq<Action>, end: Table, id: JobId, i: nat, k: nat)
    requires Runs(EMPTY, b, acts, end) && id in end.jobs
    requires i < k < |end.log| && IsClaim(end.log[i], id) && IsClaim(end.log[k], id)
    ensures exists m :: i < m < k && Frees(end.log[m], id)
  {
    hide Orderly, Runs, Held;
    RunKeeps(EMPTY, b, acts, end);
    AtClaim(end.log, b, id, k);
    if forall m :: i < m < k ==> !Frees(end.log[m], id) {
      HeldSince(end.log[..k], id, i);
    }
  }

  lemma {:induction false} LastRetryAt(log: seq<Entry>, id: JobId, i: nat)
    requires i < |log| && IsRetry(log[i], id) && forall k :: i < k < |log| ==> !IsRetry(log[k], id)
    ensures LastRetry(log, id) == Some(log[i])
  {
    if i < |log| - 1 {
      LastRetryAt(log[..|log| - 1], id, i);
    }
  }

  /** A job that failed is not claimed again before the base delay, doubled once for each
      earlier attempt, or the ceiling, has passed, however `fail`, `requeue` and `claim`
      interleave and whatever the clock reads; and it is set to wait no longer than that
      and the jitter. */
  lemma BackoffIsRespected(b: Backoff, acts: seq<Action>, end: Table, id: JobId, i: nat, k: nat)
    requires Runs(EMPTY, b, acts, end) && id in end.jobs
    requires i < k < |end.log| && IsRetry(end.log[i], id) && IsClaim(end.log[k], id)
    requires forall m :: i < m < k ==> !IsRetry(end.log[m], id)
    ensures end.log[i].attempt == |ClaimsOf(end.log[..i], id)|
    ensures var n, wait := end.log[i].attempt, end.log[k].at - end.log[i].at;
      && (wait >= b.max || wait >= b.base * (if n >= 1 then Doubled(n - 1) else 1) as real)
      && (n == 1 ==> wait >= b.max || wait >= b.base)
    ensures exists d :: WaitsAs(b, end.log[i].attempt, d) && d <= end.log[i].until - end.log[i].at <= d + b.jitter
  {
    hide ClaimsOf, Doubled, Delay, Runs, Orderly, Held, WaitsAs, Claims, LastRetry, Sane;
    RunKeeps(EMPTY, b, acts, end);
    ClaimsCount(end.log[..i], id);
    SaneOrderly(end, b, id);
    AtClaim(end.log, b, id, k);
    AtRetry(end.log, b, id, i);
    LastRetryAt(end.log[..k], id, i);
    DelayIs(b, end.log[i].attempt);
    WaitCovers(b, end.log[i].attempt, Delay(b, end.log[i].attempt), end.log[k].at - end.log[i].at);
  }

  lemma WaitCovers(b: Backoff, n: int, d: real, wait: real)
    requires WaitsAs(b, n, d) && wait >= d
    ensures wait >= b.max || wait >= b.base * (if n >= 1 then Doubled(n - 1) else 1) as real
    ensures n == 1 ==> wait >= b.max || wait >= b.base
  {
    if n == 1 {
      assert b.base * 1.0 == b.base;
    }
  }

  lemma SaneOrderly(t: Table, b: Backoff, id: JobId)
    requires Sane(t, b) && id in t.jobs
    ensures Orderly(t.log, b, id)
  {
    assert JobOk(t.jobs[id], t.log, b, id);
  }

  lemma AtRetry(log: seq<Entry>, b: Backoff, id: JobId, i: nat)
    requires Orderly(log, b, id) && i < |log| && IsRetry(log[i], id)
    ensures var e := log[i];
      e.attempt == Claims(log[..i], id) && e.at + Delay(b, e.attempt) <= e.until <= e.at + Delay(b, e.attempt) + b.jitter
  {
    hide Delay;
    OrderlyBefore(log, b, id, i + 1);
    assert log[..i + 1][..i] == log[..i];
  }

  /** The delay starts from the base and doubles with every attempt until it reaches its
      ceiling. */
  lemma {:induction false} DelayGrows(b: Backoff, attempt: nat)
    requires b.base >= 0.0 && attempt >= 1
    ensures Delay(b, 1) == if b.base <= b.max then b.base else b.max
    ensures Delay(b, attempt) <= Delay(b, attempt + 1) <= b.max
    ensures Delay(b, attempt + 1) < b.max ==> Delay(b, attempt + 1) == 2.0 * Delay(b, attempt)
  {
    DelayIs(b, 1);
    Pow2Positive(attempt - 1);
    assert Pow2(attempt) == 2.0 * Pow2(attempt - 1);
    var p := Pow2(attempt - 1);
    assert b.base * (2.0 * p) == 2.0 * (b.base * p);
    assert b.base * p >= 0.0;
  }

  lemma {:induction false} Pow2Positive(n: nat)
    ensures Pow2(n) >= 1.0
  {
    if n > 0 {
      Pow2Positive(n - 1);
    }
  }

  // ----- late reports

  /** A finished job is revived only by a report on it: `complete` and `fail` do not
      ask who reports. */
  lemma OnlyReportsRevive(t: Table, b: Backoff, a: Action, id: JobId)
    requires Sane(t, b) && Enabled(t, b, a) && id in t.jobs && t.jobs[id].status in {Succeeded, JobFailed}
    ensures id in Next(t, b, a).jobs
    ensures Next(t, b, a).jobs[id].status == t.jobs[id].status || ((a.Complete? || a.Fail?) && a.id == id)
    ensures Next(t, b, a).jobs[id].status in {Succeeded, JobFailed} <==>
              !(a.Fail? && a.id == id && Retries(t.jobs[id], a.retryable))
  {
  }

  // ----- the queue object

  /** The reaping of every expired lease among `ids`, one step per job. */
  function Reaped(t: Table, b: Backoff, ids: seq<JobId>, now: real): Table {
    if ids == [] then t
    else
      var before := Reaped(t, b, ids[..|ids| - 1], now);
      var id := ids[|ids| - 1];
      if id in before.jobs && Expired(before.jobs[id], now) then Next(before, b, Reap(id, now)) else before
  }

  lemma {:induction false} RunsOn(t: Table, b: Backoff, acts: seq<Action>, mid: Table, a: Action)
    requires Runs(t, b, acts, mid) && Enabled(mid, b, a)
    ensures Runs(t, b, acts + [a], Next(mid, b, a))
    decreases |acts|
  {
    if acts == [] {
      assert [a][1..] == [];
    } else {
      RunsOn(Next(t, b, acts[0]), b, acts[1..], mid, a);
      assert (acts + [a])[1..] == acts[1..] + [a];
    }
  }

  /** Reaping is a run of enabled steps, so it is one of the interleavings above. */
  lemma {:induction false} ReapedRuns(t: Table, b: Backoff, ids: seq<JobId>, now: real) returns (acts: seq<Action>)
    ensures Runs(t, b, acts, Reaped(t, b, ids, now))
  {
    if ids == [] {
      return [];
    }
    acts := ReapedRuns(t, b, ids[..|ids| - 1], now);
    var before, id := Reaped(t, b, ids[..|ids| - 1], now), ids[|ids| - 1];
    if id in before.jobs && Expired(before.jobs[id], now) {
      RunsOn(t, b, acts, before, Reap(id, now));
      acts := acts + [Reap(id, now)];
    }
  }

  lemma NoneDue(jobs: map<JobId, Job>, kinds: seq<Kind>, now: real)
    ensures (forall x :: x in jobs ==> !Due(jobs[x], kinds, now)) ==>
              forall x :: x in jobs && jobs[x].status == Queued && (kinds == [] || jobs[x].kind in kinds) ==>
                jobs[x].scheduled.Some? && jobs[x].scheduled.value > now
  {
  }

  lemma ClaimOrder(jobs: map<JobId, Job>, id: JobId, kinds: seq<Kind>, now: real)
    requires id in jobs && Due(jobs[id], kinds, now)
    requires forall x :: x in jobs && Due(jobs[x], kinds, now) ==> NoWorse(jobs[id], jobs[x])
    ensures var j := jobs[id];
      && j.status == Queued && (kinds != [] ==> j.kind in kinds) && (j.scheduled.Some? ==> j.scheduled.value <= now)
      && forall x :: x in jobs && jobs[x].status == Queued && (kinds == [] || jobs[x].kind in kinds)
                     && (jobs[x].scheduled.None? || jobs[x].scheduled.value <= now) ==>
           && jobs[x].priority <= j.priority && (jobs[x].priority == j.priority ==> jobs[x].created >= j.created)
  {
    forall x | x in jobs && jobs[x].status == Queued && (kinds == [] || jobs[x].kind in kinds)
               && (jobs[x].scheduled.None? || jobs[x].scheduled.value <= now)
      ensures Due(jobs[x], kinds, now)
    {
    }
  }

  lemma NothingReaped(t: Table, b: Backoff, now: real)
    ensures Reaped(t, b, [], now) == t
  {
  }

  lemma ReapedNext(t: Table, b: Backoff, ids: seq<JobId>, i: nat, now: real)
    requires i < |ids|
    ensures var before := Reaped(t, b, ids[..i], now);
      Reaped(t, b, ids[..i + 1], now) ==
        if ids[i] in before.jobs && Expired(before.jobs[ids[i]], now) then Next(before, b, Reap(ids[i], now)) else before
  {
    assert ids[..i + 1][..i] == ids[..i];
  }

  ghost function OutOf(t: Table, ids: seq<JobId>, now: real): set<JobId> {
    set id | id in ids && id in t.jobs && RunOut(t.jobs[id], now)
  }

  /** From `t` to `r` each job among `ids` whose lease has run out has been requeued, with
      one row, and no other job has changed. */
  ghost predicate Freed(t: Table, r: Table, ids: seq<JobId>, now: real) {
    && |r.log| == |t.log| + |OutOf(t, ids, now)| && r.jobs.Keys == t.jobs.Keys
    && forall id :: id in t.jobs ==>
         var j := t.jobs[id];
         r.jobs[id] == if id in ids && RunOut(j, now) then j.(status := Queued, owner := None, leaseExpires := None) else j
  }

  lemma {:induction false} ReapedMeans(t: Table, b: Backoff, ids: seq<JobId>, now: real)
    requires Distinct(ids)
    ensures Freed(t, Reaped(t, b, ids, now), ids, now)
  {
    hide Next, Expired, Freed;
    if ids == [] {
      NothingFreed(t, now);
    } else {
      var init, last := ids[..|ids| - 1], ids[|ids| - 1];
      assert ids == init + [last] && last !in init;
      ReapedMeans(t, b, init, now);
      FreedNext(t, b, Reaped(t, b, init, now), init, last, now);
    }
  }

  lemma NothingFreed(t: Table, now: real)
    ensures Freed(t, t, [], now)
  {
    assert OutOf(t, [], now) == {};
  }

  lemma FreedNext(t: Table, b: Backoff, r: Table, ids: seq<JobId>, last: JobId, now: real)
    requires Freed(t, r, ids, now) && last !in ids
    ensures Freed(t, if last in r.jobs && Expired(r.jobs[last], now) then Next(r, b, Reap(last, now)) else r, ids + [last], now)
  {
    hide RunOut, Expired;
    var out := if last in t.jobs && RunOut(t.jobs[last], now) then {last} else {};
    assert OutOf(t, ids + [last], now) == OutOf(t, ids, now) + out;
    if last in t.jobs {
      RunOutIs(t.jobs[last], now);
    }
  }

  lemma CountsOut(rows: seq<JobId>, jobs: map<JobId, Job>, now: real, found: set<JobId>)
    requires (forall k :: 0 <= k < |rows| ==> rows[k] in jobs) && forall id :: id in jobs ==> id in rows
    requires forall x :: x in found <==> x in rows && x in jobs && RunOut(jobs[x], now)
    ensures found == set id | id in jobs && RunOut(jobs[id], now)
  {
    var out := set id | id in jobs && RunOut(jobs[id], now);
    forall id ensures id in found <==> id in out {
    }
  }

  /** A lease that has run out by `now`. */
  ghost predicate RunOut(j: Job, now: real) {
    j.status == Leased && j.leaseExpires.Some? && j.leaseExpires.value < now
  }

  lemma RunOutIs(j: Job, now: real)
    ensures Expired(j, now) <==> RunOut(j, now)
  {
  }

  class Queue {
    const backoff: Backoff
    var jobs: map<JobId, Job>
    var rows: seq<JobId>
    var log: seq<Entry>

    ghost predicate Valid()
      reads this
    {
      && Sane(Contents(), backoff)
      && (forall k :: 0 <= k < |rows| ==> rows[k] in jobs)
      && (forall id :: id in jobs ==> id in rows)
      && Distinct(rows)
    }

    ghost function Contents(): Table
      reads this
    {
      Table(jobs, log)
    }

    constructor (backoff: Backoff)
      ensures Valid() && Contents() == EMPTY && this.backoff == backoff
    {
      this.backoff := backoff;
      jobs, rows, log := map[], [], [];
    }

    method Save(id: JobId, j: Job, e: Entry)
      modifies this`jobs, this`log
      ensures jobs == old(jobs)[id := j] && log == old(log) + [e]
    {
      jobs := jobs[id := j];
      log := log + [e];
    }

    /** Idempotent for any non-empty key, whatever the kind of the job that took it; a new
        job is due at once and has not been tried. */
    method Enqueue(kind: Kind, priority: int, maxAttempts: int, key: string, newId: JobId, now: real) returns (id: JobId)
      requires Valid() && newId !in jobs
      modifies this
      ensures Valid()
      ensures KeyTaken(old(Contents()), key) ==>
                Contents() == old(Contents()) && id in jobs && jobs[id].key == Some(key)
      ensures !KeyTaken(old(Contents()), key) ==>
                id == newId && Contents() == Next(old(Contents()), backoff, Action.Enqueue(newId, kind, priority, maxAttempts, key, now))
      ensures KeyTaken(old(Contents()), key) <==> key != "" && exists x :: x in old(jobs) && old(jobs)[x].key == Some(key)
      ensures !KeyTaken(old(Contents()), key) ==>
                && jobs.Keys == old(jobs).Keys + {id} && (forall x :: x in old(jobs) ==> jobs[x] == old(jobs)[x])
                && log == old(log) + [Enqueued(id)]
                && var j := jobs[id];
                && j.kind == kind && j.priority == priority && j.created == now && j.status == Queued && j.attempts == 0
                && j.maxAttempts == maxAttempts && (if key == "" then j.key == None else j.key == Some(key))
                && j.owner.None? && j.leaseExpires.None? && j.scheduled.None? && j.cancelRequested.None?
                && j.started.None? && j.completed.None? && j.heartbeat.None? && j.progress == Note(None, None, None)
    {
      if key != "" {
        for i := 0 to |rows|
          invariant forall k :: 0 <= k < i ==> jobs[rows[k]].key != Some(key)
        {
          if jobs[rows[i]].key == Some(key) {
            return rows[i];
          }
        }
      }
      forall x | x in jobs && key != "" ensures jobs[x].key != Some(key) {
        assert x in rows;
      }
      StepKeeps(Contents(), backoff, Action.Enqueue(newId, kind, priority, maxAttempts, key, now));
      Save(newId, NewJob(kind, priority, maxAttempts, key, now), Enqueued(newId));
      rows := rows + [newId];
      id := newId;
    }

    /** The first due job in claiming order, if any job is due. */
    method FindDue(kinds: seq<Kind>, now: real) returns (r: Option<JobId>)
      requires Valid()
      ensures r.None? ==> forall id :: id in jobs ==> !Due(jobs[id], kinds, now)
      ensures r.Some? ==> r.value in jobs && Due(jobs[r.value], kinds, now)
      ensures r.Some? ==> forall x :: x in jobs && Due(jobs[x], kinds, now) ==> NoWorse(jobs[r.value], jobs[x])
    {
      hide Sane, Due, Distinct;
      r := None;
      for i := 0 to |rows|
        invariant r.None? ==> forall k :: 0 <= k < i ==> !Due(jobs[rows[k]], kinds, now)
        invariant r.Some? ==> r.value in jobs && Due(jobs[r.value], kinds, now)
        invariant r.Some? ==> forall k :: 0 <= k < i && Due(jobs[rows[k]], kinds, now) ==> NoWorse(jobs[r.value], jobs[rows[k]])
      {
        if Due(jobs[rows[i]], kinds, now) && (r.None? || !NoWorse(jobs[r.value], jobs[rows[i]])) {
          r := Some(rows[i]);
        }
      }
      forall x | x in jobs && Due(jobs[x], kinds, now) ensures r.Some? && NoWorse(jobs[r.value], jobs[x]) {
        assert x in rows;
      }
    }

    /** A queued job of a wanted kind whose time has come, than which no other such job has
        a higher priority, or the same and is older; none exactly if there is none. */
    method Claim(worker: Worker, kinds: seq<Kind>, lease: real, now: real) returns (r: Option<JobId>)
      requires Valid()
      modifies this`jobs, this`log
      ensures Valid()
      ensures r.None? ==> Contents() == old(Contents()) && forall id :: id in jobs ==> !Due(jobs[id], kinds, now)
      ensures r.Some? ==> Enabled(old(Contents()), backoff, Action.Claim(r.value, worker, kinds, lease, now))
      ensures r.Some? ==> Contents() == Next(old(Contents()), backoff, Action.Claim(r.value, worker, kinds, lease, now))
      ensures r.None? ==> forall x :: x in jobs && jobs[x].status == Queued && (kinds == [] || jobs[x].kind in kinds) ==>
                jobs[x].scheduled.Some? && jobs[x].scheduled.value > now
      ensures r.Some? ==> r.value in old(jobs)
      ensures r.Some? ==>
                var j := old(jobs)[r.value];
                && j.status == Queued && (kinds != [] ==> j.kind in kinds) && (j.scheduled.Some? ==> j.scheduled.value <= now)
                && forall x :: x in old(jobs) && old(jobs)[x].status == Queued && (kinds == [] || old(jobs)[x].kind in kinds)
                               && (old(jobs)[x].scheduled.None? || old(jobs)[x].scheduled.value <= now) ==>
                     && old(jobs)[x].priority <= j.priority
                     && (old(jobs)[x].priority == j.priority ==> old(jobs)[x].created >= j.created)
      ensures r.Some? ==>
                && jobs.Keys == old(jobs).Keys && (forall x :: x in jobs && x != r.value ==> jobs[x] == old(jobs)[x])
                && var j, k := old(jobs)[r.value], jobs[r.value];
                && k == j.(status := Leased, owner := Some(worker), leaseExpires := Some(now + lease), heartbeat := Some(now),
                           started := k.started, attempts := j.attempts + 1)
                && k.started == (if j.started.Some? then j.started else Some(now))
                && log == old(log) + [Claimed(r.value, worker, j.attempts + 1, now)]
    {
      hide Sane, Due, NoWorse, Distinct;
      NoneDue(jobs, kinds, now);
      r := FindDue(kinds, now);
      if r.Some? {
        var id, j := r.value, jobs[r.value];
        ClaimOrder(jobs, id, kinds, now);
        StepKeeps(Contents(), backoff, Action.Claim(id, worker, kinds, lease, now));
        var started := if j.started.Some? then j.started else Some(now);
        Save(id, j.(status := Leased, owner := Some(worker), leaseExpires := Some(now + lease), heartbeat := Some(now),
                    started := started, attempts := j.attempts + 1),
             Claimed(id, worker, j.attempts + 1, now));
      }
    }

    /** Extends the lease and notes the progress; false if the job is not, or no longer,
        this worker's. */
    method Heartbeat(id: JobId, worker: Worker, lease: real, now: real, told: Note) returns (ok: bool)
      requires Valid()
      modifies this`jobs, this`log
      ensures Valid()
      ensures ok <==> id in old(jobs) && old(jobs)[id].status == Leased && old(jobs)[id].owner == Some(worker)
      ensures ok ==> Contents() == Next(old(Contents()), backoff, Action.Heartbeat(id, worker, lease, now, told))
      ensures !ok ==> Contents() == old(Contents())
      ensures ok ==>
                && jobs.Keys == old(jobs).Keys && (forall x :: x in jobs && x != id ==> jobs[x] == old(jobs)[x])
                && var j, k := old(jobs)[id], jobs[id];
                && k == j.(leaseExpires := Some(now + lease), heartbeat := Some(now), progress := k.progress)
                && k.progress.current == (if told.current.Some? then told.current else j.progress.current)
                && k.progress.total == (if told.total.Some? then told.total else j.progress.total)
                && k.progress.message == (if told.message.Some? then told.message else j.progress.message)
                && log == old(log) + if told.message.None? && told.current.None? then [] else [Progressed(id, k.progress)]
    {
      hide Sane, Distinct;
      if id !in jobs || jobs[id].owner != Some(worker) || jobs[id].status != Leased {
        return false;
      }
      StepKeeps(Contents(), backoff, Action.Heartbeat(id, worker, lease, now, told));
      var j := jobs[id].(leaseExpires := Some(now + lease), heartbeat := Some(now));
      j := j.(progress := Noted(j.progress, told));
      jobs := jobs[id := j];
      if told.message.Some? || told.current.Some? {
        log := log + [Progressed(id, j.progress)];
      }
      return true;
    }

    method RequestCancellation(id: JobId, now: real) returns (ok: bool)
      requires Valid()
      modifies this`jobs, this`log
      ensures Valid()
      ensures ok <==> Enabled(old(Contents()), backoff, Cancel(id, now))
      ensures Contents() == if ok then Next(old(Contents()), backoff, Cancel(id, now)) else old(Contents())
      ensures ok <==> id in old(jobs) && old(jobs)[id].status != Succeeded && old(jobs)[id].status != JobFailed
      ensures ok ==> jobs == old(jobs)[id := old(jobs)[id].(cancelRequested := Some(now))] && log == old(log) + [CancelAsked(id)]
    {
      if id !in jobs || jobs[id].status in {Succeeded, JobFailed} {
        return false;
      }
      StepKeeps(Contents(), backoff, Cancel(id, now));
      Save(id, jobs[id].(cancelRequested := Some(now)), CancelAsked(id));
      return true;
    }

    /** Takes the report of any worker, owner or not. */
    method Complete(id: JobId, worker: Worker, now: real) returns (ok: bool)
      requires Valid()
      modifies this`jobs, this`log
      ensures Valid()
      ensures ok <==> id in old(jobs)
      ensures Contents() == if ok then Next(old(Contents()), backoff, Action.Complete(id, now)) else old(Contents())
      ensures ok ==>
                && jobs == old(jobs)[id := old(jobs)[id].(status := Succeeded, completed := Some(now), owner := None, leaseExpires := None)]
                && log == old(log) + [Completed(id)]
    {
      if id !in jobs {
        return false;
      }
      StepKeeps(Contents(), backoff, Action.Complete(id, now));
      Save(id, jobs[id].(status := Succeeded, completed := Some(now), owner := None, leaseExpires := None),
           Completed(id));
      return true;
    }

    method Fail(id: JobId, worker: Worker, retryable: bool, now: real, draw: real) returns (r: Result<JobStatus>)
      requires Valid() && 0.0 <= draw <= backoff.jitter
      modifies this`jobs, this`log
      ensures Valid()
      ensures r.Err? <==> id !in old(jobs)
      ensures r.Err? ==> r.fault == NotFound && Contents() == old(Contents())
      ensures r.Ok? ==> Contents() == Next(old(Contents()), backoff, Action.Fail(id, retryable, now, draw))
      ensures r.Ok? ==> r.value == jobs[id].status && r.value in {RetryWait, JobFailed}
      ensures r.Ok? ==> (r.value == RetryWait <==> retryable && old(jobs)[id].attempts < old(jobs)[id].maxAttempts)
      ensures r.Ok? ==> jobs.Keys == old(jobs).Keys && forall x :: x in jobs && x != id ==> jobs[x] == old(jobs)[x]
      ensures r.Ok? && r.value == RetryWait ==>
                var j, k := old(jobs)[id], jobs[id];
                && k == j.(status := RetryWait, owner := None, leaseExpires := None, scheduled := k.scheduled)
                && k.scheduled.Some? && WaitsAs(backoff, j.attempts, k.scheduled.value - now - draw)
                && log == old(log) + [RetryScheduled(id, j.attempts, now, k.scheduled.value)]
      ensures r.Ok? && r.value == JobFailed ==>
                && jobs[id] == old(jobs)[id].(status := JobFailed, owner := None, leaseExpires := None, completed := Some(now))
                && log == old(log) + [FailedForGood(id, old(jobs)[id].attempts)]
    {
      hide Sane, Delay, Distinct;
      if id !in jobs {
        return Err(NotFound);
      }
      StepKeeps(Contents(), backoff, Action.Fail(id, retryable, now, draw));
      var j := jobs[id].(owner := None, leaseExpires := None);
      DelayIs(backoff, j.attempts);
      if retryable && j.attempts < j.maxAttempts {
        var until := now + Delay(backoff, j.attempts) + draw;
        Save(id, j.(status := RetryWait, scheduled := Some(until)), RetryScheduled(id, j.attempts, now, until));
        return Result.Ok(RetryWait);
      }
      Save(id, j.(status := JobFailed, completed := Some(now)), FailedForGood(id, j.attempts));
      return Result.Ok(JobFailed);
    }

    method RequeueAfterBackoff(now: real)
      requires Valid()
      modifies this`jobs
      ensures Valid()
      ensures Contents() == Next(old(Contents()), backoff, Requeue(now))
      ensures jobs.Keys == old(jobs).Keys
      ensures forall x :: x in jobs ==>
                var j := old(jobs)[x];
                jobs[x] == if j.status == RetryWait && j.scheduled.Some? && j.scheduled.value <= now then j.(status := Queued) else j
    {
      hide Sane;
      StepKeeps(Contents(), backoff, Requeue(now));
      for i := 0 to |rows|
        invariant jobs.Keys == old(jobs).Keys
        invariant forall k :: 0 <= k < i ==> jobs[rows[k]] == Requeued(old(jobs), now)[rows[k]]
        invariant forall k :: i <= k < |rows| ==> jobs[rows[k]] == old(jobs)[rows[k]]
      {
        var j := jobs[rows[i]];
        if j.status == RetryWait && j.scheduled.Some? && j.scheduled.value <= now {
          jobs := jobs[rows[i] := j.(status := Queued)];
        }
      }
      assert jobs == Requeued(old(jobs), now) by {
        forall id | id in jobs ensures jobs[id] == Requeued(old(jobs), now)[id] {
          assert id in rows;
        }
      }
    }

    /** Expiry alone decides: how often the job has run already is not looked at. */
    method ReapRow(id: JobId, now: real) returns (hit: bool)
      requires Sane(Contents(), backoff) && id in jobs
      modifies this`jobs, this`log
      ensures Sane(Contents(), backoff) && jobs.Keys == old(jobs).Keys
      ensures hit == Expired(old(jobs)[id], now)
      ensures Contents() == if hit then Next(old(Contents()), backoff, Reap(id, now)) else old(Contents())
      ensures forall x :: x in jobs && (x != id || !hit) ==> jobs[x] == old(jobs)[x]
      ensures hit ==> jobs[id] == old(jobs)[id].(status := Queued, owner := None, leaseExpires := None)
      ensures |log| == |old(log)| + if hit then 1 else 0
    {
      hide Sane;
      hit := Expired(jobs[id], now);
      if hit {
        StepKeeps(Contents(), backoff, Reap(id, now));
        Save(id, jobs[id].(status := Queued, owner := None, leaseExpires := None), LeaseReaped(id));
      }
    }

    method ReapExpiredLeases(now: real) returns (n: nat)
      requires Valid()
      modifies this`jobs, this`log
      ensures Valid()
      ensures Contents() == Reaped(old(Contents()), backoff, rows, now)
      ensures n == |log| - |old(log)|
      ensures n == |set id | id in old(jobs) && RunOut(old(jobs)[id], now)|
      ensures jobs.Keys == old(jobs).Keys
      ensures forall id :: id in jobs ==>
                var j := old(jobs)[id];
                jobs[id] == if RunOut(j, now) then j.(status := Queued, owner := None, leaseExpires := None) else j
    {
      hide Sane, Expired, Next, RunOut, Distinct, Reaped;
      n := 0;
      NothingReaped(Contents(), backoff, now);
      for i := 0 to |rows|
        invariant Sane(Contents(), backoff) && jobs.Keys == old(jobs).Keys
        invariant Contents() == Reaped(old(Contents()), backoff, rows[..i], now)
        invariant n == |log| - |old(log)|
      {
        ReapedNext(old(Contents()), backoff, rows, i, now);
        var hit := ReapRow(rows[i], now);
        n := n + if hit then 1 else 0;
      }
      assert rows[..|rows|] == rows;
      ReapedMeans(old(Contents()), backoff, rows, now);
      CountsOut(rows, old(jobs), now, OutOf(old(Contents()), rows, now));
    }
  }

  // ----- the worker

  /** How the handler of a job ends; an unexpected exception counts as retryable. */
  datatype Handled = Finished | Permanent | Retryable | NoHandler

  /** The steps of a poll that took job `id`: whatever it requeued and reaped, then the
      claim, then the report. */
  ghost predicate Polls(t: Table, b: Backoff, end: Table, claim: Action, report: Action) {
    exists acts :: Runs(t, b, acts + [claim, report], end)
  }

  /** `run_once`: requeue, reap, claim at most one job, and report on it. */
  method RunOnce(q: Queue, worker: Worker, kinds: seq<Kind>, lease: real, handler: JobId -> Handled, now: real, later: real, draw: real)
    returns (did: Option<JobId>)
    requires q.Valid() && 0.0 <= draw <= q.backoff.jitter
    modifies q
    ensures q.Valid()
    ensures did.None? ==> exists acts :: Runs(old(q.Contents()), q.backoff, acts, q.Contents())
    ensures did.None? ==> forall id :: id in q.jobs ==> !Due(q.jobs[id], kinds, now)
    ensures did.Some? ==> did.value in q.jobs && Settles(q, did.value, handler(did.value))
    ensures did.Some? ==>
              Polls(old(q.Contents()), q.backoff, q.Contents(), Action.Claim(did.value, worker, kinds, lease, now),
                                Report(did.value, handler(did.value), later, draw))
  {
    hide Sane, Due, NoWorse, Delay, Distinct, Runs, Reaped;
    ghost var start, b := q.Contents(), q.backoff;
    q.RequeueAfterBackoff(now);
    ghost var requeued := q.Contents();
    var _ := q.ReapExpiredLeases(now);
    ghost var acts := Opening(start, b, q.rows, now);
    assert q.Contents() == Reaped(requeued, b, q.rows, now);
    ghost var mid := q.Contents();
    var claimed := q.Claim(worker, kinds, lease, now);
    if claimed.None? {
      assert Runs(start, b, acts, q.Contents());
      return None;
    }
    var id := claimed.value;
    Reporting(start, b, acts, mid, Action.Claim(id, worker, kinds, lease, now), Report(id, handler(id), later, draw));
    ReportOn(q, worker, id, handler(id), later, draw);
    return Some(id);
  }

  /** `_process` after the handler has ended. */
  method ReportOn(q: Queue, worker: Worker, id: JobId, h: Handled, now: real, draw: real)
    requires q.Valid() && 0.0 <= draw <= q.backoff.jitter && id in q.jobs
    modifies q`jobs, q`log
    ensures q.Valid() && id in q.jobs
    ensures q.Contents() == Next(old(q.Contents()), q.backoff, Report(id, h, now, draw))
    ensures old(q.jobs)[id].attempts >= 1 ==> Settles(q, id, h)
  {
    hide Sane, Delay, Distinct;
    match h {
      case Finished => var _ := q.Complete(id, worker, now);
      case Permanent => var _ := q.Fail(id, worker, false, now, draw);
      case Retryable => var _ := q.Fail(id, worker, true, now, draw);
      case NoHandler => var _ := q.Fail(id, worker, false, now, draw);
    }
  }

  function Report(id: JobId, h: Handled, now: real, draw: real): Action {
    if h == Finished then Action.Complete(id, now) else Action.Fail(id, h == Retryable, now, draw)
  }

  /** Finished jobs succeed; a retryable failure waits while attempts are left, and
      everything else fails for good. */
  ghost predicate Settles(q: Queue, id: JobId, h: Handled)
    requires id in q.jobs
    reads q
  {
    var j := q.jobs[id];
    && j.owner.None? && j.attempts >= 1
    && j.status == if h == Finished then Succeeded else if h == Retryable && j.attempts < j.maxAttempts then RetryWait else JobFailed
  }

  lemma Opening(t: Table, b: Backoff, ids: seq<JobId>, now: real) returns (acts: seq<Action>)
    ensures Runs(t, b, acts, Reaped(Next(t, b, Requeue(now)), b, ids, now))
  {
    var rest := ReapedRuns(Next(t, b, Requeue(now)), b, ids, now);
    acts := [Requeue(now)] + rest;
    assert acts[1..] == rest;
  }

  lemma Reporting(t: Table, b: Backoff, acts: seq<Action>, mid: Table, claim: Action, report: Action)
    requires Runs(t, b, acts, mid) && claim.Claim? && Enabled(mid, b, claim)
    requires (report.Complete? || report.Fail?) && report.id == claim.id
    requires report.Fail? ==> 0.0 <= report.draw <= b.jitter
    ensures Polls(t, b, Next(Next(mid, b, claim), b, report), claim, report)
  {
    hide Runs, Next;
    RunsOn(t, b, acts, mid, claim);
    MayReport(mid, b, claim, report);
    RunsOn(t, b, acts + [claim], Next(mid, b, claim), report);
    assert acts + [claim] + [report] == acts + [claim, report];
  }

  lemma MayReport(mid: Table, b: Backoff, claim: Action, report: Action)
    requires claim.Claim? && Enabled(mid, b, claim)
    requires (report.Complete? || report.Fail?) && report.id == claim.id
    requires report.Fail? ==> 0.0 <= report.draw <= b.jitter
    ensures Enabled(Next(mid, b, claim), b, report)
  {
  }
}
