/** The job queue of internal/jobs/queue.go and the workers of internal/jobs/worker.go:
    retries, the dead-letter queue, the status of runs and the statistics of jobs. */
module JobQueue {
  import opened Text

  /** A queued message; a retry is the same run with the next attempt. */
  datatype Message = Message(run: nat, job: nat, jobType: string, attempt: int)

  datatype Settings = Settings(maxRetries: int, dlqEnabled: bool, known: set<string>)

  const DLQ_LIMIT: nat := 10000

  datatype Status = Pending | Started | Success | Failure

  /** Where a worker is in processing its message. `Retrying` has started the sleeping retry
      but not yet marked the run; `Failed` has no retry left; `Counting` has only the
      statistics of the job to update. */
  datatype Stage =
    | Idle
    | Holding(m: Message)
    | Running(m: Message)
    | Won(m: Message)
    | Retrying(m: Message)
    | Failed(m: Message)
    | Burying(m: Message, counts: bool)
    | Counting(m: Message, ok: bool)

  /** Of all jobs: executions that are over, and the three columns of the jobs table. */
  datatype Statistics = Statistics(
    completed: multiset<nat>, runCount: multiset<nat>, successCount: multiset<nat>, failureCount: multiset<nat>)
  {
    function Finished(job: nat): Statistics {
      Statistics(completed + multiset{job}, runCount, successCount, failureCount)
    }

    function Counted(job: nat, ok: bool): Statistics {
      Statistics(completed, runCount + multiset{job},
                 if ok then successCount + multiset{job} else successCount,
                 if ok then failureCount else failureCount + multiset{job})
    }
  }

  datatype State = State(
    queue: seq<Message>, workers: seq<Stage>, sleeping: seq<Message>,
    succeeded: seq<Message>, dead: seq<Message>, dropped: seq<Message>,
    status: map<nat, Status>, enqueued: set<nat>, executed: multiset<nat>, jobs: Statistics)

  // ----- The lists -----

  /** LPUSH. */
  function Push(list: seq<Message>, m: Message): seq<Message> {
    [m] + list
  }

  /** LPUSH and LTRIM to the newest entries. */
  function PushTrimmed(list: seq<Message>, m: Message): seq<Message> {
    if |list| < DLQ_LIMIT then Push(list, m) else Push(list, m)[..DLQ_LIMIT]
  }

  /** What the trim cuts off. */
  function Trimmed(list: seq<Message>, m: Message): seq<Message> {
    if |list| < DLQ_LIMIT then [] else Push(list, m)[DLQ_LIMIT..]
  }

  // ----- Steps -----

  datatype Event =
    | Enqueue(m: Message)
    | Take(w: nat)
    | Begin(w: nat)
    | Reject(w: nat)
    | Finish(w: nat, ok: bool)
    | Mark(w: nat)
    | Bury(w: nat)
    | Count(w: nat)
    | Wake(i: nat)

  predicate Enabled(s: State, e: Event, c: Settings) {
    match e
    case Enqueue(m) => m.run !in s.enqueued && m.attempt == 1
    case Take(w) => w < |s.workers| && s.workers[w].Idle? && s.queue != []
    case Begin(w) => w < |s.workers| && s.workers[w].Holding? && s.workers[w].m.jobType in c.known
    case Reject(w) => w < |s.workers| && s.workers[w].Holding? && s.workers[w].m.jobType !in c.known
    case Finish(w, ok) => w < |s.workers| && s.workers[w].Running?
    case Mark(w) => w < |s.workers| && (s.workers[w].Won? || s.workers[w].Retrying? || s.workers[w].Failed?)
    case Bury(w) => w < |s.workers| && s.workers[w].Burying?
    case Count(w) => w < |s.workers| && s.workers[w].Counting?
    case Wake(i) => i < |s.sleeping|
  }

  function Next(s: State, e: Event, c: Settings): State
    requires Enabled(s, e, c)
  {
    match e
    case Enqueue(m) =>
      s.(queue := Push(s.queue, m), enqueued := s.enqueued + {m.run}, status := s.status[m.run := Pending])
    case Take(w) =>
      var last := |s.queue| - 1;
      s.(queue := s.queue[..last], workers := s.workers[w := Holding(s.queue[last])])
    case Begin(w) =>
      var m := s.workers[w].m;
      s.(workers := s.workers[w := Running(m)], status := s.status[m.run := Started], executed := s.executed + multiset{m.run})
    case Reject(w) =>
      var m := s.workers[w].m;
      s.(workers := s.workers[w := Burying(m, false)], status := s.status[m.run := Failure])
    case Finish(w, ok) =>
      var m, t := s.workers[w].m, s.(jobs := s.jobs.Finished(s.workers[w].m.job));
      if ok then t.(workers := s.workers[w := Won(m)], succeeded := s.succeeded + [m])
      else if m.attempt < c.maxRetries then t.(workers := s.workers[w := Retrying(m)], sleeping := s.sleeping + [m])
      else t.(workers := s.workers[w := Failed(m)])
    case Mark(w) =>
      var m := s.workers[w].m;
      if s.workers[w].Won? then
        s.(workers := s.workers[w := Counting(m, true)], status := s.status[m.run := Success])
      else if s.workers[w].Retrying? then
        s.(workers := s.workers[w := Counting(m, false)], status := s.status[m.run := Failure])
      else
        s.(workers := s.workers[w := Burying(m, true)], status := s.status[m.run := Failure])
    case Bury(w) =>
      var m := s.workers[w].m;
      var t := s.(workers := s.workers[w := if s.workers[w].counts then Counting(m, false) else Idle]);
      if c.dlqEnabled then t.(dead := PushTrimmed(s.dead, m), dropped := s.dropped + Trimmed(s.dead, m))
      else t.(dropped := s.dropped + [m])
    case Count(w) =>
      var m, ok := s.workers[w].m, s.workers[w].ok;
      s.(workers := s.workers[w := Idle], jobs := s.jobs.Counted(m.job, ok))
    case Wake(i) =>
      var m := s.sleeping[i];
      s.(sleeping := s.sleeping[..i] + s.sleeping[i + 1..],
         queue := Push(s.queue, Message(m.run, m.job, m.jobType, m.attempt + 1)))
  }

  function Initial(n: nat): State {
    State([], seq(n, i => Idle), [], [], [], [], map[], {}, multiset{}, Statistics(multiset{}, multiset{}, multiset{}, multiset{}))
  }

  /** The state after the events, if each was enabled in its turn. */
  function After(n: nat, events: seq<Event>, c: Settings): Option<State> {
    if events == [] then Some(Initial(n))
    else
      var prev, e := After(n, events[..|events| - 1], c), events[|events| - 1];
      if prev.Some? && Enabled(prev.value, e, c) then Some(Next(prev.value, e, c)) else None
  }

  // ----- Counting -----

  function RunIds(list: seq<Message>): (r: seq<nat>)
    ensures |r| == |list|
  {
    seq(|list|, i requires 0 <= i < |list| => list[i].run)
  }

  /** How often a run is in a list. */
  function Runs(list: seq<Message>, r: nat): nat {
    multiset(RunIds(list))[r]
  }

  lemma RunsAppend(a: seq<Message>, b: seq<Message>, r: nat)
    ensures Runs(a + b, r) == Runs(a, r) + Runs(b, r)
  {
    assert RunIds(a + b) == RunIds(a) + RunIds(b);
  }

  lemma RunsOneMore(list: seq<Message>, m: Message, r: nat)
    ensures Runs(list + [m], r) == Runs(list, r) + (if m.run == r then 1 else 0)
  {
    assert RunIds(list + [m]) == RunIds(list) + [m.run];
  }

  lemma RunsPush(list: seq<Message>, m: Message, r: nat)
    ensures Runs(Push(list, m), r) == Runs(list, r) + (if m.run == r then 1 else 0)
  {
    assert RunIds(Push(list, m)) == [m.run] + RunIds(list);
  }

  lemma RunsPop(list: seq<Message>, r: nat)
    requires list != []
    ensures Runs(list, r) == Runs(list[..|list| - 1], r) + (if list[|list| - 1].run == r then 1 else 0)
  {
    assert list == list[..|list| - 1] + [list[|list| - 1]];
    RunsOneMore(list[..|list| - 1], list[|list| - 1], r);
  }

  lemma RunsWithout(list: seq<Message>, i: nat, r: nat)
    requires i < |list|
    ensures Runs(list, r) == Runs(list[..i] + list[i + 1..], r) + (if list[i].run == r then 1 else 0)
  {
    var a, b := list[..i], list[i + 1..];
    assert list == (a + [list[i]]) + b;
    RunsAppend(a + [list[i]], b, r);
    RunsOneMore(a, list[i], r);
    RunsAppend(a, b, r);
  }

  lemma RunsTrimmed(list: seq<Message>, m: Message, r: nat)
    ensures Runs(PushTrimmed(list, m), r) + Runs(Trimmed(list, m), r) == Runs(list, r) + (if m.run == r then 1 else 0)
  {
    RunsPush(list, m, r);
    if |list| >= DLQ_LIMIT {
      var all := Push(list, m);
      assert all == all[..DLQ_LIMIT] + all[DLQ_LIMIT..];
      RunsAppend(all[..DLQ_LIMIT], all[DLQ_LIMIT..], r);
    }
  }

  /** What is counted among the workers: a run in hand; a run asleep but still to be marked
      as failed; a run that succeeded but is still to be marked so; and a job one of whose
      executions is over but not yet in the statistics, by result. */
  datatype Kind = InHand(run: nat) | Unmarked(run: nat) | Unpraised(run: nat) | Uncounted(job: nat, ok: bool)

  predicate Is(st: Stage, k: Kind) {
    match k
    case InHand(r) =>
      (st.Holding? || st.Running? || st.Failed? || st.Burying?) && st.m.run == r
    case Unmarked(r) => st.Retrying? && st.m.run == r
    case Unpraised(r) => st.Won? && st.m.run == r
    case Uncounted(job, ok) =>
      if ok then (st.Won? || (st.Counting? && st.ok)) && st.m.job == job
      else (st.Retrying? || st.Failed? || (st.Burying? && st.counts) || (st.Counting? && !st.ok)) && st.m.job == job
  }

  function Workers(ws: seq<Stage>, k: Kind): nat {
    if ws == [] then 0 else Workers(ws[..|ws| - 1], k) + (if Is(ws[|ws| - 1], k) then 1 else 0)
  }

  lemma {:induction false} WorkersUpdate(ws: seq<Stage>, k: Kind, w: nat, after: Stage)
    requires w < |ws|
    ensures Workers(ws[w := after], k) + (if Is(ws[w], k) then 1 else 0) == Workers(ws, k) + (if Is(after, k) then 1 else 0)
  {
    var front := ws[..|ws| - 1];
    if w == |ws| - 1 {
      assert ws[w := after][..|ws| - 1] == front;
    } else {
      assert ws[w := after][..|ws| - 1] == front[w := after];
      WorkersUpdate(front, k, w, after);
    }
  }

  lemma {:induction false} WorkersHave(ws: seq<Stage>, k: Kind, w: nat)
    requires w < |ws| && Is(ws[w], k)
    ensures Workers(ws, k) > 0
  {
    if w < |ws| - 1 {
      WorkersHave(ws[..|ws| - 1], k, w);
    }
  }

  lemma {:induction false} WorkersIdle(ws: seq<Stage>, k: Kind)
    requires forall w :: 0 <= w < |ws| ==> ws[w].Idle?
    ensures Workers(ws, k) == 0
  {
    if ws != [] {
      WorkersIdle(ws[..|ws| - 1], k);
    }
  }

  // ----- Conservation -----

  function Everywhere(s: State, r: nat): nat {
    Runs(s.queue, r) + Workers(s.workers, InHand(r)) + Runs(s.sleeping, r)
    + Runs(s.succeeded, r) + Runs(s.dead, r) + Runs(s.dropped, r)
  }

  predicate Conserved(s: State, r: nat) {
    Everywhere(s, r) == if r in s.enqueued then 1 else 0
  }

  lemma EnqueueConserves(s: State, m: Message, c: Settings, r: nat)
    requires Conserved(s, r) && Enabled(s, Enqueue(m), c)
    ensures Conserved(Next(s, Enqueue(m), c), r)
  {
    RunsPush(s.queue, m, r);
  }

  lemma TakeConserves(s: State, w: nat, c: Settings, r: nat)
    requires Conserved(s, r) && Enabled(s, Take(w), c)
    ensures Conserved(Next(s, Take(w), c), r)
  {
    var last := |s.queue| - 1;
    WorkersUpdate(s.workers, InHand(r), w, Holding(s.queue[last]));
    RunsPop(s.queue, r);
  }

  lemma SuccessConserves(s: State, w: nat, c: Settings, r: nat)
    requires Conserved(s, r) && Enabled(s, Finish(w, true), c)
    ensures Conserved(Next(s, Finish(w, true), c), r)
  {
    WorkersUpdate(s.workers, InHand(r), w, Won(s.workers[w].m));
    RunsOneMore(s.succeeded, s.workers[w].m, r);
  }

  lemma RetryConserves(s: State, w: nat, c: Settings, r: nat)
    requires Conserved(s, r) && Enabled(s, Finish(w, false), c) && s.workers[w].m.attempt < c.maxRetries
    ensures Conserved(Next(s, Finish(w, false), c), r)
  {
    WorkersUpdate(s.workers, InHand(r), w, Retrying(s.workers[w].m));
    RunsOneMore(s.sleeping, s.workers[w].m, r);
  }

  lemma LastFailureConserves(s: State, w: nat, c: Settings, r: nat)
    requires Conserved(s, r) && Enabled(s, Finish(w, false), c) && s.workers[w].m.attempt >= c.maxRetries
    ensures Conserved(Next(s, Finish(w, false), c), r)
  {
    WorkersUpdate(s.workers, InHand(r), w, Failed(s.workers[w].m));
  }

  function AfterBurial(st: Stage): Stage
    requires st.Burying?
  {
    if st.counts then Counting(st.m, false) else Idle
  }

  /** What burying adds to the dead letters and to those dropped. */
  lemma BuryRuns(s: State, w: nat, c: Settings, r: nat)
    requires Enabled(s, Bury(w), c)
    ensures var t := Next(s, Bury(w), c);
            && t == s.(workers := s.workers[w := AfterBurial(s.workers[w])], dead := t.dead, dropped := t.dropped)
            && Runs(t.dead, r) + Runs(t.dropped, r)
               == Runs(s.dead, r) + Runs(s.dropped, r) + (if s.workers[w].m.run == r then 1 else 0)
  {
    var m := s.workers[w].m;
    if c.dlqEnabled {
      RunsTrimmed(s.dead, m, r);
      RunsAppend(s.dropped, Trimmed(s.dead, m), r);
    } else {
      RunsOneMore(s.dropped, m, r);
    }
  }

  lemma BuryConserves(s: State, w: nat, c: Settings, r: nat)
    requires Conserved(s, r) && Enabled(s, Bury(w), c)
    ensures Conserved(Next(s, Bury(w), c), r)
  {
    BuryRuns(s, w, c, r);
    WorkersUpdate(s.workers, InHand(r), w, AfterBurial(s.workers[w]));
  }

  lemma WakeConserves(s: State, i: nat, c: Settings, r: nat)
    requires Conserved(s, r) && Enabled(s, Wake(i), c)
    ensures Conserved(Next(s, Wake(i), c), r)
  {
    var m := s.sleeping[i];
    RunsWithout(s.sleeping, i, r);
    RunsPush(s.queue, Message(m.run, m.job, m.jobType, m.attempt + 1), r);
  }

  /** Steps that change a worker's stage and no list. */
  lemma ListsStay(s: State, e: Event, c: Settings)
    requires Enabled(s, e, c) && (e.Begin? || e.Reject? || e.Mark? || e.Count?)
    ensures var t := Next(s, e, c);
            && t.queue == s.queue && t.sleeping == s.sleeping && t.succeeded == s.succeeded
            && t.dead == s.dead && t.dropped == s.dropped && t.enqueued == s.enqueued
            && |t.workers| == |s.workers| && t.workers == s.workers[e.w := t.workers[e.w]]
  {
  }

  lemma HandsStay(s: State, e: Event, c: Settings, r: nat)
    requires Enabled(s, e, c) && (e.Begin? || e.Reject? || e.Mark? || e.Count?)
    ensures Workers(Next(s, e, c).workers, InHand(r)) == Workers(s.workers, InHand(r))
  {
    var after := Next(s, e, c).workers[e.w];
    assert Is(after, InHand(r)) <==> Is(s.workers[e.w], InHand(r));
    ListsStay(s, e, c);
    WorkersUpdate(s.workers, InHand(r), e.w, after);
  }

  /** Steps in which a message stays where it is. */
  lemma StayConserves(s: State, e: Event, c: Settings, r: nat)
    requires Conserved(s, r) && Enabled(s, e, c) && (e.Begin? || e.Reject? || e.Mark? || e.Count?)
    ensures Conserved(Next(s, e, c), r)
  {
    ListsStay(s, e, c);
    HandsStay(s, e, c, r);
  }

  lemma StepConserves(s: State, e: Event, c: Settings, r: nat)
    requires Conserved(s, r) && Enabled(s, e, c)
    ensures Conserved(Next(s, e, c), r)
  {
    match e
    case Enqueue(m) => EnqueueConserves(s, m, c, r);
    case Take(w) => TakeConserves(s, w, c, r);
    case Finish(w, ok) =>
      if ok {
        SuccessConserves(s, w, c, r);
      } else if s.workers[w].m.attempt < c.maxRetries {
        RetryConserves(s, w, c, r);
      } else {
        LastFailureConserves(s, w, c, r);
      }
    case Bury(w) => BuryConserves(s, w, c, r);
    case Wake(i) => WakeConserves(s, i, c, r);
    case _ => StayConserves(s, e, c, r);
  }

  /** Every message ever enqueued is, at every moment, in exactly one place: the queue, a
      worker's hands, a sleeping retry, the successes, the dead letters or those dropped. */
  lemma {:induction false} ExactlyOnePlace(n: nat, events: seq<Event>, c: Settings, r: nat)
    requires After(n, events, c).Some?
    ensures var s := After(n, events, c).value;
            Runs(s.queue, r) + Workers(s.workers, InHand(r)) + Runs(s.sleeping, r)
            + Runs(s.succeeded, r) + Runs(s.dead, r) + Runs(s.dropped, r) == (if r in s.enqueued then 1 else 0)
  {
    if events == [] {
      WorkersIdle(Initial(n).workers, InHand(r));
    } else {
      ExactlyOnePlace(n, events[..|events| - 1], c, r);
      StepConserves(After(n, events[..|events| - 1], c).value, events[|events| - 1], c, r);
    }
  }

  // ----- Attempts -----

  /** Messages in a list that have been executed `m.attempt - 1 + extra` times. */
  ghost predicate Executed(list: seq<Message>, executed: multiset<nat>, extra: nat) {
    forall i :: 0 <= i < |list| ==> list[i].attempt >= 1 && executed[list[i].run] == list[i].attempt - 1 + extra
  }

  /** Messages a worker has not begun, and those it has. */
  predicate StageExecuted(st: Stage, executed: multiset<nat>) {
    match st
    case Holding(m) => m.attempt >= 1 && executed[m.run] == m.attempt - 1
    case Running(m) => m.attempt >= 1 && executed[m.run] == m.attempt
    case _ => true
  }

  /** The attempt a message carries counts its executions, and stays within the limit. */
  ghost predicate AttemptsRight(s: State, c: Settings) {
    && Executed(s.queue, s.executed, 0) && Executed(s.sleeping, s.executed, 1)
    && (forall w :: 0 <= w < |s.workers| ==> StageExecuted(s.workers[w], s.executed))
    && (forall i :: 0 <= i < |s.sleeping| ==> s.sleeping[i].attempt < c.maxRetries)
    && (forall i :: 0 <= i < |s.queue| ==> Within(s.queue[i], c))
    && (forall w :: 0 <= w < |s.workers| ==> StageWithin(s.workers[w], c))
    && (forall r :: s.executed[r] <= Limit(c))
    && (forall r :: r !in s.enqueued ==> s.executed[r] == 0)
  }

  function Limit(c: Settings): int {
    if c.maxRetries < 1 then 1 else c.maxRetries
  }

  predicate Within(m: Message, c: Settings) {
    m.attempt <= Limit(c)
  }

  predicate StageWithin(st: Stage, c: Settings) {
    match st
    case Holding(m) => Within(m, c)
    case Running(m) => Within(m, c)
    case _ => true
  }

  ghost predicate AllConserved(s: State) {
    forall r :: Conserved(s, r)
  }

  lemma RunsHave(list: seq<Message>, i: nat)
    requires i < |list|
    ensures Runs(list, list[i].run) > 0
  {
    assert RunIds(list)[i] == list[i].run;
    assert list[i].run in multiset(RunIds(list));
  }

  /** What a worker has in hand is nowhere else. */
  lemma HeldAlone(s: State, w: nat)
    requires AllConserved(s) && w < |s.workers| && s.workers[w].Holding?
    ensures forall i :: 0 <= i < |s.queue| ==> s.queue[i].run != s.workers[w].m.run
    ensures forall i :: 0 <= i < |s.sleeping| ==> s.sleeping[i].run != s.workers[w].m.run
    ensures forall v :: 0 <= v < |s.workers| && v != w ==> !Is(s.workers[v], InHand(s.workers[w].m.run))
  {
    var r := s.workers[w].m.run;
    assert Conserved(s, r);
    WorkersHave(s.workers, InHand(r), w);
    forall i | 0 <= i < |s.queue|
      ensures s.queue[i].run != r
    {
      RunsHave(s.queue, i);
    }
    forall i | 0 <= i < |s.sleeping|
      ensures s.sleeping[i].run != r
    {
      RunsHave(s.sleeping, i);
    }
    forall v | 0 <= v < |s.workers| && v != w
      ensures !Is(s.workers[v], InHand(r))
    {
      if Is(s.workers[v], InHand(r)) {
        TwoWorkers(s.workers, InHand(r), v, w);
        assert false;
      }
    }
  }

  lemma TwoWorkers(ws: seq<Stage>, k: Kind, v: nat, w: nat)
    requires v < |ws| && w < |ws| && v != w && Is(ws[v], k) && Is(ws[w], k)
    ensures Workers(ws, k) > 1
  {
    WorkersUpdate(ws, k, v, Idle);
    WorkersHave(ws[v := Idle], k, w);
  }

  lemma BeginRight(s: State, w: nat, c: Settings)
    requires AttemptsRight(s, c) && AllConserved(s) && Enabled(s, Begin(w), c)
    ensures AttemptsRight(Next(s, Begin(w), c), c)
  {
    HeldAlone(s, w);
    var m := s.workers[w].m;
    assert StageExecuted(s.workers[w], s.executed) && StageWithin(s.workers[w], c);
    assert Conserved(s, m.run);
    WorkersHave(s.workers, InHand(m.run), w);
    assert m.run in s.enqueued;
    var t := Next(s, Begin(w), c);
    forall v | 0 <= v < |t.workers|
      ensures StageExecuted(t.workers[v], t.executed) && StageWithin(t.workers[v], c)
    {
      if v != w {
        assert StageExecuted(s.workers[v], s.executed) && StageWithin(s.workers[v], c);
        assert !Is(s.workers[v], InHand(m.run));
      }
    }
  }

  lemma EnqueueRight(s: State, m: Message, c: Settings)
    requires AttemptsRight(s, c) && Enabled(s, Enqueue(m), c)
    ensures AttemptsRight(Next(s, Enqueue(m), c), c)
  {
    assert s.executed[m.run] == 0;
  }

  lemma WakeRight(s: State, i: nat, c: Settings)
    requires AttemptsRight(s, c) && Enabled(s, Wake(i), c)
    ensures AttemptsRight(Next(s, Wake(i), c), c)
  {
    var m := s.sleeping[i];
    assert m.attempt >= 1 && s.executed[m.run] == m.attempt && m.attempt < c.maxRetries;
  }

  lemma FinishRight(s: State, w: nat, ok: bool, c: Settings)
    requires AttemptsRight(s, c) && Enabled(s, Finish(w, ok), c)
    ensures AttemptsRight(Next(s, Finish(w, ok), c), c)
  {
    assert StageExecuted(s.workers[w], s.executed);
  }

  lemma TakeRight(s: State, w: nat, c: Settings)
    requires AttemptsRight(s, c) && Enabled(s, Take(w), c)
    ensures AttemptsRight(Next(s, Take(w), c), c)
  {
  }

  /** Steps on one worker that neither begin nor end an execution. */
  lemma OtherRight(s: State, e: Event, c: Settings)
    requires AttemptsRight(s, c) && Enabled(s, e, c)
    requires e.Reject? || e.Mark? || e.Bury? || e.Count?
    ensures AttemptsRight(Next(s, e, c), c)
  {
    var t := Next(s, e, c);
    assert t.queue == s.queue && t.sleeping == s.sleeping && t.executed == s.executed && t.enqueued == s.enqueued;
    assert t.workers == s.workers[e.w := t.workers[e.w]];
  }

  lemma {:induction false} RunRight(n: nat, events: seq<Event>, c: Settings)
    requires After(n, events, c).Some?
    ensures AttemptsRight(After(n, events, c).value, c)
  {
    if events != [] {
      var front, e := events[..|events| - 1], events[|events| - 1];
      var s := After(n, front, c).value;
      RunRight(n, front, c);
      forall r
        ensures Conserved(s, r)
      {
        ExactlyOnePlace(n, front, c, r);
      }
      match e
      case Enqueue(m) => EnqueueRight(s, m, c);
      case Begin(w) => BeginRight(s, w, c);
      case Finish(w, ok) => FinishRight(s, w, ok, c);
      case Wake(i) => WakeRight(s, i, c);
      case Take(w) => TakeRight(s, w, c);
      case _ => OtherRight(s, e, c);
    }
  }

  /** No message is executed more than max(1, MaxRetries) times. */
  lemma ExecutionsAreBounded(n: nat, events: seq<Event>, c: Settings, r: nat)
    requires After(n, events, c).Some?
    ensures After(n, events, c).value.executed[r] <= (if c.maxRetries < 1 then 1 else c.maxRetries)
  {
    RunRight(n, events, c);
  }

  // ----- Statistics -----

  function JobIds(list: seq<Message>): (r: seq<nat>)
    ensures |r| == |list|
  {
    seq(|list|, i requires 0 <= i < |list| => list[i].job)
  }

  /** How often a job is in a list. */
  function Jobs(list: seq<Message>, job: nat): nat {
    multiset(JobIds(list))[job]
  }

  lemma JobsOneMore(list: seq<Message>, m: Message, job: nat)
    ensures Jobs(list + [m], job) == Jobs(list, job) + (if m.job == job then 1 else 0)
  {
    assert JobIds(list + [m]) == JobIds(list) + [m.job];
  }

  /** The counters and the executions still to be counted add up to those that are over. */
  predicate Tallied(s: State, job: nat) {
    && s.jobs.runCount[job] == s.jobs.successCount[job] + s.jobs.failureCount[job]
    && s.jobs.completed[job] == s.jobs.runCount[job] + Workers(s.workers, Uncounted(job, true)) + Workers(s.workers, Uncounted(job, false))
    && Jobs(s.succeeded, job) == s.jobs.successCount[job] + Workers(s.workers, Uncounted(job, true))
  }

  lemma SuccessTallies(s: State, w: nat, c: Settings, job: nat)
    requires Tallied(s, job) && Enabled(s, Finish(w, true), c)
    ensures Tallied(Next(s, Finish(w, true), c), job)
  {
    WorkersUpdate(s.workers, Uncounted(job, true), w, Won(s.workers[w].m));
    WorkersUpdate(s.workers, Uncounted(job, false), w, Won(s.workers[w].m));
    JobsOneMore(s.succeeded, s.workers[w].m, job);
  }

  lemma FailureTallies(s: State, w: nat, c: Settings, job: nat)
    requires Tallied(s, job) && Enabled(s, Finish(w, false), c)
    ensures Tallied(Next(s, Finish(w, false), c), job)
  {
    var m := s.workers[w].m;
    var after := if m.attempt < c.maxRetries then Retrying(m) else Failed(m);
    WorkersUpdate(s.workers, Uncounted(job, true), w, after);
    WorkersUpdate(s.workers, Uncounted(job, false), w, after);
  }

  lemma CountedAdds(jobs: Statistics, counted: nat, ok: bool, job: nat)
    ensures var after, one := jobs.Counted(counted, ok), if counted == job then 1 else 0;
            && after.completed == jobs.completed
            && after.runCount[job] == jobs.runCount[job] + one
            && after.successCount[job] == jobs.successCount[job] + (if ok then one else 0)
            && after.failureCount[job] == jobs.failureCount[job] + (if ok then 0 else one)
  {
  }

  lemma CountTallies(s: State, w: nat, c: Settings, job: nat)
    requires Tallied(s, job) && Enabled(s, Count(w), c)
    ensures Tallied(Next(s, Count(w), c), job)
  {
    var st, t := s.workers[w], Next(s, Count(w), c);
    assert t.workers == s.workers[w := Idle] && t.succeeded == s.succeeded && t.jobs == s.jobs.Counted(st.m.job, st.ok);
    CountedAdds(s.jobs, st.m.job, st.ok, job);
    WorkersUpdate(s.workers, Uncounted(job, true), w, Idle);
    WorkersUpdate(s.workers, Uncounted(job, false), w, Idle);
  }

  /** Only the end of an execution and its counting change what is to be counted. */
  lemma UncountedStay(s: State, e: Event, c: Settings, job: nat, ok: bool)
    requires Enabled(s, e, c) && (e.Take? || e.Begin? || e.Reject? || e.Mark? || e.Bury?)
    ensures Workers(Next(s, e, c).workers, Uncounted(job, ok)) == Workers(s.workers, Uncounted(job, ok))
  {
    var after := Next(s, e, c).workers[e.w];
    assert Next(s, e, c).workers == s.workers[e.w := after];
    assert Is(after, Uncounted(job, ok)) <==> Is(s.workers[e.w], Uncounted(job, ok));
    WorkersUpdate(s.workers, Uncounted(job, ok), e.w, after);
  }

  lemma OtherTallies(s: State, e: Event, c: Settings, job: nat)
    requires Tallied(s, job) && Enabled(s, e, c)
    requires e.Take? || e.Begin? || e.Reject? || e.Mark? || e.Bury?
    ensures Tallied(Next(s, e, c), job)
  {
    var t := Next(s, e, c);
    assert t.jobs == s.jobs && t.succeeded == s.succeeded;
    UncountedStay(s, e, c, job, true);
    UncountedStay(s, e, c, job, false);
  }

  lemma StepTallies(s: State, e: Event, c: Settings, job: nat)
    requires Tallied(s, job) && Enabled(s, e, c)
    ensures Tallied(Next(s, e, c), job)
  {
    match e
    case Enqueue(m) =>
    case Wake(i) =>
    case Finish(w, ok) =>
      if ok {
        SuccessTallies(s, w, c, job);
      } else {
        FailureTallies(s, w, c, job);
      }
    case Count(w) => CountTallies(s, w, c, job);
    case _ => OtherTallies(s, e, c, job);
  }

  lemma {:induction false} RunTallies(n: nat, events: seq<Event>, c: Settings, job: nat)
    requires After(n, events, c).Some?
    ensures Tallied(After(n, events, c).value, job)
  {
    if events == [] {
      WorkersIdle(Initial(n).workers, Uncounted(job, true));
      WorkersIdle(Initial(n).workers, Uncounted(job, false));
    } else {
      RunTallies(n, events[..|events| - 1], c, job);
      StepTallies(After(n, events[..|events| - 1], c).value, events[|events| - 1], c, job);
    }
  }

  predicate AllIdle(s: State) {
    forall w :: 0 <= w < |s.workers| ==> s.workers[w].Idle?
  }

  /** At any moment the runs of a job are its successes and its failures; when the workers
      are idle every execution is counted, and every message that succeeded as a success. */
  lemma StatisticsAddUp(n: nat, events: seq<Event>, c: Settings, job: nat)
    requires After(n, events, c).Some?
    ensures var s := After(n, events, c).value;
            && s.jobs.runCount[job] == s.jobs.successCount[job] + s.jobs.failureCount[job]
            && (AllIdle(s) ==> s.jobs.runCount[job] == s.jobs.completed[job] && s.jobs.successCount[job] == Jobs(s.succeeded, job))
  {
    RunTallies(n, events, c, job);
    var s := After(n, events, c).value;
    if AllIdle(s) {
      WorkersIdle(s.workers, Uncounted(job, true));
      WorkersIdle(s.workers, Uncounted(job, false));
    }
  }

  // ----- The status of a run -----

  predicate Shows(s: State, r: nat, st: Status) {
    r in s.status && s.status[r] == st
  }

  ghost predicate BuriedAsFailed(s: State, r: nat) {
    forall w :: 0 <= w < |s.workers| && s.workers[w].Burying? && s.workers[w].m.run == r ==> Shows(s, r, Failure)
  }

  ghost predicate StatusRight(s: State, r: nat) {
    && Workers(s.workers, Unmarked(r)) <= Runs(s.sleeping, r) + Runs(s.queue, r)
    && Workers(s.workers, Unpraised(r)) <= Runs(s.succeeded, r)
    && BuriedAsFailed(s, r)
    && (Runs(s.succeeded, r) > 0 && Workers(s.workers, Unpraised(r)) == 0 ==> Shows(s, r, Success))
    && (Runs(s.dead, r) + Runs(s.dropped, r) > 0 ==> Shows(s, r, Failure))
  }

  /** No retry is taken up before the worker that started it has marked the failure. */
  predicate TakesInTime(s: State, e: Event) {
    e.Take? && s.queue != [] ==> Workers(s.workers, Unmarked(s.queue[|s.queue| - 1].run)) == 0
  }

  predicate InTime(n: nat, events: seq<Event>, c: Settings) {
    events == [] ||
    (var front := events[..|events| - 1];
     && InTime(n, front, c)
     && (After(n, front, c).Some? ==> TakesInTime(After(n, front, c).value, events[|events| - 1])))
  }

  /** The three counts that a worker's step may change, for one run. */
  lemma WorkersShift(s: State, e: Event, c: Settings, w: nat, r: nat)
    requires Enabled(s, e, c) && !e.Enqueue? && !e.Wake? && w == e.w
    ensures var ws := Next(s, e, c).workers;
            && ws == s.workers[w := ws[w]]
            && Workers(ws, Unmarked(r)) + (if Is(s.workers[w], Unmarked(r)) then 1 else 0)
               == Workers(s.workers, Unmarked(r)) + (if Is(ws[w], Unmarked(r)) then 1 else 0)
            && Workers(ws, Unpraised(r)) + (if Is(s.workers[w], Unpraised(r)) then 1 else 0)
               == Workers(s.workers, Unpraised(r)) + (if Is(ws[w], Unpraised(r)) then 1 else 0)
  {
    var ws := Next(s, e, c).workers;
    assert ws == s.workers[w := ws[w]];
    WorkersUpdate(s.workers, Unmarked(r), w, ws[w]);
    WorkersUpdate(s.workers, Unpraised(r), w, ws[w]);
  }

  /** A worker's stage puts its run where it says. */
  lemma StageTells(s: State, w: nat, r: nat)
    requires Conserved(s, r) && StatusRight(s, r) && w < |s.workers| && !s.workers[w].Idle? && s.workers[w].m.run == r
    ensures Is(s.workers[w], InHand(r)) ==>
              Runs(s.queue, r) == Runs(s.sleeping, r) == Runs(s.succeeded, r) == Runs(s.dead, r) == Runs(s.dropped, r) == 0
    ensures s.workers[w].Won? ==>
              Runs(s.sleeping, r) == Runs(s.dead, r) == Runs(s.dropped, r) == 0 && Workers(s.workers, InHand(r)) == 0
    ensures s.workers[w].Retrying? ==>
              Runs(s.succeeded, r) == Runs(s.dead, r) == Runs(s.dropped, r) == 0 && Workers(s.workers, InHand(r)) == 0
  {
    if Is(s.workers[w], InHand(r)) {
      WorkersHave(s.workers, InHand(r), w);
    } else if s.workers[w].Won? {
      WorkersHave(s.workers, Unpraised(r), w);
    } else if s.workers[w].Retrying? {
      WorkersHave(s.workers, Unmarked(r), w);
    }
  }

  lemma EnqueueShows(s: State, m: Message, c: Settings, r: nat)
    requires Conserved(s, r) && StatusRight(s, r) && Enabled(s, Enqueue(m), c)
    ensures StatusRight(Next(s, Enqueue(m), c), r)
  {
    RunsPush(s.queue, m, r);
    forall w | 0 <= w < |s.workers| && s.workers[w].Burying? && s.workers[w].m.run == r
      ensures m.run != r
    {
      WorkersHave(s.workers, InHand(r), w);
    }
  }

  lemma TakeShows(s: State, w: nat, c: Settings, r: nat)
    requires StatusRight(s, r) && Enabled(s, Take(w), c) && TakesInTime(s, Take(w))
    ensures StatusRight(Next(s, Take(w), c), r)
  {
    WorkersShift(s, Take(w), c, w, r);
    RunsPop(s.queue, r);
  }

  lemma BeginShows(s: State, e: Event, w: nat, c: Settings, r: nat)
    requires Conserved(s, r) && StatusRight(s, r) && Enabled(s, e, c) && (e == Begin(w) || e == Reject(w))
    ensures StatusRight(Next(s, e, c), r)
  {
    WorkersShift(s, e, c, w, r);
    if s.workers[w].m.run == r {
      StageTells(s, w, r);
      forall v | 0 <= v < |s.workers| && v != w && s.workers[v].Burying?
        ensures s.workers[v].m.run != r
      {
        if s.workers[v].m.run == r {
          TwoWorkers(s.workers, InHand(r), v, w);
          assert false;
        }
      }
    }
  }

  lemma SuccessShows(s: State, w: nat, c: Settings, r: nat)
    requires Conserved(s, r) && StatusRight(s, r) && Enabled(s, Finish(w, true), c)
    ensures StatusRight(Next(s, Finish(w, true), c), r)
  {
    var m := s.workers[w].m;
    WorkersUpdate(s.workers, Unmarked(r), w, Won(m));
    WorkersUpdate(s.workers, Unpraised(r), w, Won(m));
    RunsOneMore(s.succeeded, m, r);
    if m.run == r {
      StageTells(s, w, r);
    }
  }

  lemma RetryShows(s: State, w: nat, c: Settings, r: nat)
    requires StatusRight(s, r) && Enabled(s, Finish(w, false), c) && s.workers[w].m.attempt < c.maxRetries
    ensures StatusRight(Next(s, Finish(w, false), c), r)
  {
    var m := s.workers[w].m;
    WorkersUpdate(s.workers, Unmarked(r), w, Retrying(m));
    WorkersUpdate(s.workers, Unpraised(r), w, Retrying(m));
    RunsOneMore(s.sleeping, m, r);
  }

  lemma LastFailureShows(s: State, w: nat, c: Settings, r: nat)
    requires StatusRight(s, r) && Enabled(s, Finish(w, false), c) && s.workers[w].m.attempt >= c.maxRetries
    ensures StatusRight(Next(s, Finish(w, false), c), r)
  {
    var m := s.workers[w].m;
    WorkersUpdate(s.workers, Unmarked(r), w, Failed(m));
    WorkersUpdate(s.workers, Unpraised(r), w, Failed(m));
  }

  lemma FinishShows(s: State, w: nat, ok: bool, c: Settings, r: nat)
    requires Conserved(s, r) && StatusRight(s, r) && Enabled(s, Finish(w, ok), c)
    ensures StatusRight(Next(s, Finish(w, ok), c), r)
  {
    if ok {
      SuccessShows(s, w, c, r);
    } else if s.workers[w].m.attempt < c.maxRetries {
      RetryShows(s, w, c, r);
    } else {
      LastFailureShows(s, w, c, r);
    }
  }

  lemma MarkShows(s: State, w: nat, c: Settings, r: nat)
    requires Conserved(s, r) && StatusRight(s, r) && Enabled(s, Mark(w), c)
    ensures StatusRight(Next(s, Mark(w), c), r)
  {
    WorkersShift(s, Mark(w), c, w, r);
    if s.workers[w].m.run == r {
      StageTells(s, w, r);
      forall v | 0 <= v < |s.workers| && v != w && s.workers[v].Burying?
        ensures s.workers[v].m.run != r
      {
        if s.workers[v].m.run == r {
          WorkersHave(s.workers, InHand(r), v);
          if s.workers[w].Failed? {
            TwoWorkers(s.workers, InHand(r), v, w);
          }
          assert false;
        }
      }
    }
  }

  lemma BuryShows(s: State, w: nat, c: Settings, r: nat)
    requires Conserved(s, r) && StatusRight(s, r) && Enabled(s, Bury(w), c)
    ensures StatusRight(Next(s, Bury(w), c), r)
  {
    WorkersShift(s, Bury(w), c, w, r);
    BuryRuns(s, w, c, r);
  }

  lemma CountShows(s: State, w: nat, c: Settings, r: nat)
    requires StatusRight(s, r) && Enabled(s, Count(w), c)
    ensures StatusRight(Next(s, Count(w), c), r)
  {
    WorkersShift(s, Count(w), c, w, r);
  }

  lemma WakeShows(s: State, i: nat, c: Settings, r: nat)
    requires StatusRight(s, r) && Enabled(s, Wake(i), c)
    ensures StatusRight(Next(s, Wake(i), c), r)
  {
    var m := s.sleeping[i];
    RunsWithout(s.sleeping, i, r);
    RunsPush(s.queue, Message(m.run, m.job, m.jobType, m.attempt + 1), r);
  }

  lemma {:induction false} RunShows(n: nat, events: seq<Event>, c: Settings, r: nat)
    requires After(n, events, c).Some? && InTime(n, events, c)
    ensures StatusRight(After(n, events, c).value, r)
  {
    if events == [] {
      WorkersIdle(Initial(n).workers, Unmarked(r));
      WorkersIdle(Initial(n).workers, Unpraised(r));
    } else {
      var front, e := events[..|events| - 1], events[|events| - 1];
      var s := After(n, front, c).value;
      RunShows(n, front, c, r);
      ExactlyOnePlace(n, front, c, r);
      match e
      case Enqueue(m) => EnqueueShows(s, m, c, r);
      case Take(w) => TakeShows(s, w, c, r);
      case Begin(w) => BeginShows(s, e, w, c, r);
      case Reject(w) => BeginShows(s, e, w, c, r);
      case Finish(w, ok) => FinishShows(s, w, ok, c, r);
      case Mark(w) => MarkShows(s, w, c, r);
      case Bury(w) => BuryShows(s, w, c, r);
      case Count(w) => CountShows(s, w, c, r);
      case Wake(i) => WakeShows(s, i, c, r);
    }
  }

  /** A run is over when its message is settled and no worker has to do with it any more. */
  predicate IsOver(s: State, r: nat) {
    && Runs(s.succeeded, r) + Runs(s.dead, r) + Runs(s.dropped, r) > 0
    && forall w :: 0 <= w < |s.workers| ==> s.workers[w].Idle? || s.workers[w].m.run != r
  }

  predicate ShowsOutcome(s: State, r: nat) {
    && (Runs(s.succeeded, r) > 0 ==> Shows(s, r, Success))
    && (Runs(s.dead, r) + Runs(s.dropped, r) > 0 ==> Shows(s, r, Failure))
  }

  lemma {:induction false} WorkersNone(ws: seq<Stage>, k: Kind)
    requires forall w :: 0 <= w < |ws| ==> !Is(ws[w], k)
    ensures Workers(ws, k) == 0
  {
    if ws != [] {
      WorkersNone(ws[..|ws| - 1], k);
    }
  }

  /** If retries are taken up in time, a run that is over shows how it ended: success for a
      message that succeeded and failure for one that was given up. */
  lemma StatusTellsOutcome(n: nat, events: seq<Event>, c: Settings, r: nat)
    requires After(n, events, c).Some? && InTime(n, events, c) && IsOver(After(n, events, c).value, r)
    ensures ShowsOutcome(After(n, events, c).value, r)
  {
    RunShows(n, events, c, r);
    WorkersNone(After(n, events, c).value.workers, Unpraised(r));
  }

  // ----- When that is so whatever the schedule -----

  predicate NoneRetries(s: State) {
    forall w :: 0 <= w < |s.workers| ==> !s.workers[w].Retrying?
  }

  /** One worker, or no retries, or nothing to execute. */
  predicate CannotOvertake(n: nat, c: Settings) {
    n <= 1 || c.maxRetries <= 1 || c.known == {}
  }

  predicate NoneRuns(s: State) {
    forall w :: 0 <= w < |s.workers| ==> !s.workers[w].Running?
  }

  lemma {:induction false} WorkersStay(n: nat, events: seq<Event>, c: Settings)
    requires After(n, events, c).Some?
    ensures |After(n, events, c).value.workers| == n
  {
    if events != [] {
      WorkersStay(n, events[..|events| - 1], c);
    }
  }

  lemma {:induction false} NothingKnownRuns(n: nat, events: seq<Event>, c: Settings)
    requires After(n, events, c).Some? && c.known == {}
    ensures NoneRuns(After(n, events, c).value) && NoneRetries(After(n, events, c).value)
  {
    if events != [] {
      NothingKnownRuns(n, events[..|events| - 1], c);
    }
  }

  lemma {:induction false} NoRetryRetries(n: nat, events: seq<Event>, c: Settings)
    requires After(n, events, c).Some? && c.maxRetries <= 1
    ensures NoneRetries(After(n, events, c).value)
  {
    if events != [] {
      var front, e := events[..|events| - 1], events[|events| - 1];
      NoRetryRetries(n, front, c);
      if e.Finish? {
        RunRight(n, front, c);
        assert StageExecuted(After(n, front, c).value.workers[e.w], After(n, front, c).value.executed);
      }
    }
  }

  /** A worker that takes a message is idle, so with one worker nothing is unmarked then. */
  lemma TakenInTime(n: nat, events: seq<Event>, c: Settings, e: Event)
    requires CannotOvertake(n, c) && After(n, events, c).Some? && Enabled(After(n, events, c).value, e, c)
    ensures TakesInTime(After(n, events, c).value, e)
  {
    WorkersStay(n, events, c);
    if c.maxRetries <= 1 {
      NoRetryRetries(n, events, c);
    } else if c.known == {} {
      NothingKnownRuns(n, events, c);
    }
    TakeInTime(After(n, events, c).value, e, c);
  }

  lemma TakeInTime(s: State, e: Event, c: Settings)
    requires Enabled(s, e, c) && (|s.workers| <= 1 || NoneRetries(s))
    ensures TakesInTime(s, e)
  {
    if e.Take? {
      WorkersNone(s.workers, Unmarked(s.queue[|s.queue| - 1].run));
    }
  }

  lemma {:induction false} AlwaysInTime(n: nat, events: seq<Event>, c: Settings)
    requires CannotOvertake(n, c) && After(n, events, c).Some?
    ensures InTime(n, events, c)
  {
    if events != [] {
      AlwaysInTime(n, events[..|events| - 1], c);
      TakenInTime(n, events[..|events| - 1], c, events[|events| - 1]);
    }
  }

  lemma Extend(n: nat, events: seq<Event>, e: Event, c: Settings)
    requires After(n, events, c).Some? && Enabled(After(n, events, c).value, e, c)
    ensures After(n, events + [e], c) == Some(Next(After(n, events, c).value, e, c))
  {
    assert (events + [e])[..|events|] == events;
  }

  /** The first two workers; the others are idle. */
  predicate FirstTwo(s: State, n: nat, a: Stage, b: Stage) {
    && |s.workers| == n >= 2 && s.workers[0] == a && s.workers[1] == b
    && forall w :: 2 <= w < n ==> s.workers[w].Idle?
  }

  lemma EnqueueFirst(n: nat, c: Settings, m: Message) returns (events: seq<Event>)
    requires n >= 2 && m.attempt == 1
    ensures After(n, events, c).Some?
    ensures var s := After(n, events, c).value;
            s.queue == [m] && FirstTwo(s, n, Idle, Idle) && s.sleeping == [] && s.succeeded == []
  {
    Extend(n, [], Enqueue(m), c);
    events := [] + [Enqueue(m)];
  }

  lemma RunFirst(n: nat, c: Settings, m: Message) returns (events: seq<Event>)
    requires n >= 2 && m.attempt == 1 && m.jobType in c.known
    ensures After(n, events, c).Some?
    ensures var s := After(n, events, c).value;
            s.queue == [] && FirstTwo(s, n, Running(m), Idle) && s.sleeping == [] && s.succeeded == []
  {
    events := EnqueueFirst(n, c, m);
    Extend(n, events, Take(0), c);
    events := events + [Take(0)];
    assert FirstTwo(After(n, events, c).value, n, Holding(m), Idle);
    Extend(n, events, Begin(0), c);
    events := events + [Begin(0)];
  }

  lemma FailThenWake(n: nat, c: Settings, m: Message, again: Message) returns (events: seq<Event>)
    requires n >= 2 && m.attempt == 1 < c.maxRetries && m.jobType in c.known
    requires again == Message(m.run, m.job, m.jobType, 2)
    ensures After(n, events, c).Some?
    ensures var s := After(n, events, c).value;
            s.queue == [again] && FirstTwo(s, n, Retrying(m), Idle) && s.succeeded == []
  {
    events := RunFirst(n, c, m);
    Extend(n, events, Finish(0, false), c);
    events := events + [Finish(0, false)];
    assert After(n, events, c).value.sleeping == [m];
    Extend(n, events, Wake(0), c);
    events := events + [Wake(0)];
  }

  /** With two workers and a retry, a retry that wakes at once can succeed before the first
      worker marks its failure: the run that succeeded then shows as failed for good. */
  lemma HastyRetryShowsFailure(n: nat, c: Settings, m: Message) returns (events: seq<Event>)
    requires n >= 2 && m.attempt == 1 < c.maxRetries && m.jobType in c.known
    ensures After(n, events, c).Some?
    ensures var s := After(n, events, c).value;
            AllIdle(s) && Runs(s.succeeded, m.run) == 1 && Shows(s, m.run, Failure)
  {
    var again := Message(m.run, m.job, m.jobType, 2);
    var start := FailThenWake(n, c, m, again);
    events := SucceedThenMark(n, start, c, m, again);
  }

  lemma SucceedThenMark(n: nat, start: seq<Event>, c: Settings, m: Message, again: Message) returns (events: seq<Event>)
    requires After(n, start, c).Some?
    requires var s := After(n, start, c).value;
             s.queue == [again] && FirstTwo(s, n, Retrying(m), Idle) && s.succeeded == []
    requires again.run == m.run && again.jobType in c.known
    ensures After(n, events, c).Some?
    ensures var s := After(n, events, c).value;
            AllIdle(s) && Runs(s.succeeded, m.run) == 1 && Shows(s, m.run, Failure)
  {
    events := start;
    Extend(n, events, Take(1), c);
    events := events + [Take(1)];
    assert FirstTwo(After(n, events, c).value, n, Retrying(m), Holding(again));
    Extend(n, events, Begin(1), c);
    events := events + [Begin(1)];
    assert FirstTwo(After(n, events, c).value, n, Retrying(m), Running(again));
    Extend(n, events, Finish(1, true), c);
    events := events + [Finish(1, true)];
    var s := After(n, events, c).value;
    assert FirstTwo(s, n, Retrying(m), Won(again)) && s.succeeded == [] + [again];
    RunsOneMore([], again, m.run);
    events := MarkLate(n, events, c, m, again);
  }

  lemma MarkLate(n: nat, start: seq<Event>, c: Settings, m: Message, again: Message) returns (events: seq<Event>)
    requires After(n, start, c).Some?
    requires var s := After(n, start, c).value;
             FirstTwo(s, n, Retrying(m), Won(again)) && Runs(s.succeeded, m.run) == 1
    ensures After(n, events, c).Some?
    ensures var s := After(n, events, c).value;
            AllIdle(s) && Runs(s.succeeded, m.run) == 1 && Shows(s, m.run, Failure)
  {
    events := start;
    Extend(n, events, Mark(1), c);
    events := events + [Mark(1)];
    assert FirstTwo(After(n, events, c).value, n, Retrying(m), Counting(again, true));
    Extend(n, events, Mark(0), c);
    events := events + [Mark(0)];
    assert FirstTwo(After(n, events, c).value, n, Counting(m, false), Counting(again, true));
    events := CountBoth(n, events, c, m, again);
  }

  lemma CountBoth(n: nat, start: seq<Event>, c: Settings, m: Message, again: Message) returns (events: seq<Event>)
    requires After(n, start, c).Some?
    requires FirstTwo(After(n, start, c).value, n, Counting(m, false), Counting(again, true))
    ensures After(n, events, c).Some? && AllIdle(After(n, events, c).value)
    ensures After(n, events, c).value.succeeded == After(n, start, c).value.succeeded
    ensures After(n, events, c).value.status == After(n, start, c).value.status
  {
    Extend(n, start, Count(0), c);
    events := start + [Count(0)];
    assert FirstTwo(After(n, events, c).value, n, Idle, Counting(again, true));
    Extend(n, events, Count(1), c);
    events := events + [Count(1)];
  }

  ghost predicate StatusAlwaysTells(n: nat, c: Settings) {
    forall events, r :: After(n, events, c).Some? && IsOver(After(n, events, c).value, r) ==>
                          ShowsOutcome(After(n, events, c).value, r)
  }

  /** On any schedule every run that is over shows its outcome exactly when there is at most
      one worker, or there are no retries, or there is nothing to execute. */
  lemma StatusTellsIff(n: nat, c: Settings)
    ensures StatusAlwaysTells(n, c) <==> n <= 1 || c.maxRetries <= 1 || c.known == {}
  {
    if CannotOvertake(n, c) {
      forall events, r | After(n, events, c).Some? && IsOver(After(n, events, c).value, r)
        ensures ShowsOutcome(After(n, events, c).value, r)
      {
        AlwaysInTime(n, events, c);
        StatusTellsOutcome(n, events, c, r);
      }
    } else {
      var jobType :| jobType in c.known;
      var m := Message(0, 0, jobType, 1);
      var events := HastyRetryShowsFailure(n, c, m);
      var s := After(n, events, c).value;
      assert IsOver(s, m.run) && !ShowsOutcome(s, m.run);
    }
  }

  // ----- The queue is first in, first out -----

  function Reversed(list: seq<Message>): (r: seq<Message>)
    ensures |r| == |list|
  {
    if list == [] then [] else [list[|list| - 1]] + Reversed(list[..|list| - 1])
  }

  lemma {:induction false} ReversedPush(list: seq<Message>, m: Message)
    ensures Reversed(Push(list, m)) == Reversed(list) + [m]
  {
    if list == [] {
      assert Push(list, m) == [m] && [m][..0] == [];
    } else {
      var front, last := list[..|list| - 1], list[|list| - 1];
      ReversedPush(front, m);
      assert Push(list, m)[..|list|] == Push(front, m);
      assert [last] + (Reversed(front) + [m]) == ([last] + Reversed(front)) + [m];
    }
  }

  // ----- One worker at work -----

  /** All steps of processing a message without another step in between. */
  function Processed(s: State, ok: bool, c: Settings): State
    requires |s.workers| == 1 && s.workers[0].Holding?
  {
    if s.workers[0].m.jobType !in c.known then
      Next(Next(s, Reject(0), c), Bury(0), c)
    else
      var marked := Next(Next(Next(s, Begin(0), c), Finish(0, ok), c), Mark(0), c);
      if marked.workers[0].Burying? then Next(Next(marked, Bury(0), c), Count(0), c)
      else Next(marked, Count(0), c)
  }

  // The parts of it, on the tables alone.

  function Begun(s: State, m: Message): State {
    s.(status := s.status[m.run := Started], executed := s.executed + multiset{m.run}, jobs := s.jobs.Finished(m.job))
  }

  function Praised(s: State, m: Message): State {
    s.(status := s.status[m.run := Success], succeeded := s.succeeded + [m])
  }

  function Retried(s: State, m: Message): State {
    s.(status := s.status[m.run := Failure], sleeping := s.sleeping + [m])
  }

  function Buried(s: State, m: Message, c: Settings): State {
    if c.dlqEnabled then
      s.(status := s.status[m.run := Failure], dead := PushTrimmed(s.dead, m), dropped := s.dropped + Trimmed(s.dead, m))
    else s.(status := s.status[m.run := Failure], dropped := s.dropped + [m])
  }

  function Counted(s: State, m: Message, ok: bool): State {
    s.(jobs := s.jobs.Counted(m.job, ok))
  }

  lemma UnknownIs(s: State, ok: bool, c: Settings)
    requires |s.workers| == 1 && s.workers[0].Holding? && s.workers[0].m.jobType !in c.known
    ensures Processed(s, ok, c) == Buried(s.(workers := [Idle]), s.workers[0].m, c)
  {
  }

  lemma SuccessIs(s: State, c: Settings)
    requires |s.workers| == 1 && s.workers[0].Holding? && s.workers[0].m.jobType in c.known
    ensures var m := s.workers[0].m;
            Processed(s, true, c) == Counted(Praised(Begun(s.(workers := [Idle]), m), m), m, true)
  {
  }

  lemma RetryIs(s: State, c: Settings)
    requires |s.workers| == 1 && s.workers[0].Holding? && s.workers[0].m.jobType in c.known
    requires s.workers[0].m.attempt < c.maxRetries
    ensures var m := s.workers[0].m;
            Processed(s, false, c) == Counted(Retried(Begun(s.(workers := [Idle]), m), m), m, false)
  {
  }

  lemma GivenUpIs(s: State, c: Settings)
    requires |s.workers| == 1 && s.workers[0].Holding? && s.workers[0].m.jobType in c.known
    requires s.workers[0].m.attempt >= c.maxRetries
    ensures var m := s.workers[0].m;
            Processed(s, false, c) == Counted(Buried(Begun(s.(workers := [Idle]), m), m, c), m, false)
  {
    var m := s.workers[0].m;
    var begun := Begun(s.(workers := [Running(m)]), m).(jobs := s.jobs);
    var failed := Begun(s.(workers := [Failed(m)]), m);
    assert Next(s, Begin(0), c) == begun && Next(begun, Finish(0, false), c) == failed;
    var marked := failed.(workers := [Burying(m, true)], status := failed.status[m.run := Failure]);
    assert Next(failed, Mark(0), c) == marked;
  }

  /** The Redis lists and the two tables, as one worker sees them. */
  class Backend {
    const settings: Settings
    var queue: seq<Message>
    var dlq: seq<Message>
    var sleeping: seq<Message>
    var status: map<nat, Status>
    var runCount: multiset<nat>
    var successCount: multiset<nat>
    var failureCount: multiset<nat>
    ghost var pushed: seq<Message>
    ghost var popped: seq<Message>
    ghost var succeeded: seq<Message>
    ghost var dropped: seq<Message>
    ghost var enqueued: set<nat>
    ghost var executed: multiset<nat>
    ghost var completed: multiset<nat>

    ghost function View(stage: Stage): State
      reads this
    {
      State(queue, [stage], sleeping, succeeded, dlq, dropped, status, enqueued, executed,
            Statistics(completed, runCount, successCount, failureCount))
    }

    /** What was pushed is what was popped and what still waits, in that order. */
    ghost predicate Fifo()
      reads this
    {
      pushed == popped + Reversed(queue)
    }

    method Enqueue(m: Message)
      requires Fifo()
      modifies this`queue, this`pushed
      ensures Fifo() && queue == Push(old(queue), m) && pushed == old(pushed) + [m]
    {
      ReversedPush(queue, m);
      queue, pushed := [m] + queue, pushed + [m];
      AppendAssociative(popped, Reversed(old(queue)), [m]);
    }

    /** The oldest message, if any. */
    method Dequeue() returns (m: Option<Message>)
      requires Fifo()
      modifies this`queue, this`popped
      ensures Fifo()
      ensures old(queue) == [] ==> m.None? && queue == []
      ensures old(queue) != [] ==>
                && m == Some(old(pushed)[|old(popped)|]) && popped == old(popped) + [m.value]
                && queue == old(queue)[..|old(queue)| - 1]
    {
      if queue == [] {
        return None;
      }
      var last := queue[|queue| - 1];
      AppendAssociative(popped, [last], Reversed(queue[..|queue| - 1]));
      assert pushed[|popped|] == last;
      queue, popped := queue[..|queue| - 1], popped + [last];
      m := Some(last);
    }

    method SendToDLQ(m: Message)
      modifies this`dlq, this`dropped
      ensures settings.dlqEnabled ==> dlq == PushTrimmed(old(dlq), m) && dropped == old(dropped) + Trimmed(old(dlq), m)
      ensures !settings.dlqEnabled ==> dlq == old(dlq) && dropped == old(dropped) + [m]
    {
      if !settings.dlqEnabled {
        dropped := dropped + [m];
        return;
      }
      dropped := dropped + Trimmed(dlq, m);
      dlq := [m] + dlq;
      if |dlq| > DLQ_LIMIT {
        dlq := dlq[..DLQ_LIMIT];
      }
    }

    method UpdateJobStats(m: Message, ok: bool)
      modifies this`runCount, this`successCount, this`failureCount
      ensures View(Idle) == Counted(old(View(Idle)), m, ok)
    {
      runCount := runCount + multiset{m.job};
      if ok {
        successCount := successCount + multiset{m.job};
      } else {
        failureCount := failureCount + multiset{m.job};
      }
    }

    method MarkRunStarted(m: Message)
      modifies this`status, this`executed, this`completed
      ensures View(Idle) == Begun(old(View(Idle)), m)
    {
      status := status[m.run := Started];
      executed, completed := executed + multiset{m.run}, completed + multiset{m.job};
    }

    method MarkRunSuccess(m: Message)
      modifies this`status, this`succeeded
      ensures View(Idle) == Praised(old(View(Idle)), m)
    {
      status, succeeded := status[m.run := Success], succeeded + [m];
    }

    method ScheduleRetry(m: Message)
      modifies this`status, this`sleeping
      ensures View(Idle) == Retried(old(View(Idle)), m)
    {
      sleeping := sleeping + [m];
      status := status[m.run := Failure];
    }

    method GiveUp(m: Message)
      modifies this`status, this`dlq, this`dropped
      ensures View(Idle) == Buried(old(View(Idle)), m, settings)
    {
      status := status[m.run := Failure];
      SendToDLQ(m);
    }

    /** `processMessage`, for an execution that ends with `ok`. */
    method ProcessMessage(m: Message, ok: bool)
      modifies this`status, this`executed, this`completed, this`succeeded, this`sleeping, this`dlq, this`dropped,
               this`runCount, this`successCount, this`failureCount
      ensures View(Idle) == Processed(old(View(Holding(m))), ok, settings)
    {
      ghost var s := View(Holding(m));
      assert s.(workers := [Idle]) == View(Idle);
      if m.jobType !in settings.known {
        UnknownIs(s, ok, settings);
        GiveUp(m);
        return;
      }
      MarkRunStarted(m);
      if !ok {
        if m.attempt < settings.maxRetries {
          RetryIs(s, settings);
          ScheduleRetry(m);
        } else {
          GivenUpIs(s, settings);
          GiveUp(m);
        }
        UpdateJobStats(m, false);
        return;
      }
      SuccessIs(s, settings);
      MarkRunSuccess(m);
      UpdateJobStats(m, true);
    }
  }
}
