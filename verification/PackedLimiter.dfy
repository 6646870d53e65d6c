/** The per-tenant limiter that packs a minute and a counter into one 64-bit word and
    updates it by compare-and-swap (internal/middleware/ratelimit.go). */
module PackedLimiter {
  import opened Text

  const HALF: nat := 0x1_0000_0000
  const WORD: nat := 0x1_0000_0000_0000_0000

  // ----- The word, bit by bit -----

  function Pow2(k: nat): (p: nat)
    ensures p > 0
  {
    if k == 0 then 1 else 2 * Pow2(k - 1)
  }

  function BitOr(x: nat, y: nat): nat
    decreases x + y
  {
    if x == 0 && y == 0 then 0
    else 2 * BitOr(x / 2, y / 2) + (if x % 2 == 1 || y % 2 == 1 then 1 else 0)
  }

  function BitAnd(x: nat, y: nat): nat {
    if x == 0 || y == 0 then 0
    else 2 * BitAnd(x / 2, y / 2) + (if x % 2 == 1 && y % 2 == 1 then 1 else 0)
  }

  /** `(minute << 32) | count` on uint64 */
  function Pack(minute: nat, count: nat): nat {
    BitOr(minute * HALF % WORD, count)
  }

  /** `state >> 32` */
  function MinuteOf(word: nat): nat {
    word / HALF
  }

  /** `state & 0xFFFFFFFF` */
  function CountOf(word: nat): nat {
    BitAnd(word, HALF - 1)
  }

  lemma {:induction false} OrWithZero(x: nat)
    ensures BitOr(x, 0) == x
  {
    if x > 0 {
      OrWithZero(x / 2);
    }
  }

  lemma {:induction false} OrOfDisjoint(x: nat, y: nat, k: nat)
    requires y < Pow2(k)
    ensures BitOr(x * Pow2(k), y) == x * Pow2(k) + y
  {
    if k == 0 {
      OrWithZero(x);
    } else {
      var p := Pow2(k - 1);
      assert x * Pow2(k) == 2 * (x * p);
      OrOfDisjoint(x, y / 2, k - 1);
      if x * Pow2(k) == 0 && y == 0 {
      } else {
        assert BitOr(x * Pow2(k), y) == 2 * BitOr(x * p, y / 2) + y % 2;
      }
    }
  }

  lemma HalvingRemainder(x: nat, p: nat)
    requires p > 0
    ensures x % (2 * p) == 2 * (x / 2 % p) + x % 2
  {
    var q, r := x / 2 / p, x / 2 % p;
    assert x / 2 == q * p + r;
    assert x == q * (2 * p) + (2 * r + x % 2);
    RemainderUnique(x, 2 * p, q, 2 * r + x % 2);
  }

  lemma MulMonotone(a: int, b: int, d: nat)
    requires a <= b
    ensures a * d <= b * d
  {
  }

  lemma RemainderUnique(x: nat, d: nat, q: nat, r: nat)
    requires x == q * d + r && r < d
    ensures x % d == r && x / d == q
  {
    var q', r' := x / d, x % d;
    assert x == d * q' + r' && d * q' == q' * d;
    if q < q' {
      MulMonotone(q + 1, q', d);
    } else if q' < q {
      MulMonotone(q' + 1, q, d);
    }
  }

  lemma {:induction false} AndWithMask(x: nat, k: nat)
    ensures BitAnd(x, Pow2(k) - 1) == x % Pow2(k)
  {
    if k == 0 {
    } else if x == 0 {
    } else {
      AndWithMask(x / 2, k - 1);
      HalvingRemainder(x, Pow2(k - 1));
    }
  }

  lemma HalfIsPower()
    ensures Pow2(32) == HALF
  {
    assert Pow2(8) == 0x100;
    assert Pow2(16) == 0x1_0000;
    assert Pow2(24) == 0x100_0000;
  }

  lemma CountIsRemainder(word: nat)
    ensures CountOf(word) == word % HALF
  {
    HalfIsPower();
    AndWithMask(word, 32);
  }

  /** Packing loses nothing exactly while the counter fits its 32 bits. */
  lemma PackIsExact(minute: nat, count: nat)
    requires minute < HALF
    ensures MinuteOf(Pack(minute, count)) == minute && CountOf(Pack(minute, count)) == count <==> count < HALF
  {
    CountIsRemainder(Pack(minute, count));
    if count < HALF {
      PackValue(minute, count);
      RemainderUnique(Pack(minute, count), HALF, minute, count);
    }
  }

  lemma PackValue(minute: nat, count: nat)
    requires minute < HALF && count < HALF
    ensures Pack(minute, count) == minute * HALF + count
  {
    HalfIsPower();
    assert minute * HALF < WORD;
    OrOfDisjoint(minute, count, 32);
  }

  // ----- The commit history -----

  /** Length of the run of equal minutes that ends the history. */
  function RunLength(log: seq<nat>): (n: nat)
    ensures n <= |log|
    ensures log != [] ==> n > 0
  {
    if log == [] then 0
    else if |log| == 1 || log[|log| - 2] != log[|log| - 1] then 1
    else 1 + RunLength(log[..|log| - 1])
  }

  ghost predicate Constant(log: seq<nat>, i: nat, j: nat)
    requires i <= j <= |log|
  {
    forall k, l :: i <= k < j && i <= l < j ==> log[k] == log[l]
  }

  /** No stretch of consecutive commits of one minute is longer than the limit. */
  ghost predicate RunsBounded(log: seq<nat>, limit: nat) {
    forall i: nat, j: nat :: i <= j <= |log| && Constant(log, i, j) ==> j - i <= limit
  }

  ghost predicate MinutesFit(log: seq<nat>) {
    forall i :: 0 <= i < |log| ==> log[i] < HALF
  }

  /** The word that a history leaves behind. */
  function WordOf(log: seq<nat>): nat {
    if log == [] then 0 else Pack(log[|log| - 1], RunLength(log))
  }

  lemma {:induction false} RunIsConstant(log: seq<nat>)
    ensures Constant(log, |log| - RunLength(log), |log|)
  {
    if |log| > 1 && log[|log| - 2] == log[|log| - 1] {
      var front := log[..|log| - 1];
      RunIsConstant(front);
      forall k | |log| - RunLength(log) <= k < |log|
        ensures log[k] == log[|log| - 1]
      {
        assert k < |front| ==> front[k] == front[|front| - 1];
      }
    }
  }

  lemma {:induction false} RunIsLongest(log: seq<nat>, i: nat)
    requires i <= |log| && Constant(log, i, |log|)
    ensures |log| - i <= RunLength(log)
  {
    if i + 1 < |log| {
      var front := log[..|log| - 1];
      assert log[|log| - 2] == log[|log| - 1];
      forall k, l | i <= k < |front| && i <= l < |front|
        ensures front[k] == front[l]
      {
        assert log[k] == log[l];
      }
      RunIsLongest(front, i);
    }
  }

  lemma BoundedRun(log: seq<nat>, limit: nat)
    requires RunsBounded(log, limit)
    ensures RunLength(log) <= limit
  {
    RunIsConstant(log);
  }

  lemma BoundedPrefix(log: seq<nat>, n: nat, limit: nat)
    requires RunsBounded(log, limit) && n <= |log|
    ensures RunsBounded(log[..n], limit)
  {
    var front := log[..n];
    forall i: nat, j: nat | i <= j <= |front| && Constant(front, i, j)
      ensures j - i <= limit
    {
      forall k, l | i <= k < j && i <= l < j
        ensures log[k] == log[l]
      {
        assert front[k] == front[l];
      }
      assert Constant(log, i, j);
    }
  }

  /** One more commit keeps the bound when the run it joins stays within it. */
  lemma BoundedAppend(log: seq<nat>, minute: nat, limit: nat)
    requires RunsBounded(log, limit) && RunLength(log + [minute]) <= limit
    ensures RunsBounded(log + [minute], limit)
  {
    var longer := log + [minute];
    forall i: nat, j: nat | i <= j <= |longer| && Constant(longer, i, j)
      ensures j - i <= limit
    {
      if j == |longer| {
        RunIsLongest(longer, i);
      } else {
        forall k, l | i <= k < j && i <= l < j
          ensures log[k] == log[l]
        {
          assert longer[k] == longer[l];
        }
        assert Constant(log, i, j);
      }
    }
  }

  lemma RunAfterAppend(log: seq<nat>, minute: nat)
    ensures RunLength(log + [minute]) ==
            if log != [] && log[|log| - 1] == minute then RunLength(log) + 1 else 1
  {
    assert (log + [minute])[..|log|] == log;
  }

  function Occurrences(log: seq<nat>, minute: nat): nat {
    if log == [] then 0
    else Occurrences(log[..|log| - 1], minute) + (if log[|log| - 1] == minute then 1 else 0)
  }

  /** The minutes of the runs of a history, in order. */
  function Minutes(log: seq<nat>): seq<nat> {
    if log == [] then []
    else if |log| > 1 && log[|log| - 2] == log[|log| - 1] then Minutes(log[..|log| - 1])
    else Minutes(log[..|log| - 1]) + [log[|log| - 1]]
  }

  /** No minute comes back after another was committed. */
  ghost predicate NoneReturns(minutes: seq<nat>) {
    forall i, j :: 0 <= i < j < |minutes| ==> minutes[i] != minutes[j]
  }

  lemma MinutesAfterAppend(log: seq<nat>, minute: nat)
    ensures Minutes(log + [minute]) ==
            if log != [] && log[|log| - 1] == minute then Minutes(log) else Minutes(log) + [minute]
  {
    assert (log + [minute])[..|log|] == log;
  }

  lemma OccurrencesAfterAppend(log: seq<nat>, minute: nat, m: nat)
    ensures Occurrences(log + [minute], m) == Occurrences(log, m) + (if m == minute then 1 else 0)
  {
    assert (log + [minute])[..|log|] == log;
  }

  lemma {:induction false} LastMinute(log: seq<nat>)
    ensures log != [] ==> Minutes(log) != [] && Minutes(log)[|Minutes(log)| - 1] == log[|log| - 1]
  {
    if |log| > 1 {
      LastMinute(log[..|log| - 1]);
    }
  }

  lemma {:induction false} NoOccurrence(log: seq<nat>, minute: nat)
    requires minute !in Minutes(log)
    ensures Occurrences(log, minute) == 0
  {
    if log != [] {
      LastMinute(log);
      assert Minutes(log)[|Minutes(log)| - 1] in Minutes(log);
      NoOccurrence(log[..|log| - 1], minute);
    }
  }

  lemma {:induction false} LastRunIsAll(log: seq<nat>)
    requires log != [] && NoneReturns(Minutes(log))
    ensures Occurrences(log, log[|log| - 1]) == RunLength(log)
  {
    var front, last := log[..|log| - 1], log[|log| - 1];
    if front != [] {
      if front[|front| - 1] == last {
        LastRunIsAll(front);
      } else {
        var minutes := Minutes(front);
        forall i | 0 <= i < |minutes|
          ensures minutes[i] != last
        {
          assert Minutes(log)[i] == minutes[i] && Minutes(log)[|minutes|] == last;
        }
        NoOccurrence(front, last);
      }
    }
  }

  /** If no minute comes back, none admits more than the limit. */
  lemma {:induction false} PerMinuteBound(log: seq<nat>, minute: nat, limit: nat)
    requires RunsBounded(log, limit) && NoneReturns(Minutes(log))
    ensures Occurrences(log, minute) <= limit
  {
    if log != [] {
      if log[|log| - 1] == minute {
        LastRunIsAll(log);
        BoundedRun(log, limit);
      } else {
        var front := log[..|log| - 1];
        BoundedPrefix(log, |log| - 1, limit);
        assert Minutes(front) <= Minutes(log);
        PerMinuteBound(front, minute, limit);
      }
    }
  }

  ghost predicate NeverBackwards(log: seq<nat>) {
    forall i, j :: 0 <= i < j < |log| ==> log[i] <= log[j]
  }

  lemma {:induction false} ForwardsNoneReturns(log: seq<nat>)
    requires NeverBackwards(log)
    ensures NoneReturns(Minutes(log))
    ensures forall i :: 0 <= i < |Minutes(log)| ==> Minutes(log)[i] <= log[|log| - 1]
  {
    if log != [] {
      var front := log[..|log| - 1];
      ForwardsNoneReturns(front);
      LastMinute(front);
    }
  }

  /** In particular while committed minutes never go backwards. */
  lemma ForwardsBound(log: seq<nat>, minute: nat, limit: nat)
    requires RunsBounded(log, limit) && NeverBackwards(log)
    ensures Occurrences(log, minute) <= limit
  {
    ForwardsNoneReturns(log);
    PerMinuteBound(log, minute, limit);
  }

  /** A run of `n` commits more. */
  function Stretch(log: seq<nat>, minute: nat, n: nat): seq<nat> {
    if n == 0 then log else Stretch(log, minute, n - 1) + [minute]
  }

  /** The fullest history with these runs. */
  function Fullest(minutes: seq<nat>, limit: nat): seq<nat> {
    if minutes == [] then []
    else Stretch(Fullest(minutes[..|minutes| - 1], limit), minutes[|minutes| - 1], limit)
  }

  ghost predicate NeighboursDiffer(minutes: seq<nat>) {
    forall i :: 0 < i < |minutes| ==> minutes[i - 1] != minutes[i]
  }

  /** `r` is `log` and a run of `n` commits of a minute that `log` does not end with. */
  ghost predicate EndsInRun(log: seq<nat>, r: seq<nat>, minute: nat, n: nat, limit: nat) {
    && RunsBounded(r, limit) && MinutesFit(r)
    && Minutes(r) == (if n == 0 then Minutes(log) else Minutes(log) + [minute])
    && if n == 0 then r == [] || r[|r| - 1] != minute
       else r != [] && r[|r| - 1] == minute && RunLength(r) == n
  }

  lemma RunGrows(log: seq<nat>, r: seq<nat>, minute: nat, n: nat, limit: nat)
    requires EndsInRun(log, r, minute, n, limit) && minute < HALF && n < limit
    ensures EndsInRun(log, r + [minute], minute, n + 1, limit)
  {
    RunAfterAppend(r, minute);
    MinutesAfterAppend(r, minute);
    BoundedAppend(r, minute, limit);
  }

  lemma {:induction false} StretchIsRun(log: seq<nat>, minute: nat, n: nat, limit: nat)
    requires EndsInRun(log, log, minute, 0, limit) && minute < HALF && n <= limit
    ensures EndsInRun(log, Stretch(log, minute, n), minute, n, limit)
  {
    if n > 0 {
      StretchIsRun(log, minute, n - 1, limit);
      RunGrows(log, Stretch(log, minute, n - 1), minute, n - 1, limit);
    }
  }

  lemma {:induction false} StretchCounts(log: seq<nat>, minute: nat, n: nat, m: nat)
    ensures Occurrences(Stretch(log, minute, n), m) == Occurrences(log, m) + (if m == minute then n else 0)
  {
    if n > 0 {
      StretchCounts(log, minute, n - 1, m);
      OccurrencesAfterAppend(Stretch(log, minute, n - 1), minute, m);
    }
  }

  lemma {:induction false} FullestHasRuns(minutes: seq<nat>, limit: nat)
    requires limit > 0 && NeighboursDiffer(minutes) && MinutesFit(minutes)
    ensures var r := Fullest(minutes, limit);
            && RunsBounded(r, limit) && MinutesFit(r) && Minutes(r) == minutes
            && (minutes != [] ==> r != [] && r[|r| - 1] == minutes[|minutes| - 1])
  {
    if minutes != [] {
      FullestHasRuns(minutes[..|minutes| - 1], limit);
      StretchIsRun(Fullest(minutes[..|minutes| - 1], limit), minutes[|minutes| - 1], limit, limit);
    }
  }

  /** In it a minute that comes back has more commits than the limit. */
  lemma {:induction false} FullestCounts(minutes: seq<nat>, limit: nat, j: nat)
    requires limit > 0 && NeighboursDiffer(minutes) && MinutesFit(minutes) && j < |minutes|
    ensures Occurrences(Fullest(minutes, limit), minutes[j]) >= limit
    ensures (exists i :: 0 <= i < j && minutes[i] == minutes[j]) ==>
              Occurrences(Fullest(minutes, limit), minutes[j]) > limit
  {
    var front, last := minutes[..|minutes| - 1], minutes[|minutes| - 1];
    StretchCounts(Fullest(front, limit), last, limit, minutes[j]);
    if j < |front| {
      FullestCounts(front, limit, j);
      if exists i :: 0 <= i < j && minutes[i] == minutes[j] {
        var i :| 0 <= i < j && minutes[i] == minutes[j];
        assert front[i] == front[j];
      }
    } else if exists i :: 0 <= i < j && minutes[i] == minutes[j] {
      var i :| 0 <= i < j && minutes[i] == minutes[j];
      FullestCounts(front, limit, i);
    }
  }

  // ----- Any number of requests, in any interleaving -----

  /** Where one request stands. `seenAt` and `at` are positions in the commit history. */
  datatype Request =
    | Started(minute: nat)
    | Loaded(minute: nat, seen: nat, seenAt: nat)
    | Admitted(minute: nat, count: nat, at: nat)
    | Refused(minute: nat, seenAt: nat)

  datatype State = State(word: nat, requests: map<nat, Request>, commits: seq<nat>)

  datatype Event = Arrive(id: nat, minute: nat) | Load(id: nat) | Attempt(id: nat)

  const INITIAL := State(0, map[], [])

  /** The counter a request computes from the word it loaded. */
  function NextCount(seen: nat, minute: nat): nat {
    if MinuteOf(seen) == minute then CountOf(seen) + 1 else 1
  }

  /** One atomic step: the clock read, the load, or the test followed by the
      compare-and-swap. None when the step is not possible. */
  function Next(s: State, e: Event, limit: nat): Option<State> {
    match e
    case Arrive(id, minute) =>
      if id in s.requests || minute >= HALF then None
      else Some(s.(requests := s.requests[id := Started(minute)]))
    case Load(id) =>
      if id !in s.requests || !s.requests[id].Started? then None
      else Some(s.(requests := s.requests[id := Loaded(s.requests[id].minute, s.word, |s.commits|)]))
    case Attempt(id) =>
      if id !in s.requests || !s.requests[id].Loaded? then None
      else
        var Loaded(minute, seen, seenAt) := s.requests[id];
        var count := NextCount(seen, minute);
        if MinuteOf(seen) == minute && count > limit then
          Some(s.(requests := s.requests[id := Refused(minute, seenAt)]))
        else if s.word == seen then
          Some(State(Pack(minute, count),
                     s.requests[id := Admitted(minute, count, |s.commits|)],
                     s.commits + [minute]))
        else
          Some(s.(requests := s.requests[id := Started(minute)]))
  }

  function Run(s: State, events: seq<Event>, limit: nat): Option<State>
    decreases |events|
  {
    if events == [] then Some(s)
    else
      match Next(s, events[0], limit)
      case None => None
      case Some(s') => Run(s', events[1..], limit)
  }

  /** What is known of one request, against the commit history. */
  ghost predicate RequestOk(r: Request, commits: seq<nat>, limit: nat) {
    match r
    case Started(minute) => minute < HALF
    case Loaded(minute, seen, seenAt) =>
      minute < HALF && seenAt <= |commits| && seen == WordOf(commits[..seenAt])
    case Admitted(minute, count, at) =>
      && at < |commits| && commits[at] == minute
      && count == RunLength(commits[..at + 1]) <= limit
    case Refused(minute, seenAt) =>
      && 0 < seenAt <= |commits| && commits[seenAt - 1] == minute
      && RunLength(commits[..seenAt]) == limit
  }

  ghost predicate Inv(s: State, limit: nat) {
    && s.word == WordOf(s.commits)
    && MinutesFit(s.commits)
    && RunsBounded(s.commits, limit)
    && forall id | id in s.requests :: RequestOk(s.requests[id], s.commits, limit)
  }

  /** Reading the word of a history: its last minute and the length of its last run. */
  lemma WordReadsBack(log: seq<nat>, limit: nat)
    requires limit < HALF && MinutesFit(log) && RunsBounded(log, limit)
    ensures log != [] ==> MinuteOf(WordOf(log)) == log[|log| - 1] && CountOf(WordOf(log)) == RunLength(log)
    ensures log == [] ==> MinuteOf(WordOf(log)) == 0 && CountOf(WordOf(log)) == 0
  {
    if log != [] {
      BoundedRun(log, limit);
      PackIsExact(log[|log| - 1], RunLength(log));
    }
  }

  /** The step taken from the current word: the new word belongs to the longer history. */
  lemma CommitStep(log: seq<nat>, minute: nat, limit: nat)
    requires 0 < limit < HALF && MinutesFit(log) && RunsBounded(log, limit) && minute < HALF
    ensures NextCount(WordOf(log), minute) == RunLength(log + [minute])
    ensures !(MinuteOf(WordOf(log)) == minute && NextCount(WordOf(log), minute) > limit) <==>
            RunsBounded(log + [minute], limit)
    ensures MinuteOf(WordOf(log)) == minute && NextCount(WordOf(log), minute) > limit ==>
              log != [] && log[|log| - 1] == minute && RunLength(log) == limit
  {
    WordReadsBack(log, limit);
    RunAfterAppend(log, minute);
    BoundedRun(log, limit);
    if RunLength(log + [minute]) <= limit {
      BoundedAppend(log, minute, limit);
    } else {
      RunIsConstant(log + [minute]);
    }
  }

  lemma RequestStaysOk(r: Request, commits: seq<nat>, minute: nat, limit: nat)
    requires RequestOk(r, commits, limit)
    ensures RequestOk(r, commits + [minute], limit)
  {
    match r
    case Started(_) =>
    case Loaded(_, _, seenAt) =>
      assert (commits + [minute])[..seenAt] == commits[..seenAt];
    case Admitted(_, _, at) =>
      assert (commits + [minute])[..at + 1] == commits[..at + 1];
    case Refused(_, seenAt) =>
      assert (commits + [minute])[..seenAt] == commits[..seenAt];
  }

  lemma CommitKeepsInv(s: State, id: nat, limit: nat)
    requires 0 < limit < HALF && Inv(s, limit) && id in s.requests && s.requests[id].Loaded?
    requires var r := s.requests[id];
             s.word == r.seen && !(MinuteOf(r.seen) == r.minute && NextCount(r.seen, r.minute) > limit)
    ensures Inv(Next(s, Attempt(id), limit).value, limit)
  {
    var minute := s.requests[id].minute;
    assert RequestOk(s.requests[id], s.commits, limit);
    CommitStep(s.commits, minute, limit);
    var longer := s.commits + [minute];
    assert longer[..|s.commits| + 1] == longer;
    BoundedRun(longer, limit);
    forall other | other in s.requests
      ensures RequestOk(s.requests[other], longer, limit)
    {
      RequestStaysOk(s.requests[other], s.commits, minute, limit);
    }
  }

  lemma RefusalKeepsInv(s: State, id: nat, limit: nat)
    requires 0 < limit < HALF && Inv(s, limit) && id in s.requests && s.requests[id].Loaded?
    requires var r := s.requests[id];
             MinuteOf(r.seen) == r.minute && NextCount(r.seen, r.minute) > limit
    ensures Inv(Next(s, Attempt(id), limit).value, limit)
  {
    var Loaded(minute, seen, seenAt) := s.requests[id];
    assert RequestOk(s.requests[id], s.commits, limit);
    var log := s.commits[..seenAt];
    BoundedPrefix(s.commits, seenAt, limit);
    CommitStep(log, minute, limit);
    assert log[|log| - 1] == s.commits[seenAt - 1];
  }

  lemma StepKeepsInv(s: State, e: Event, limit: nat)
    requires 0 < limit < HALF && Inv(s, limit) && Next(s, e, limit).Some?
    ensures Inv(Next(s, e, limit).value, limit)
  {
    if e.Arrive? {
    } else if e.Load? {
      assert RequestOk(s.requests[e.id], s.commits, limit);
      assert s.commits[..|s.commits|] == s.commits;
    } else {
      var r := s.requests[e.id];
      assert RequestOk(r, s.commits, limit);
      if MinuteOf(r.seen) == r.minute && NextCount(r.seen, r.minute) > limit {
        RefusalKeepsInv(s, e.id, limit);
      } else if s.word == r.seen {
        CommitKeepsInv(s, e.id, limit);
      }
    }
  }

  /** Safety over every run: the invariant, hence every run of commits within the limit,
      every admission counted, every refusal justified by a full run of its own minute. */
  lemma {:induction false} RunKeepsInv(s: State, events: seq<Event>, limit: nat)
    requires 0 < limit < HALF && Inv(s, limit) && Run(s, events, limit).Some?
    ensures Inv(Run(s, events, limit).value, limit)
    decreases |events|
  {
    if events != [] {
      StepKeepsInv(s, events[0], limit);
      RunKeepsInv(Next(s, events[0], limit).value, events[1..], limit);
    }
  }

  lemma {:induction false} RunAppend(s: State, a: seq<Event>, b: seq<Event>, limit: nat)
    requires Run(s, a, limit).Some?
    ensures Run(s, a + b, limit) == Run(Run(s, a, limit).value, b, limit)
    decreases |a|
  {
    if a == [] {
      assert a + b == b;
    } else {
      assert (a + b)[1..] == a[1..] + b;
      RunAppend(Next(s, a[0], limit).value, a[1..], b, limit);
    }
  }

  /** Requests served one after another. */
  function Serial(log: seq<nat>): seq<Event> {
    if log == [] then []
    else
      var id := |log| - 1;
      Serial(log[..id]) + [Arrive(id, log[id]), Load(id), Attempt(id)]
  }

  lemma {:induction false} SerialReaches(log: seq<nat>, limit: nat)
    requires 0 < limit < HALF && MinutesFit(log) && RunsBounded(log, limit)
    ensures var end := Run(INITIAL, Serial(log), limit);
            && end.Some? && end.value.commits == log
            && forall id | id in end.value.requests :: id < |log|
  {
    if log != [] {
      var id := |log| - 1;
      var front := log[..id];
      BoundedPrefix(log, id, limit);
      SerialReaches(front, limit);
      assert front + [log[id]] == log;
      var s0 := Run(INITIAL, Serial(front), limit).value;
      RunKeepsInv(INITIAL, Serial(front), limit);
      CommitStep(front, log[id], limit);
      var tail := [Arrive(id, log[id]), Load(id), Attempt(id)];
      var s1 := Next(s0, tail[0], limit).value;
      var s2 := Next(s1, tail[1], limit).value;
      var s3 := Next(s2, tail[2], limit).value;
      RunThree(s0, tail, limit);
      RunAppend(INITIAL, Serial(front), tail, limit);
    }
  }

  lemma RunThree(s: State, e: seq<Event>, limit: nat)
    requires |e| == 3
    requires Next(s, e[0], limit).Some?
    requires Next(Next(s, e[0], limit).value, e[1], limit).Some?
    ensures Run(s, e, limit) == Next(Next(Next(s, e[0], limit).value, e[1], limit).value, e[2], limit)
  {
    var s1 := Next(s, e[0], limit).value;
    var s2 := Next(s1, e[1], limit).value;
    assert Run(s, e, limit) == Run(s1, e[1..], limit);
    assert e[1..][0] == e[1] && e[1..][1..] == e[2..];
    assert Run(s1, e[1..], limit) == Run(s2, e[2..], limit);
    assert e[2..][0] == e[2] && e[2..][1..] == [];
    match Next(s2, e[2], limit)
    case None =>
    case Some(s3) => assert Run(s3, [], limit) == Some(s3);
  }

  ghost predicate Reachable(log: seq<nat>, limit: nat) {
    exists events :: Run(INITIAL, events, limit).Some? && Run(INITIAL, events, limit).value.commits == log
  }

  /** The limiter promises run bounds and nothing else: a history can be committed
      exactly when every run in it is within the limit. */
  lemma ReachableHistories(log: seq<nat>, limit: nat)
    requires 0 < limit < HALF
    ensures Reachable(log, limit) <==> MinutesFit(log) && RunsBounded(log, limit)
  {
    if Reachable(log, limit) {
      var events :| Run(INITIAL, events, limit).Some? && Run(INITIAL, events, limit).value.commits == log;
      RunKeepsInv(INITIAL, events, limit);
    }
    if MinutesFit(log) && RunsBounded(log, limit) {
      SerialReaches(log, limit);
    }
  }

  ghost predicate KeepsLimit(log: seq<nat>, limit: nat) {
    forall minute :: Occurrences(log, minute) <= limit
  }

  /** For any order in which minutes get committed, run by run: every history with those
      runs that the limiter lets through keeps every minute within the limit exactly when
      no minute comes back after another was committed. */
  lemma PerMinuteBoundIff(minutes: seq<nat>, limit: nat)
    requires 0 < limit < HALF && NeighboursDiffer(minutes) && MinutesFit(minutes)
    ensures (forall log :: Reachable(log, limit) && Minutes(log) == minutes ==> KeepsLimit(log, limit))
       <==> NoneReturns(minutes)
  {
    if NoneReturns(minutes) {
      forall log, minute | Reachable(log, limit) && Minutes(log) == minutes
        ensures Occurrences(log, minute) <= limit
      {
        ReachableHistories(log, limit);
        PerMinuteBound(log, minute, limit);
      }
    } else {
      var i, j :| 0 <= i < j < |minutes| && minutes[i] == minutes[j];
      var log := Fullest(minutes, limit);
      FullestHasRuns(minutes, limit);
      ReachableHistories(log, limit);
      FullestCounts(minutes, limit, j);
      assert Occurrences(log, minutes[j]) > limit;
    }
  }

  /** A minute read before a slow loop can be committed late, and so come back. Whatever the
      limit, a minute that comes back after another one can then exceed it. */
  lemma StaleMinuteExceedsLimit(late: nat, between: nat, limit: nat)
    requires 0 < limit < HALF && late < HALF && between < HALF && late != between
    ensures exists log :: Reachable(log, limit) && Minutes(log) == [late, between, late] && Occurrences(log, late) > limit
  {
    var minutes := [late, between, late];
    FullestHasRuns(minutes, limit);
    ReachableHistories(Fullest(minutes, limit), limit);
    assert minutes[0] == minutes[2];
    FullestCounts(minutes, limit, 2);
  }

  // ----- The loop of one request -----

  /** The shared word, with the history of its commits. */
  class TenantLimiter {
    var state: nat
    const limit: nat
    ghost var commits: seq<nat>

    ghost predicate Valid()
      reads this
    {
      && 0 < limit < HALF
      && state == WordOf(commits) && MinutesFit(commits) && RunsBounded(commits, limit)
    }

    constructor (limit: nat)
      requires 0 < limit < HALF
      ensures Valid() && commits == [] && this.limit == limit
    {
      this.limit := limit;
      state, commits := 0, [];
    }

    method CompareAndSwap(expected: nat, replacement: nat, ghost minute: nat) returns (swapped: bool)
      requires Valid() && minute < HALF
      requires state == expected ==>
                 replacement == WordOf(commits + [minute]) && RunsBounded(commits + [minute], limit)
      modifies this
      ensures Valid()
      ensures swapped <==> old(state) == expected
      ensures commits == if swapped then old(commits) + [minute] else old(commits)
    {
      swapped := state == expected;
      if swapped {
        state, commits := replacement, commits + [minute];
      }
    }

    /** Other goroutines commit between our load and our swap. */
    method Interfere(minutes: seq<nat>)
      requires Valid() && MinutesFit(minutes)
      modifies this
      ensures Valid() && old(commits) <= commits
    {
      for i := 0 to |minutes|
        invariant Valid() && old(commits) <= commits
      {
        CommitStep(commits, minutes[i], limit);
        var count := NextCount(state, minutes[i]);
        if !(MinuteOf(state) == minutes[i] && count > limit) {
          var _ := CompareAndSwap(state, Pack(minutes[i], count), minutes[i]);
        }
      }
    }

    /** One request. `others[k]` are the minutes that other goroutines try to commit
        during the k-th round of the loop. */
    method Admit(minute: nat, others: seq<seq<nat>>) returns (admitted: bool, count: nat)
      requires Valid() && minute < HALF && forall k :: 0 <= k < |others| ==> MinutesFit(others[k])
      modifies this
      ensures Valid() && old(commits) <= commits
      ensures admitted ==>
                && |commits| > |old(commits)| && commits[|commits| - 1] == minute
                && count == RunLength(commits) <= limit
      ensures !admitted ==> RefusedBy(commits, |old(commits)|, minute, limit)
    {
      var round := 0;
      while true
        invariant Valid() && old(commits) <= commits && round <= |others|
        decreases |others| - round
      {
        var seen := state;
        ghost var loaded := commits;
        if round < |others| {
          Interfere(others[round]);
        }
        count := NextCount(seen, minute);
        CommitStep(loaded, minute, limit);
        if MinuteOf(seen) == minute && count > limit {
          RefusedAt(commits, |old(commits)|, loaded, minute, limit);
          return false, count;
        }
        CommitStep(commits, minute, limit);
        var swapped := CompareAndSwap(seen, Pack(minute, count), minute);
        if swapped {
          BoundedRun(commits, limit);
          return true, count;
        }
        round := round + 1;
      }
    }
  }

  /** At some point since the request arrived, its minute had `limit` commits in a row. */
  ghost predicate RefusedBy(commits: seq<nat>, arrived: nat, minute: nat, limit: nat) {
    exists n :: arrived <= n <= |commits| && n > 0
      && commits[n - 1] == minute && RunLength(commits[..n]) == limit
  }

  lemma RefusedAt(commits: seq<nat>, arrived: nat, loaded: seq<nat>, minute: nat, limit: nat)
    requires loaded <= commits && arrived <= |loaded| && loaded != []
    requires loaded[|loaded| - 1] == minute && RunLength(loaded) == limit
    ensures RefusedBy(commits, arrived, minute, limit)
  {
    assert commits[..|loaded|] == loaded;
  }
}
