/** The per-tenant sliding window kept in Redis by a Lua script
    (internal/middleware/redis_ratelimit.go). Times are in milliseconds. */
module SlidingWindow {
  import opened Text

  const SLACK: nat := 1000  // added to the window in both PEXPIRE calls

  // ----- The plain rule: a log of admissions that forgets nothing -----

  ghost predicate Sorted(log: seq<nat>) {
    forall i, j :: 0 <= i < j < |log| ==> log[i] <= log[j]
  }

  /** How many admissions happened at `t` or before. */
  function UpTo(log: seq<nat>, t: int): (n: nat)
    ensures n <= |log|
  {
    if log == [] then 0
    else UpTo(log[..|log| - 1], t) + (if log[|log| - 1] <= t then 1 else 0)
  }

  /** How many admissions lie in the half-open window (t - window, t]. */
  function InWindow(log: seq<nat>, window: nat, t: int): nat {
    if log == [] then 0
    else InWindow(log[..|log| - 1], window, t) + (if t - window < log[|log| - 1] <= t then 1 else 0)
  }

  /** A request at `now` is admitted while its own window holds fewer than `limit`. */
  predicate Allows(log: seq<nat>, window: nat, limit: nat, now: nat) {
    InWindow(log, window, now) < limit
  }

  function Admissions(calls: seq<nat>, window: nat, limit: nat): (log: seq<nat>) {
    if calls == [] then []
    else
      var log := Admissions(calls[..|calls| - 1], window, limit);
      var now := calls[|calls| - 1];
      if Allows(log, window, limit, now) then log + [now] else log
  }

  function Decisions(calls: seq<nat>, window: nat, limit: nat): (d: seq<bool>)
    ensures |d| == |calls|
  {
    if calls == [] then []
    else
      var front := calls[..|calls| - 1];
      Decisions(front, window, limit)
      + [Allows(Admissions(front, window, limit), window, limit, calls[|calls| - 1])]
  }

  lemma {:induction false} UpToSplits(log: seq<nat>, t: int)
    requires Sorted(log)
    ensures forall i :: 0 <= i < |log| ==> (log[i] <= t <==> i < UpTo(log, t))
  {
    if log != [] {
      UpToSplits(log[..|log| - 1], t);
    }
  }

  lemma {:induction false} InWindowIsDifference(log: seq<nat>, window: nat, t: int)
    ensures InWindow(log, window, t) == UpTo(log, t) - UpTo(log, t - window)
  {
    if log != [] {
      InWindowIsDifference(log[..|log| - 1], window, t);
    }
  }

  lemma {:induction false} UpToAll(log: seq<nat>, t: int)
    requires forall i :: 0 <= i < |log| ==> log[i] <= t
    ensures UpTo(log, t) == |log|
  {
    if log != [] {
      UpToAll(log[..|log| - 1], t);
    }
  }

  /** Any `limit` + 1 consecutive admissions span at least a window. */
  ghost predicate Spaced(log: seq<nat>, window: nat, limit: nat) {
    forall i, j :: 0 <= i && j == i + limit && j < |log| ==> log[i] <= log[j] - window
  }

  lemma SpacedWindowBound(log: seq<nat>, window: nat, limit: nat, t: int)
    requires Sorted(log) && Spaced(log, window, limit)
    ensures InWindow(log, window, t) <= limit
  {
    InWindowIsDifference(log, window, t);
    UpToSplits(log, t);
    UpToSplits(log, t - window);
    var a, b := UpTo(log, t - window), UpTo(log, t);
    if 0 <= b - 1 - limit {
      assert log[b - 1] <= t;
      assert log[b - 1 - limit] <= log[b - 1] - window;
      assert b - 1 - limit < a;
    }
  }

  lemma AdmissionKeepsSpaced(log: seq<nat>, window: nat, limit: nat, now: nat)
    requires Sorted(log) && Spaced(log, window, limit) && 0 < limit
    requires log == [] || log[|log| - 1] <= now
    requires Allows(log, window, limit, now)
    ensures Sorted(log + [now]) && Spaced(log + [now], window, limit)
  {
    InWindowIsDifference(log, window, now);
    UpToAll(log, now);
    UpToSplits(log, now - window);
  }

  lemma {:induction false} AdmissionsSpaced(calls: seq<nat>, window: nat, limit: nat)
    requires Sorted(calls) && 0 < limit
    ensures var log := Admissions(calls, window, limit);
            && Sorted(log) && Spaced(log, window, limit)
            && (log != [] ==> calls != [] && log[|log| - 1] <= calls[|calls| - 1])
  {
    if calls != [] {
      var front := calls[..|calls| - 1];
      var now := calls[|calls| - 1];
      AdmissionsSpaced(front, window, limit);
      var log := Admissions(front, window, limit);
      assert log != [] ==> log[|log| - 1] <= front[|front| - 1] <= now;
      if Allows(log, window, limit, now) {
        AdmissionKeepsSpaced(log, window, limit, now);
      }
    }
  }

  /** Every window of every run, wherever it ends, holds at most `limit` admissions. */
  lemma EveryWindowBounded(calls: seq<nat>, window: nat, limit: nat, t: int)
    requires Sorted(calls) && 0 < limit
    ensures InWindow(Admissions(calls, window, limit), window, t) <= limit
  {
    AdmissionsSpaced(calls, window, limit);
    SpacedWindowBound(Admissions(calls, window, limit), window, limit, t);
  }

  /** A request is refused exactly when its own window already holds `limit` admissions:
      the limiter never refuses early. */
  lemma RefusedOnlyWhenFull(calls: seq<nat>, window: nat, limit: nat, now: nat)
    requires Sorted(calls + [now]) && 0 < limit
    ensures !Allows(Admissions(calls, window, limit), window, limit, now) <==>
            InWindow(Admissions(calls, window, limit), window, now) == limit
  {
    assert Sorted(calls) by {
      forall i, j | 0 <= i < j < |calls| ensures calls[i] <= calls[j] {
        assert (calls + [now])[i] <= (calls + [now])[j];
      }
    }
    EveryWindowBounded(calls, window, limit, now);
  }

  // ----- The Redis keys -----

  /** One admission: when, and the value of the sequence counter. */
  datatype Entry = Entry(time: nat, serial: nat)

  /** `now .. '-' .. INCR` */
  function Member(e: Entry): string {
    Decimal(e.time) + "-" + Decimal(e.serial)
  }

  lemma MemberInjective(a: Entry, b: Entry)
    requires Member(a) == Member(b)
    ensures a == b
  {
    assert Member(a) == Decimal(a.time) + ['-'] + Decimal(a.serial);
    assert Member(b) == Decimal(b.time) + ['-'] + Decimal(b.serial);
    SplitAtSeparator(Decimal(a.time), Decimal(b.time), Decimal(a.serial), Decimal(b.serial), '-');
    DecimalInjective(a.time, b.time);
    DecimalInjective(a.serial, b.serial);
  }

  /** Entries in the order of their admission: later, or at the same time with a higher
      serial number. */
  ghost predicate Ordered(log: seq<Entry>) {
    forall i, j :: 0 <= i < j < |log| ==>
      log[i].time < log[j].time || (log[i].time == log[j].time && log[i].serial < log[j].serial)
  }

  /** The sorted set that holds exactly the entries from position `lo` on. */
  function Table(log: seq<Entry>, lo: nat): map<string, nat> {
    if |log| <= lo then map[]
    else
      var last := log[|log| - 1];
      Table(log[..|log| - 1], lo)[Member(last) := last.time]
  }

  ghost predicate HoldsFrom(entries: map<string, nat>, log: seq<Entry>, lo: nat) {
    && (forall i :: lo <= i < |log| ==> Member(log[i]) in entries && entries[Member(log[i])] == log[i].time)
    && (forall m :: m in entries ==> exists i :: lo <= i < |log| && m == Member(log[i]))
  }

  lemma HoldsOneMore(entries: map<string, nat>, log: seq<Entry>, lo: nat, e: Entry)
    requires HoldsFrom(entries, log, lo) && lo <= |log|
    ensures HoldsFrom(entries[Member(e) := e.time], log + [e], lo)
  {
    var all, table := log + [e], entries[Member(e) := e.time];
    forall i | lo <= i < |all|
      ensures Member(all[i]) in table && table[Member(all[i])] == all[i].time
    {
      if i < |log| && Member(all[i]) == Member(e) {
        MemberInjective(all[i], e);
      }
    }
    forall m | m in table
      ensures exists i :: lo <= i < |all| && m == Member(all[i])
    {
      if m == Member(e) {
        assert m == Member(all[|log|]);
      } else {
        var i :| lo <= i < |log| && m == Member(log[i]);
        assert m == Member(all[i]);
      }
    }
  }

  lemma {:induction false} TableHolds(log: seq<Entry>, lo: nat)
    ensures HoldsFrom(Table(log, lo), log, lo)
  {
    if lo < |log| {
      var front, last := log[..|log| - 1], log[|log| - 1];
      TableHolds(front, lo);
      HoldsOneMore(Table(front, lo), front, lo, last);
      assert front + [last] == log;
    }
  }

  /** Members of different entries differ, so the table has one row per entry. */
  lemma {:induction false} Cardinality(log: seq<Entry>, lo: nat)
    requires Ordered(log) && lo <= |log|
    ensures |Table(log, lo)| == |log| - lo
  {
    if lo < |log| {
      var front, last := log[..|log| - 1], log[|log| - 1];
      Cardinality(front, lo);
      LastIsNew(log, lo);
    }
  }

  lemma LastIsNew(log: seq<Entry>, lo: nat)
    requires Ordered(log) && log != []
    ensures Member(log[|log| - 1]) !in Table(log[..|log| - 1], lo)
  {
    var front, last := log[..|log| - 1], log[|log| - 1];
    TableHolds(front, lo);
    if Member(last) in Table(front, lo) {
      var i :| lo <= i < |front| && Member(last) == Member(front[i]);
      MemberInjective(last, front[i]);
      assert false;
    }
  }

  function Times(log: seq<Entry>): (t: seq<nat>)
    ensures |t| == |log| && forall i :: 0 <= i < |log| ==> t[i] == log[i].time
  {
    seq(|log|, i requires 0 <= i < |log| => log[i].time)
  }

  /** ZREMRANGEBYSCORE key 0 cutoff */
  function Prune(entries: map<string, nat>, cutoff: int): map<string, nat> {
    map m | m in entries && !(0 <= entries[m] <= cutoff) :: entries[m]
  }

  lemma PruneOneMore(entries: map<string, nat>, m: string, time: nat, cutoff: int)
    requires m !in entries
    ensures Prune(entries[m := time], cutoff) == (if time <= cutoff then Prune(entries, cutoff) else Prune(entries, cutoff)[m := time])
  {
  }

  lemma TimesFront(log: seq<Entry>)
    requires log != []
    ensures Times(log)[..|log| - 1] == Times(log[..|log| - 1])
  {
  }

  /** Pruning the sorted set by time is dropping a prefix of the history. */
  lemma {:induction false} PruneDropsDead(log: seq<Entry>, lo: nat, cutoff: int)
    requires Ordered(log) && lo <= UpTo(Times(log), cutoff)
    ensures Prune(Table(log, lo), cutoff) == Table(log, UpTo(Times(log), cutoff))
  {
    if lo < |log| {
      var front, last := log[..|log| - 1], log[|log| - 1];
      TimesFront(log);
      LastIsNew(log, lo);
      if last.time <= cutoff {
        UpToAll(Times(front), cutoff);
      }
      PruneDropsDead(front, lo, cutoff);
      PruneOneMore(Table(front, lo), Member(last), last.time, cutoff);
    }
  }

  /** The two keys of one tenant: the sorted set, the counter, and when each vanishes. */
  datatype Keys = Keys(entries: map<string, nat>, entriesExpiry: nat, counter: nat, counterExpiry: nat)

  const NO_KEYS := Keys(map[], 0, 0, 0)

  /** Redis drops a key once the clock is past its expiry. */
  function Expire(k: Keys, now: nat): Keys {
    Keys(if k.entriesExpiry < now then map[] else k.entries, k.entriesExpiry,
         if k.counterExpiry < now then 0 else k.counter, k.counterExpiry)
  }

  /** What the script counts: the keys after expiry and pruning. */
  function Current(k: Keys, window: nat, now: nat): Keys {
    var live := Expire(k, now);
    live.(entries := Prune(live.entries, now - window))
  }

  datatype Outcome = Outcome(keys: Keys, allowed: bool, count: nat)

  /** The keys after an admission. */
  function Admit(current: Keys, window: nat, now: nat): Keys {
    var e := Entry(now, current.counter + 1);
    Keys(current.entries[Member(e) := now], now + window + SLACK, e.serial, now + window + SLACK)
  }

  /** The verdict once expired and stale entries are gone. */
  function Decide(current: Keys, window: nat, limit: nat, now: nat): Outcome {
    var count := |current.entries|;
    if count >= limit then Outcome(current, false, count)
    else Outcome(Admit(current, window, now), true, count + 1)
  }

  /** The script, run at `now`. */
  function Script(k: Keys, window: nat, limit: nat, now: nat): Outcome {
    Decide(Current(k, window, now), window, limit, now)
  }

  /** The keys against the full history of admissions, of which the sorted set holds the
      part from `lo` on. */
  ghost predicate KeysOk(k: Keys, log: seq<Entry>, lo: nat, lastCall: nat, window: nat) {
    && Ordered(log)
    && lo <= UpTo(Times(log), lastCall - window)
    && k.entries == Table(log, lo)
    && if log == [] then k.counter == 0 else
         var last := log[|log| - 1];
         && last.time <= lastCall
         && k.entriesExpiry == k.counterExpiry == last.time + window + SLACK
         && (k.counter == last.serial || (k.counter == 0 && k.counterExpiry < lastCall))
  }

  lemma {:induction false} UpToMonotone(log: seq<nat>, s: int, t: int)
    requires s <= t
    ensures UpTo(log, s) <= UpTo(log, t)
  {
    if log != [] {
      UpToMonotone(log[..|log| - 1], s, t);
    }
  }

  /** PEXPIRE never removes a live entry: while any admission still counts for a window
      that ends now, expiry leaves both keys as they are. */
  lemma ExpiryKeepsLive(k: Keys, log: seq<Entry>, lo: nat, lastCall: nat, window: nat, now: nat)
    returns (lo': nat)
    requires KeysOk(k, log, lo, lastCall, window) && lastCall <= now
    ensures (exists i :: 0 <= i < |log| && now - window < log[i].time) ==> Expire(k, now) == k
    ensures KeysOk(Expire(k, now), log, lo', now, window)
    ensures log != [] && log[|log| - 1].time == now ==> Expire(k, now).counter == log[|log| - 1].serial
  {
    lo' := lo;
    UpToMonotone(Times(log), lastCall - window, now - window);
    if k.entriesExpiry < now && log != [] {
      UpToAll(Times(log), now - window);
      lo' := |log|;
    }
  }

  lemma LiveCount(log: seq<Entry>, window: nat, now: nat)
    requires Ordered(log) && (log != [] ==> log[|log| - 1].time <= now)
    ensures |Table(log, UpTo(Times(log), now - window))| == InWindow(Times(log), window, now)
  {
    Cardinality(log, UpTo(Times(log), now - window));
    InWindowIsDifference(Times(log), window, now);
    UpToAll(Times(log), now);
  }

  lemma PruneKeepsOk(k: Keys, log: seq<Entry>, lo: nat, now: nat, window: nat)
    requires KeysOk(k, log, lo, now, window)
    ensures var entries := Prune(k.entries, now - window);
            && KeysOk(k.(entries := entries), log, UpTo(Times(log), now - window), now, window)
            && |entries| == InWindow(Times(log), window, now)
  {
    PruneDropsDead(log, lo, now - window);
    LiveCount(log, window, now);
  }

  lemma NextEntryOrdered(k: Keys, log: seq<Entry>, lo: nat, now: nat, window: nat)
    requires KeysOk(k, log, lo, now, window)
    requires log != [] && log[|log| - 1].time == now ==> k.counter == log[|log| - 1].serial
    ensures Ordered(log + [Entry(now, k.counter + 1)])
  {
  }

  lemma TimesOneMore(log: seq<Entry>, e: Entry)
    ensures Times(log + [e]) == Times(log) + [e.time]
    ensures Times(log + [e])[..|log|] == Times(log)
  {
  }

  lemma TableOneMore(log: seq<Entry>, e: Entry, lo: nat)
    requires lo <= |log|
    ensures Table(log + [e], lo) == Table(log, lo)[Member(e) := e.time]
  {
    assert (log + [e])[..|log|] == log;
  }

  lemma AdmitKeepsOk(k: Keys, log: seq<Entry>, lo: nat, now: nat, window: nat)
    requires KeysOk(k, log, lo, now, window) && window > 0
    requires log != [] && log[|log| - 1].time == now ==> k.counter == log[|log| - 1].serial
    ensures KeysOk(Admit(k, window, now), log + [Entry(now, k.counter + 1)], lo, now, window)
    ensures Times(log + [Entry(now, k.counter + 1)]) == Times(log) + [now]
  {
    var e := Entry(now, k.counter + 1);
    NextEntryOrdered(k, log, lo, now, window);
    TimesOneMore(log, e);
    TableOneMore(log, e, lo);
    assert lo <= UpTo(Times(log + [e]), now - window);
  }

  lemma AppendNow(log: seq<nat>, window: nat, now: nat)
    requires window > 0
    ensures InWindow(log + [now], window, now) == InWindow(log, window, now) + 1
  {
    assert (log + [now])[..|log|] == log;
  }

  lemma CurrentOk(k: Keys, log: seq<Entry>, lo: nat, lastCall: nat, window: nat, now: nat)
    returns (lo': nat)
    requires KeysOk(k, log, lo, lastCall, window) && lastCall <= now
    ensures KeysOk(Current(k, window, now), log, lo', now, window)
    ensures |Current(k, window, now).entries| == InWindow(Times(log), window, now)
    ensures log != [] && log[|log| - 1].time == now ==>
              Current(k, window, now).counter == log[|log| - 1].serial
  {
    var lo1 := ExpiryKeepsLive(k, log, lo, lastCall, window, now);
    PruneKeepsOk(Expire(k, now), log, lo1, now, window);
    lo' := UpTo(Times(log), now - window);
  }

  ghost predicate Verdict(out: Outcome, before: seq<nat>, after: seq<nat>, window: nat, limit: nat, now: nat) {
    && (out.allowed <==> Allows(before, window, limit, now))
    && out.count == InWindow(after, window, now)
    && after == if out.allowed then before + [now] else before
  }

  lemma DecideRefines(current: Keys, log: seq<Entry>, lo: nat, window: nat, limit: nat, now: nat)
    returns (log': seq<Entry>)
    requires KeysOk(current, log, lo, now, window) && window > 0
    requires |current.entries| == InWindow(Times(log), window, now)
    requires log != [] && log[|log| - 1].time == now ==> current.counter == log[|log| - 1].serial
    ensures KeysOk(Decide(current, window, limit, now).keys, log', lo, now, window)
    ensures Verdict(Decide(current, window, limit, now), Times(log), Times(log'), window, limit, now)
  {
    if |current.entries| < limit {
      AdmitRefines(current, log, lo, window, limit, now);
      log' := log + [Entry(now, current.counter + 1)];
    } else {
      log' := log;
    }
  }

  lemma AdmitRefines(current: Keys, log: seq<Entry>, lo: nat, window: nat, limit: nat, now: nat)
    requires KeysOk(current, log, lo, now, window) && window > 0
    requires |current.entries| == InWindow(Times(log), window, now) && |current.entries| < limit
    requires log != [] && log[|log| - 1].time == now ==> current.counter == log[|log| - 1].serial
    ensures var after := log + [Entry(now, current.counter + 1)];
            && KeysOk(Decide(current, window, limit, now).keys, after, lo, now, window)
            && Verdict(Decide(current, window, limit, now), Times(log), Times(after), window, limit, now)
  {
    AdmitKeepsOk(current, log, lo, now, window);
    AppendNow(Times(log), window, now);
  }

  /** One call of the script decides as the plain rule does on the full history, and a
      new member never replaces an old one. */
  lemma ScriptRefinesRule(k: Keys, log: seq<Entry>, lo: nat, lastCall: nat, window: nat, limit: nat, now: nat)
    returns (log': seq<Entry>, lo': nat)
    requires KeysOk(k, log, lo, lastCall, window) && lastCall <= now && window > 0
    ensures KeysOk(Script(k, window, limit, now).keys, log', lo', now, window)
    ensures Verdict(Script(k, window, limit, now), Times(log), Times(log'), window, limit, now)
  {
    lo' := CurrentOk(k, log, lo, lastCall, window, now);
    log' := DecideRefines(Current(k, window, now), log, lo', window, limit, now);
  }

  /** A whole run of calls, on keys that start absent. */
  function ScriptRun(calls: seq<nat>, window: nat, limit: nat): (Keys, seq<bool>) {
    if calls == [] then (NO_KEYS, [])
    else
      var (k, decisions) := ScriptRun(calls[..|calls| - 1], window, limit);
      var out := Script(k, window, limit, calls[|calls| - 1]);
      (out.keys, decisions + [out.allowed])
  }

  /** Pruning, expiry and counting members decide every request of every run exactly as
      the log that forgets nothing. */
  lemma {:induction false} RunRefinesRule(calls: seq<nat>, window: nat, limit: nat)
    returns (log: seq<Entry>, lo: nat)
    requires Sorted(calls) && window > 0
    ensures ScriptRun(calls, window, limit).1 == Decisions(calls, window, limit)
    ensures Times(log) == Admissions(calls, window, limit)
    ensures KeysOk(ScriptRun(calls, window, limit).0, log, lo,
                   if calls == [] then 0 else calls[|calls| - 1], window)
  {
    if calls == [] {
      log, lo := [], 0;
    } else {
      var front := calls[..|calls| - 1];
      var before, lo0 := RunRefinesRule(front, window, limit);
      var lastCall := if front == [] then 0 else front[|front| - 1];
      log, lo := ScriptRefinesRule(ScriptRun(front, window, limit).0, before, lo0, lastCall,
                                   window, limit, calls[|calls| - 1]);
    }
  }

  /** No two admissions of a run ever used the same sorted-set member. */
  lemma MembersNeverCollide(log: seq<Entry>, i: nat, j: nat)
    requires Ordered(log) && i < j < |log|
    ensures Member(log[i]) != Member(log[j])
  {
    if Member(log[i]) == Member(log[j]) {
      MemberInjective(log[i], log[j]);
    }
  }

  /** The keys as they stand in Redis, updated command by command. */
  class TenantKeys {
    var entries: map<string, nat>
    var entriesExpiry: nat
    var counter: nat
    var counterExpiry: nat

    function Value(): Keys
      reads this
    {
      Keys(entries, entriesExpiry, counter, counterExpiry)
    }

    constructor ()
      ensures Value() == NO_KEYS
    {
      entries, entriesExpiry, counter, counterExpiry := map[], 0, 0, 0;
    }

    method DropExpired(now: nat)
      modifies this
      ensures Value() == Expire(old(Value()), now)
    {
      if entriesExpiry < now {
        entries := map[];
      }
      if counterExpiry < now {
        counter := 0;
      }
    }

    method Call(window: nat, limit: nat, now: nat) returns (allowed: bool, count: nat)
      modifies this
      ensures Outcome(Value(), allowed, count) == Script(old(Value()), window, limit, now)
    {
      DropExpired(now);
      entries := Prune(entries, now - window);
      count := |entries|;
      if count >= limit {
        return false, count;
      }
      counter := counter + 1;
      var member := Decimal(now) + "-" + Decimal(counter);
      entries := entries[member := now];
      entriesExpiry := now + window + SLACK;
      counterExpiry := now + window + SLACK;
      return true, count + 1;
    }

    /** A run of requests: the verdicts are those of the plain rule. */
    method Serve(calls: seq<nat>, window: nat, limit: nat) returns (decisions: seq<bool>)
      requires Sorted(calls) && window > 0 && Value() == NO_KEYS
      modifies this
      ensures decisions == Decisions(calls, window, limit)
    {
      decisions := [];
      for i := 0 to |calls|
        invariant (Value(), decisions) == ScriptRun(calls[..i], window, limit)
      {
        var allowed, _ := Call(window, limit, calls[i]);
        decisions := decisions + [allowed];
        assert calls[..i + 1][..i] == calls[..i];
      }
      assert calls[..|calls|] == calls;
      var _, _ := RunRefinesRule(calls, window, limit);
    }
  }
}
