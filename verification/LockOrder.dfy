/** Concurrent batch upserts (internal/credentials/batch_insert.go): each transaction
    locks its pool rows in the order of its pattern list and keeps them to the end. */
module LockOrder {
  import opened StringOrder

  /** One transaction: the rows it upserts, how many of them it has locked so far, and
      whether it has committed or rolled back. */
  datatype Tx = Tx(needs: seq<string>, held: nat, done: bool)

  type State = seq<Tx>

  ghost predicate Holds(t: Tx, row: string) {
    !t.done && t.held <= |t.needs| && row in t.needs[..t.held]
  }

  predicate Waiting(t: Tx) {
    !t.done && t.held < |t.needs|
  }

  /** The row a waiting transaction locks next. */
  function Wanted(t: Tx): string {
    if Waiting(t) then t.needs[t.held] else ""
  }

  ghost predicate WaitsFor(s: State, i: nat, j: nat) {
    && i < |s| && j < |s| && i != j
    && Waiting(s[i]) && Holds(s[j], Wanted(s[i]))
  }

  ghost predicate CanLock(s: State, i: nat) {
    && i < |s| && Waiting(s[i])
    && forall j :: 0 <= j < |s| && j != i ==> !Holds(s[j], Wanted(s[i]))
  }

  predicate CanCommit(s: State, i: nat) {
    i < |s| && !s[i].done && s[i].held == |s[i].needs|
  }

  /** One step of one transaction: lock the next row, commit, or roll back. */
  ghost predicate Step(s: State, s': State, i: nat) {
    && i < |s|
    && ((CanLock(s, i) && s' == s[i := s[i].(held := s[i].held + 1)])
        || (CanCommit(s, i) && s' == s[i := s[i].(done := true)])
        || (!s[i].done && s' == s[i := s[i].(done := true)]))
  }

  /** Every transaction works through an increasing list, and no row has two owners. */
  ghost predicate Inv(s: State) {
    && (forall i :: 0 <= i < |s| ==> Increasing(s[i].needs) && s[i].held <= |s[i].needs|)
    && (forall i, j, row :: 0 <= i < |s| && 0 <= j < |s| && i != j ==> !(Holds(s[i], row) && Holds(s[j], row)))
  }

  ghost predicate Initial(s: State) {
    forall i :: 0 <= i < |s| ==> Increasing(s[i].needs) && s[i].held == 0 && !s[i].done
  }

  ghost predicate Follows(s: State, s': State) {
    exists i :: Step(s, s', i)
  }

  ghost predicate IsRun(run: seq<State>) {
    && run != [] && Initial(run[0])
    && forall k :: 0 <= k < |run| - 1 ==> Follows(run[k], run[k + 1])
  }

  function Last(run: seq<State>): State
    requires run != []
  {
    run[|run| - 1]
  }

  lemma PrefixIsRun(run: seq<State>)
    requires IsRun(run) && |run| > 1
    ensures IsRun(run[..|run| - 1]) && Follows(run[|run| - 2], Last(run))
  {
    var front := run[..|run| - 1];
    forall k | 0 <= k < |front| - 1
      ensures Follows(front[k], front[k + 1])
    {
      assert Follows(run[k], run[k + 1]);
    }
    assert Follows(run[|run| - 2], run[|run| - 2 + 1]);
  }

  lemma StepKeepsInv(s: State, s': State, i: nat)
    requires Inv(s) && Step(s, s', i)
    ensures Inv(s')
  {
    forall row, j | 0 <= j < |s|
      ensures Holds(s'[j], row) ==> Holds(s[j], row) || (j == i && CanLock(s, i) && row == Wanted(s[i]))
    {
      if j == i && s'[i].held == s[i].held + 1 {
        assert s[i].needs[..s[i].held + 1] == s[i].needs[..s[i].held] + [Wanted(s[i])];
      }
    }
  }

  lemma {:induction false} RunKeepsInv(run: seq<State>)
    requires IsRun(run)
    ensures Inv(Last(run))
  {
    if |run| > 1 {
      PrefixIsRun(run);
      RunKeepsInv(run[..|run| - 1]);
      var k := |run| - 2;
      var i :| Step(run[k], run[k + 1], i);
      StepKeepsInv(run[k], run[k + 1], i);
    }
  }

  /** Whoever is waited for and itself waits, waits for a later row. */
  lemma WaitersClimb(s: State, i: nat, j: nat)
    requires Inv(s) && WaitsFor(s, i, j) && Waiting(s[j])
    ensures Less(Wanted(s[i]), Wanted(s[j]))
  {
    var k :| 0 <= k < s[j].held && s[j].needs[k] == Wanted(s[i]);
  }

  /** A closed chain of transactions each waiting for the next. */
  ghost predicate WaitCycle(s: State, cycle: seq<nat>) {
    && cycle != []
    && (forall k :: 0 <= k < |cycle| ==> cycle[k] < |s| && Waiting(s[cycle[k]]))
    && (forall k :: 0 <= k < |cycle| - 1 ==> WaitsFor(s, cycle[k], cycle[k + 1]))
    && WaitsFor(s, cycle[|cycle| - 1], cycle[0])
  }

  lemma {:induction false} ChainClimbs(s: State, cycle: seq<nat>, k: nat)
    requires Inv(s) && WaitCycle(s, cycle) && 0 < k < |cycle|
    ensures Less(Wanted(s[cycle[0]]), Wanted(s[cycle[k]]))
  {
    assert WaitsFor(s, cycle[k - 1], cycle[k - 1 + 1]);
    WaitersClimb(s, cycle[k - 1], cycle[k]);
    if k > 1 {
      ChainClimbs(s, cycle, k - 1);
      LessTransitive(Wanted(s[cycle[0]]), Wanted(s[cycle[k - 1]]), Wanted(s[cycle[k]]));
    }
  }

  /** No reachable state has a deadlock. */
  lemma NoDeadlock(run: seq<State>, cycle: seq<nat>)
    requires IsRun(run)
    ensures !WaitCycle(Last(run), cycle)
  {
    var s := Last(run);
    RunKeepsInv(run);
    if WaitCycle(s, cycle) {
      var last := |cycle| - 1;
      var first := Wanted(s[cycle[0]]);
      LessIrreflexive(first);
      if last > 0 {
        ChainClimbs(s, cycle, last);
      }
      WaitersClimb(s, cycle[last], cycle[0]);
      if last > 0 {
        LessTransitive(first, Wanted(s[cycle[last]]), first);
      }
    }
  }

  /** Among the waiting transactions of a prefix, one waits for the greatest row. */
  lemma {:induction false} HighestWaiter(s: State, n: nat) returns (i: nat)
    requires n <= |s| && exists k :: 0 <= k < n && Waiting(s[k])
    ensures i < n && Waiting(s[i])
    ensures forall k :: 0 <= k < n && Waiting(s[k]) ==> !Less(Wanted(s[i]), Wanted(s[k]))
  {
    LessIrreflexive(Wanted(s[n - 1]));
    if exists k :: 0 <= k < n - 1 && Waiting(s[k]) {
      i := HighestWaiter(s, n - 1);
      if Waiting(s[n - 1]) && Less(Wanted(s[i]), Wanted(s[n - 1])) {
        forall k | 0 <= k < n - 1 && Waiting(s[k])
          ensures !Less(Wanted(s[n - 1]), Wanted(s[k]))
        {
          if Less(Wanted(s[n - 1]), Wanted(s[k])) {
            LessTransitive(Wanted(s[i]), Wanted(s[n - 1]), Wanted(s[k]));
          }
        }
        i := n - 1;
      }
    } else {
      i := n - 1;
    }
  }

  predicate AllDone(s: State) {
    forall k :: 0 <= k < |s| ==> s[k].done
  }

  ghost predicate CanAdvance(s: State, i: nat) {
    CanLock(s, i) || CanCommit(s, i)
  }

  /** While any transaction is unfinished, one of them can lock its next row or commit. */
  lemma SomeoneCanStep(run: seq<State>)
    requires IsRun(run)
    requires !AllDone(Last(run))
    ensures exists i :: CanAdvance(Last(run), i)
  {
    var s := Last(run);
    RunKeepsInv(run);
    var k :| 0 <= k < |s| && !s[k].done;
    if exists w :: 0 <= w < |s| && Waiting(s[w]) {
      var i := HighestWaiter(s, |s|);
      assert CanLock(s, i) ==> CanAdvance(s, i);
      if !CanLock(s, i) {
        var j :| 0 <= j < |s| && j != i && Holds(s[j], Wanted(s[i]));
        if Waiting(s[j]) {
          WaitersClimb(s, i, j);
        }
        assert CanAdvance(s, j);
      }
    } else {
      assert CanAdvance(s, k);
    }
  }

  /** Locks still to take and commits still to make. */
  function Work(s: State): nat {
    if s == [] then 0
    else
      var t := s[|s| - 1];
      Work(s[..|s| - 1])
      + (if t.done then 0 else 1 + if t.held <= |t.needs| then |t.needs| - t.held else 0)
  }

  lemma {:induction false} StepReducesWork(s: State, s': State, i: nat)
    requires Inv(s) && Step(s, s', i)
    ensures Work(s') < Work(s)
  {
    var last := |s| - 1;
    if i < last {
      var front := s[..last];
      var i' := s'[i];
      assert s'[..last] == front[i := i'];
      WorkUpdate(front, i, i');
    } else {
      assert s'[..last] == s[..last];
    }
  }

  lemma {:induction false} WorkUpdate(s: State, i: nat, t: Tx)
    requires i < |s| && !s[i].done && s[i].held <= |s[i].needs| && t.needs == s[i].needs
    requires t.done || (s[i].held < t.held <= |t.needs|)
    ensures Work(s[i := t]) < Work(s)
  {
    var last := |s| - 1;
    if i < last {
      assert s[i := t][..last] == s[..last][i := t];
      WorkUpdate(s[..last], i, t);
    } else {
      assert s[i := t][..last] == s[..last];
    }
  }

  /** Every run ends: it is no longer than the work it started with. */
  lemma {:induction false} RunsAreBounded(run: seq<State>)
    requires IsRun(run)
    ensures |run| - 1 + Work(Last(run)) <= Work(run[0])
  {
    if |run| > 1 {
      var front := run[..|run| - 1];
      PrefixIsRun(run);
      RunsAreBounded(front);
      RunKeepsInv(front);
      var k := |run| - 2;
      var i :| Step(run[k], run[k + 1], i);
      StepReducesWork(run[k], run[k + 1], i);
    }
  }

  /** What sorting buys: two transactions that lock the same two rows in opposite orders
      can block each other for good. */
  lemma UnsortedDeadlocks() returns (s0: State, s1: State, s2: State)
    ensures forall i :: 0 <= i < |s0| ==> s0[i].held == 0 && !s0[i].done
    ensures Step(s0, s1, 0) && Step(s1, s2, 1)
    ensures WaitCycle(s2, [0, 1])
    ensures forall i :: !CanAdvance(s2, i)
  {
    var ab, ba := ["a", "b"], ["b", "a"];
    s0 := [Tx(ab, 0, false), Tx(ba, 0, false)];
    s1 := [Tx(ab, 1, false), Tx(ba, 0, false)];
    s2 := [Tx(ab, 1, false), Tx(ba, 1, false)];
    assert ab[..1] == ["a"] && ba[..1] == ["b"];
    assert s1 == s0[0 := s0[0].(held := 1)] && CanLock(s0, 0);
    assert Step(s0, s1, 0);
    assert s2 == s1[1 := s1[1].(held := 1)] && CanLock(s1, 1);
    assert Step(s1, s2, 1);
    assert Holds(s2[0], "a") && Holds(s2[1], "b");
    assert WaitsFor(s2, 0, 1) && WaitsFor(s2, 1, 0);
    assert WaitCycle(s2, [0, 1]);
    assert !CanLock(s2, 0) && !CanLock(s2, 1);
  }
}
