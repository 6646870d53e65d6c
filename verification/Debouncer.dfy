/** The debounced reloader of routing state (internal/credentials/sync.go). Times are in
    milliseconds. */
module Debouncer {
  import opened Text

  const CAPACITY: nat := 100  // of the notification channel
  const QUIET: nat := 100     // length of the quiet window

  datatype Kind = Pools | Tenants

  predicate IsKind(table: string, kind: Kind) {
    match kind
    case Pools => table == "model_pools" || table == "credentials"
    case Tenants => table == "tenants"
  }

  /** One value for each kind. */
  datatype PerKind<T> = PerKind(pools: T, tenants: T) {
    function At(kind: Kind): T {
      match kind
      case Pools => pools
      case Tenants => tenants
    }
  }

  /** The goroutine's variables and the channel. The last four fields are history:
      every accepted table name, how many were taken, and how many had been taken when
      the latest reload of each kind began (with the number of reloads). */
  datatype State = State(
    channel: seq<string>,
    pending: PerKind<bool>,
    armed: bool,
    deadline: nat,
    accepted: seq<string>,
    taken: nat,
    covered: PerKind<nat>,
    reloads: PerKind<nat>)

  const INITIAL := State([], PerKind(false, false), false, 0, [], 0, PerKind(0, 0), PerKind(0, 0))

  datatype Event = Notify(payload: string) | Take(now: nat) | Fire(now: nat)

  /** The part of a payload before its first colon; None without a colon. */
  function TableName(payload: string): Option<string> {
    var i := Index(payload, ":");
    if i == -1 then None else Some(payload[..i])
  }

  function AfterNotify(s: State, payload: string): State {
    match TableName(payload)
    case None => s
    case Some(table) =>
      if |s.channel| < CAPACITY then s.(channel := s.channel + [table], accepted := s.accepted + [table])
      else s
  }

  function AfterTake(s: State, now: nat): State
    requires s.channel != []
  {
    var table := s.channel[0];
    s.(channel := s.channel[1..],
       pending := PerKind(s.pending.pools || IsKind(table, Pools), s.pending.tenants || IsKind(table, Tenants)),
       armed := true, deadline := now + QUIET, taken := s.taken + 1)
  }

  function AfterFire(s: State): State {
    s.(armed := false,
       pending := PerKind(false, false),
       covered := PerKind(if s.pending.pools then s.taken else s.covered.pools,
                          if s.pending.tenants then s.taken else s.covered.tenants),
       reloads := PerKind(s.reloads.pools + (if s.pending.pools then 1 else 0),
                          s.reloads.tenants + (if s.pending.tenants then 1 else 0)))
  }

  /** One step; None when the goroutine is not able to take it. */
  function Next(s: State, e: Event): Option<State> {
    match e
    case Notify(payload) => Some(AfterNotify(s, payload))
    case Take(now) => if s.channel == [] then None else Some(AfterTake(s, now))
    case Fire(now) => if s.armed && now >= s.deadline then Some(AfterFire(s)) else None
  }

  ghost predicate Inv(s: State) {
    && |s.channel| <= CAPACITY
    && s.taken <= |s.accepted| && s.channel == s.accepted[s.taken..]
    && (forall kind :: s.covered.At(kind) <= s.taken)
    && (forall kind :: s.pending.At(kind) ==> s.armed)
    && (forall kind, k :: s.covered.At(kind) <= k < s.taken && IsKind(s.accepted[k], kind) ==> s.pending.At(kind))
  }

  lemma NotifyKeepsInv(s: State, payload: string)
    requires Inv(s)
    ensures Inv(AfterNotify(s, payload))
  {
    var s' := AfterNotify(s, payload);
    if s'.accepted != s.accepted {
      assert s'.accepted[s.taken..] == s.accepted[s.taken..] + [s'.accepted[|s.accepted|]];
      forall kind, k | s'.covered.At(kind) <= k < s'.taken && IsKind(s'.accepted[k], kind)
        ensures s'.pending.At(kind)
      {
        assert s'.accepted[k] == s.accepted[k];
      }
    }
  }

  lemma TakeKeepsInv(s: State, now: nat)
    requires Inv(s) && s.channel != []
    ensures Inv(AfterTake(s, now))
  {
    var s' := AfterTake(s, now);
    assert s.channel[0] == s.accepted[s.taken];
    assert s.channel[1..] == s.accepted[s.taken + 1..];
    forall kind, k | s'.covered.At(kind) <= k < s'.taken && IsKind(s'.accepted[k], kind)
      ensures s'.pending.At(kind)
    {
      if k < s.taken {
        assert s.pending.At(kind);
      }
    }
  }

  lemma FireKeepsInv(s: State)
    requires Inv(s)
    ensures Inv(AfterFire(s))
  {
    var s' := AfterFire(s);
    assert s.covered.At(Pools) <= s.taken && s.covered.At(Tenants) <= s.taken;
    assert forall kind :: s'.covered.At(kind) == if s.pending.At(kind) then s.taken else s.covered.At(kind);
    assert forall kind :: !s'.pending.At(kind);
    assert forall kind, k :: s.covered.At(kind) <= k < s.taken && !s.pending.At(kind) ==> !IsKind(s.accepted[k], kind);
  }

  lemma StepKeepsInv(s: State, e: Event)
    requires Inv(s) && Next(s, e).Some?
    ensures Inv(Next(s, e).value)
  {
    match e
    case Notify(payload) => NotifyKeepsInv(s, payload);
    case Take(now) => TakeKeepsInv(s, now);
    case Fire(now) => FireKeepsInv(s);
  }

  function Run(s: State, events: seq<Event>): Option<State>
    decreases |events|
  {
    if events == [] then Some(s)
    else
      match Next(s, events[0])
      case None => None
      case Some(s') => Run(s', events[1..])
  }

  lemma {:induction false} RunKeepsInv(s: State, events: seq<Event>)
    requires Inv(s) && Run(s, events).Some?
    ensures Inv(Run(s, events).value)
    decreases |events|
  {
    if events != [] {
      StepKeepsInv(s, events[0]);
      RunKeepsInv(Next(s, events[0]).value, events[1..]);
    }
  }

  /** No accepted update is lost: it is still in the channel, or its flag is set and the
      timer is armed, or a reload of its kind began after it was taken. */
  lemma AcceptedIsKept(events: seq<Event>, k: nat, kind: Kind)
    requires Run(INITIAL, events).Some? && k < |Run(INITIAL, events).value.accepted|
    requires IsKind(Run(INITIAL, events).value.accepted[k], kind)
    ensures var s := Run(INITIAL, events).value;
            || (s.taken <= k < s.taken + |s.channel| && s.channel[k - s.taken] == s.accepted[k])
            || (k < s.taken && s.pending.At(kind) && s.armed)
            || (k < s.covered.At(kind) <= s.taken && s.reloads.At(kind) > 0)
  {
    RunKeepsInv(INITIAL, events);
    CoveredMeansReloaded(INITIAL, events, kind);
  }

  lemma {:induction false} CoveredMeansReloaded(s: State, events: seq<Event>, kind: Kind)
    requires Inv(s) && Run(s, events).Some? && (s.covered.At(kind) > 0 ==> s.reloads.At(kind) > 0)
    ensures var s' := Run(s, events).value;
            s'.covered.At(kind) > 0 ==> s'.reloads.At(kind) > 0
    decreases |events|
  {
    if events != [] {
      StepKeepsInv(s, events[0]);
      CoveredMeansReloaded(Next(s, events[0]).value, events[1..], kind);
    }
  }

  // ----- Notifications that find the channel full -----

  predicate HoldsKind(channel: seq<string>, kind: Kind) {
    exists k :: 0 <= k < |channel| && IsKind(channel[k], kind)
  }

  /** Something of this kind is still on its way to a reload. */
  predicate Owes(s: State, kind: Kind) {
    s.pending.At(kind) || HoldsKind(s.channel, kind)
  }

  lemma OwesStep(s: State, e: Event, kind: Kind)
    requires Inv(s) && Next(s, e).Some? && !e.Notify?
    ensures var s' := Next(s, e).value;
            && s'.reloads.At(kind) >= s.reloads.At(kind)
            && (s'.reloads.At(kind) == s.reloads.At(kind) ==> (Owes(s', kind) <==> Owes(s, kind)))
            && (s'.reloads.At(kind) > s.reloads.At(kind) ==> Owes(s, kind))
  {
    if e.Take? {
      var s' := Next(s, e).value;
      if HoldsKind(s.channel, kind) && !IsKind(s.channel[0], kind) {
        var k :| 0 <= k < |s.channel| && IsKind(s.channel[k], kind);
        assert s'.channel[k - 1] == s.channel[k];
      }
      if HoldsKind(s'.channel, kind) {
        var k :| 0 <= k < |s'.channel| && IsKind(s'.channel[k], kind);
        assert s.channel[k + 1] == s'.channel[k];
      }
    }
  }

  /** However the goroutine gets to rest on its own, a reload of a kind begins on the way
      exactly when an update of that kind was pending or in the channel. */
  lemma {:induction false} RestingReloads(s: State, events: seq<Event>, kind: Kind)
    requires Inv(s) && Run(s, events).Some? && forall i :: 0 <= i < |events| ==> !events[i].Notify?
    requires var end := Run(s, events).value;
             end.channel == [] && !end.armed
    ensures Run(s, events).value.reloads.At(kind) >= s.reloads.At(kind)
    ensures Run(s, events).value.reloads.At(kind) > s.reloads.At(kind) <==> Owes(s, kind)
    decreases |events|
  {
    if events == [] {
      assert !s.pending.At(kind);
    } else {
      var s1 := Next(s, events[0]).value;
      StepKeepsInv(s, events[0]);
      OwesStep(s, events[0], kind);
      RestingReloads(s1, events[1..], kind);
    }
  }

  /** A notification dropped at a full channel is still answered by a later reload
      exactly when an update of the same kind is already pending or queued; the source's
      remark that a dropped one is "already pending" holds only then. */
  lemma DroppedIsAnsweredIff(s: State, payload: string, kind: Kind, events: seq<Event>)
    requires Inv(s) && |s.channel| == CAPACITY
    requires TableName(payload).Some? && IsKind(TableName(payload).value, kind)
    requires var dropped := AfterNotify(s, payload);
             && Run(dropped, events).Some?
             && (forall i :: 0 <= i < |events| ==> !events[i].Notify?)
             && Run(dropped, events).value.channel == [] && !Run(dropped, events).value.armed
    ensures Run(AfterNotify(s, payload), events).value.reloads.At(kind) > s.reloads.At(kind) <==> Owes(s, kind)
  {
    RestingReloads(s, events, kind);
  }

  function Repeat(e: Event, n: nat): (r: seq<Event>)
    ensures |r| == n && forall i :: 0 <= i < n ==> r[i] == e
  {
    seq(n, i => e)
  }

  lemma PayloadTable(table: string, id: string)
    requires ':' !in table
    ensures TableName(table + ":" + id) == Some(table)
  {
    assert forall i :: 0 <= i < |table| ==> table[i..i + 1] == [table[i]];
    IndexOfAppended(table, ":", id);
    assert (table + ":" + id)[..|table|] == table;
  }

  lemma {:induction false} FillChannel(s: State, table: string, n: nat)
    requires ':' !in table && |s.channel| + n <= CAPACITY
    ensures Run(s, Repeat(Notify(table + ":1"), n)) ==
            Some(s.(channel := s.channel + seq(n, i => table), accepted := s.accepted + seq(n, i => table)))
    decreases n
  {
    var e := Notify(table + ":1");
    PayloadTable(table, "1");
    assert table + ":" + "1" == table + ":1";
    if n == 0 {
      assert seq(0, i => table) == [] && Repeat(e, 0) == [];
      assert s.channel + [] == s.channel && s.accepted + [] == s.accepted;
    } else {
      var s1 := Next(s, e).value;
      assert Repeat(e, n)[1..] == Repeat(e, n - 1);
      FillChannel(s1, table, n - 1);
      assert s.channel + [table] + seq(n - 1, i => table) == s.channel + seq(n, i => table);
      assert s.accepted + [table] + seq(n - 1, i => table) == s.accepted + seq(n, i => table);
    }
  }

  /** The channel full of tenant notifications. */
  function Flood(): (s: State)
    ensures Inv(s) && |s.channel| == CAPACITY && !Owes(s, Pools)
  {
    var names := seq(CAPACITY, i => "tenants");
    INITIAL.(channel := names, accepted := names)
  }

  lemma FloodIsReachable()
    ensures Run(INITIAL, Repeat(Notify("tenants:1"), CAPACITY)) == Some(Flood())
  {
    FillChannel(INITIAL, "tenants", CAPACITY);
    var names := seq(CAPACITY, i => "tenants");
    assert "tenants" + ":1" == "tenants:1";
    assert [] + names == names;
  }

  /** An update that is lost: the pool notification finds the channel full of tenant
      ones, and no run to rest ever reloads the pools. */
  lemma DroppedPoolUpdateIsLost(id: string, events: seq<Event>)
    requires forall i :: 0 <= i < |events| ==> !events[i].Notify?
    requires var end := Run(AfterNotify(Flood(), "model_pools" + ":" + id), events);
             end.Some? && end.value.channel == [] && !end.value.armed
    ensures Run(AfterNotify(Flood(), "model_pools" + ":" + id), events).value.reloads.pools == 0
  {
    var payload := "model_pools" + ":" + id;
    PayloadTable("model_pools", id);
    var full := Flood();
    assert AfterNotify(full, payload) == full;
    RestingReloads(full, events, Pools);
  }

  // ----- The goroutine -----

  class Reloader {
    var channel: seq<string>
    var pendingPools: bool
    var pendingTenants: bool
    var armed: bool
    var deadline: nat
    ghost var history: State

    ghost predicate Valid()
      reads this
    {
      && Inv(history)
      && channel == history.channel
      && pendingPools == history.pending.pools && pendingTenants == history.pending.tenants
      && armed == history.armed && deadline == history.deadline
    }

    constructor ()
      ensures Valid() && history == INITIAL
    {
      channel, pendingPools, pendingTenants, armed, deadline := [], false, false, false, 0;
      history := INITIAL;
    }

    /** The enqueue step of `listen`: it never blocks. */
    method Listen(payload: string)
      requires Valid()
      modifies this
      ensures Valid() && Next(old(history), Notify(payload)) == Some(history)
    {
      StepKeepsInv(history, Notify(payload));
      history := AfterNotify(history, payload);
      var table := TableName(payload);
      if table.None? {
        return;
      }
      if |channel| < CAPACITY {
        channel := channel + [table.value];
      }
    }

    method TakeOne(now: nat)
      requires Valid() && channel != []
      modifies this
      ensures Valid() && Next(old(history), Take(now)) == Some(history)
    {
      StepKeepsInv(history, Take(now));
      history := AfterTake(history, now);
      var table := channel[0];
      channel := channel[1..];
      if table == "model_pools" || table == "credentials" {
        pendingPools := true;
      } else if table == "tenants" {
        pendingTenants := true;
      }
      armed, deadline := true, now + QUIET;
    }

    /** The timer branch. A reload begins only after the whole quiet window has passed
        since the last notification was taken. */
    method TimerFires(now: nat) returns (reloadedPools: bool, reloadedTenants: bool)
      requires Valid() && armed && now >= deadline
      modifies this
      ensures Valid() && Next(old(history), Fire(now)) == Some(history)
      ensures reloadedPools == old(history.pending.pools) && reloadedTenants == old(history.pending.tenants)
      ensures !armed && !pendingPools && !pendingTenants
    {
      StepKeepsInv(history, Fire(now));
      history := AfterFire(history);
      reloadedPools, reloadedTenants := false, false;
      armed := false;
      if pendingPools {
        reloadedPools := true;
        pendingPools := false;
      }
      if pendingTenants {
        reloadedTenants := true;
        pendingTenants := false;
      }
    }

    /** Any schedule of notifications and of the two branches of the select. */
    method Serve(events: seq<Event>)
      requires Valid()
      modifies this
      ensures Valid() && Run(old(history), Taken(old(history), events)) == Some(history)
    {
      ghost var all := Run(history, Taken(history, events));
      for i := 0 to |events|
        invariant Valid() && all == Run(history, Taken(history, events[i..]))
      {
        assert events[i..][0] == events[i] && events[i..][1..] == events[i + 1..];
        RunOfTaken(history, events[i..]);
        match events[i]
        case Notify(payload) => Listen(payload);
        case Take(now) =>
          if channel != [] {
            TakeOne(now);
          }
        case Fire(now) =>
          if armed && now >= deadline {
            var _, _ := TimerFires(now);
          }
      }
      assert events[|events|..] == [];
    }
  }

  /** Those of the events that are possible in their turn. */
  function Taken(s: State, events: seq<Event>): seq<Event>
    decreases |events|
  {
    if events == [] then []
    else
      match Next(s, events[0])
      case None => Taken(s, events[1..])
      case Some(after) => [events[0]] + Taken(after, events[1..])
  }

  /** The first of them is taken, or passed over. */
  lemma RunOfTaken(s: State, events: seq<Event>)
    requires events != []
    ensures Run(s, Taken(s, events)) ==
            match Next(s, events[0])
            case None => Run(s, Taken(s, events[1..]))
            case Some(after) => Run(after, Taken(after, events[1..]))
  {
    if Next(s, events[0]).Some? {
      var after := Next(s, events[0]).value;
      assert ([events[0]] + Taken(after, events[1..]))[1..] == Taken(after, events[1..]);
    }
  }
}
