/** The failover loop of internal/proxy/handler.go: credentials of one pool are tried until
    one answers, then pools that host the same model. */
module Retry {
  import opened Text
  import opened Pool
  import PoolChain

  // ----- What the loop meets -----

  /** An acquired credential: its slot in the ring of the pool that served it. */
  datatype Token = Token(index: nat, credential: int, provider: string, pool: string)

  /** A stream that broke off inside a forwarded call: the candidates found throttled, and
      the credential that took over, if any. */
  datatype Switch = Switch(throttled: seq<Token>, next: Option<Token>)

  /** What forwarding gave: the status, whether it panicked, what the error body was found
      to say, and the changes of credential on the way. */
  datatype Reply = Reply(
    status: int, panicked: bool, depleted: bool, agreement: bool, puterQuota: bool, switches: seq<Switch>)

  /** One iteration seen from outside: whether the client has gone before or after, what
      the pool served under whatever other requests did, and whether the key is throttled. */
  datatype Pass = Pass(goneBefore: bool, token: Option<Token>, throttled: bool, reply: Reply, goneAfter: bool)

  datatype PoolInfo = PoolInfo(pattern: string, total: nat, fallback: Option<PoolInfo>)

  /** `loaded`, `healthy` and `pick` answer the j-th search for a fallback: the pools loaded
      then, how many of their keys are healthy, and which candidate a map gives first. */
  datatype Env = Env(
    requestedModel: string, passes: nat -> Pass, hasSync: bool,
    loaded: nat -> map<string, PoolInfo>, healthy: (nat, string) -> nat,
    core: string -> string, pick: (nat, set<PoolInfo>) -> PoolInfo)

  // ----- Statuses -----

  function RecStatus(r: Reply): int {
    if r.panicked then 500 else r.status
  }

  predicate Success(r: Reply) {
    !r.panicked && 200 <= r.status < 300
  }

  predicate IsCredentialAuthError(status: int) {
    status == 401 || status == 402 || status == 403 || status == 404 || status == 422
  }

  /** In milliseconds. */
  function CooldownForStatus(status: int): nat {
    if status == 401 || status == 402 || status == 403 || status == 404 || status == 422 then 10_000
    else if status == 429 then 10_000
    else if status == 500 || status == 502 then 3_000
    else if status == 503 then 5_000
    else if status == 504 then 2_000
    else 5_000
  }

  function RotationCooldown(t: Token, r: Reply): nat {
    var status := RecStatus(r);
    if r.agreement then 1_000
    else if r.depleted then 15_000
    else if t.provider == "puter" && (status == 402 || status == 403 || status == 429) then 15_000
    else CooldownForStatus(status)
  }

  /** A reply that speaks against the key, not against the request. */
  predicate QuotaOrAuth(t: Token, r: Reply) {
    || IsCredentialAuthError(RecStatus(r))
    || (t.provider == "puter" && RecStatus(r) == 400 && r.puterQuota)
    || (r.depleted && !r.agreement)
  }

  datatype Attempt = Attempt(provider: string, status: int)

  function Count400(attempts: seq<Attempt>, provider: string): nat {
    if attempts == [] then 0
    else
      var last := attempts[|attempts| - 1];
      Count400(attempts[..|attempts| - 1], provider) + (if last.provider == provider && last.status == 400 then 1 else 0)
  }

  datatype Verdict = Rotate(cooldown: nat) | AbortPenalized(cooldown: nat) | Abort

  /** What becomes of the loop and the key after a failed call; `attempts` includes it. */
  function Judge(attempts: seq<Attempt>, t: Token, r: Reply, singleKey: bool): Verdict {
    var status := RecStatus(r);
    if QuotaOrAuth(t, r) then Rotate(RotationCooldown(t, r))
    else if status == 404 then Abort
    else if status == 400 && Count400(attempts, t.provider) >= 2 then Abort
    else if status == 429 && singleKey then AbortPenalized(RotationCooldown(t, r))
    else if singleKey then Rotate(300)
    else Rotate(RotationCooldown(t, r))
  }

  // ----- The state of the loop -----

  datatype Call = Call(token: Token, reply: Reply)

  datatype Effect = Penalize(pool: string, index: nat, ms: nat) | Reset(pool: string, index: nat)

  datatype Written = Streamed(status: int) | Error(status: int)

  datatype Phase = Trying | Leaving | Done

  datatype Round = Round(pool: PoolInfo, calls: seq<Call>, spins: nat)

  datatype State = State(
    pool: PoolInfo, triedPools: set<string>,
    tried: set<nat>, calls: seq<Call>, spins: nat,
    rounds: seq<Round>, passes: nat,
    attempts: seq<Attempt>, lastStatus: int,
    effects: seq<Effect>, written: seq<Written>, phase: Phase)
  {
    function MaxAttempts(): nat {
      Cap(pool.total)
    }

    function MaxSpins(): nat {
      3 * MaxAttempts() + 1
    }
  }

  function Cap(total: nat): (n: nat)
    ensures 1 <= n <= 20
  {
    if total < 1 then 1 else if total > 20 then 20 else total
  }

  function Start(pool: PoolInfo, e: Env): State {
    State(pool, {pool.pattern} + (if e.requestedModel != "" then {e.requestedModel} else {}),
          {}, [], 0, [], 0, [], 0, [], [], Trying)
  }

  /** The credential that holds the call after the switches; one that takes over after the
      fifth broken stream is not called any more. */
  function Server(t: Token, switches: seq<Switch>): Token {
    if switches == [] then t
    else
      var last := switches[|switches| - 1];
      if last.next.Some? then last.next.value else Server(t, switches[..|switches| - 1])
  }

  function Throttles(pool: string, tokens: seq<Token>): seq<Effect> {
    if tokens == [] then []
    else Throttles(pool, tokens[..|tokens| - 1]) + [Penalize(pool, tokens[|tokens| - 1].index, 5_000)]
  }

  /** The penalties a forwarded call applies itself, to slots of the pool of the round: 30
      seconds for a credential whose stream broke off, 5 for a throttled candidate. */
  function InnerEffects(pool: string, t: Token, switches: seq<Switch>): seq<Effect> {
    if switches == [] then []
    else
      var front, last := switches[..|switches| - 1], switches[|switches| - 1];
      InnerEffects(pool, t, front) + [Penalize(pool, Server(t, front).index, 30_000)] + Throttles(pool, last.throttled)
  }

  /** A call that was made: the forwarded request writes to the client only on success. */
  function Forwarded(s: State, t: Token, r: Reply): State {
    s.(tried := s.tried + {t.index}, calls := s.calls + [Call(t, r)],
       effects := s.effects + InnerEffects(s.pool.pattern, t, r.switches),
       written := s.written + (if Success(r) then [Streamed(r.status)] else []))
  }

  function Failed(s: State, t: Token, r: Reply): State {
    var attempts := s.attempts + [Attempt(t.provider, RecStatus(r))];
    var noted := s.(attempts := attempts, lastStatus := RecStatus(r));
    match Judge(attempts, t, r, s.pool.total == 1)
    case Rotate(ms) => noted.(effects := s.effects + [Penalize(t.pool, t.index, ms)])
    case AbortPenalized(ms) => noted.(effects := s.effects + [Penalize(t.pool, t.index, ms)], phase := Leaving)
    case Abort => noted.(phase := Leaving)
  }

  /** What follows a call. */
  function Concluded(c: State, t: Token, p: Pass): State {
    if p.goneAfter then
      c.(written := if c.written == [] then [Error(504)] else c.written, phase := Done)
    else if Success(p.reply) then
      c.(effects := c.effects + [Reset(c.pool.pattern, t.index)], phase := Done)
    else Failed(c, t, p.reply)
  }

  /** One iteration of the loop. */
  function Iterate(s: State, p: Pass): State {
    var n := s.(passes := s.passes + 1);
    if p.goneBefore then n.(written := n.written + [Error(504)], phase := Done)
    else if s.spins + 1 > s.MaxSpins() then n.(spins := s.spins + 1, phase := Leaving)
    else if p.token.None? then n.(spins := s.spins + 1, written := n.written + [Error(503)], phase := Done)
    else
      var t, m := p.token.value, n.(spins := s.spins + 1);
      if t.provider == "gemini" && p.throttled then m.(effects := m.effects + [Penalize(t.pool, t.index, 5_000)])
      else if t.index in s.tried then m
      else
        Concluded(Forwarded(m, t, p.reply), t, p)
  }

  // ----- Fallbacks -----

  predicate IsCandidate(key: string, p: PoolInfo, current: string, tried: set<string>, e: Env, j: nat) {
    && key != current && p.pattern != current
    && key !in tried && p.pattern !in tried
    && e.core(key) == e.core(current)
    && e.healthy(j, p.pattern) > 0
  }

  /** `FindExactModelFallbacks`; its order is that of a map, so only the set is known. */
  function Candidates(current: string, tried: set<string>, e: Env, j: nat): set<PoolInfo> {
    if e.core(current) == "" then {}
    else set key | key in e.loaded(j) && IsCandidate(key, e.loaded(j)[key], current, tried, e, j) :: e.loaded(j)[key]
  }

  function Target(pool: PoolInfo, e: Env): string {
    if e.requestedModel == "" then pool.pattern else e.requestedModel
  }

  /** Found by the j-th search; the fallback from the database counts only when no loaded
      pool does. */
  function Fallbacks(pool: PoolInfo, tried: set<string>, j: nat, e: Env): set<PoolInfo> {
    var target := Target(pool, e);
    var first := Candidates(target, tried, e, j);
    if first != {} then first
    else
      var second := if pool.pattern != target then Candidates(pool.pattern, tried, e, j) else {};
      if second != {} then second
      else if pool.fallback.Some? && var fb := pool.fallback.value;
        && fb.pattern !in tried
        && e.core(target) != "" && e.core(target) == e.core(fb.pattern)
        && e.healthy(j, fb.pattern) > 0
      then {pool.fallback.value}
      else {}
  }

  function FinalStatus(lastStatus: int): int {
    if 400 <= lastStatus < 600 then lastStatus else 502
  }

  function GaveUp(s: State): State {
    s.(written := s.written + [Error(FinalStatus(s.lastStatus))], phase := Done)
  }

  function Jumped(s: State, next: PoolInfo): State {
    s.(pool := next, triedPools := s.triedPools + {next.pattern},
       tried := {}, calls := [], spins := 0,
       rounds := s.rounds + [Round(s.pool, s.calls, s.spins)], phase := Trying)
  }

  /** After the loop: the next pool, or the error. */
  function Leave(s: State, e: Env): State {
    var found := if e.hasSync then Fallbacks(s.pool, s.triedPools, |s.rounds|, e) else {};
    if found == {} then GaveUp(s) else Jumped(s, e.pick(|s.rounds|, found))
  }

  // ----- A whole request -----

  predicate PatternsIn(p: PoolInfo, u: set<string>) {
    p.pattern in u && (p.fallback.Some? ==> PatternsIn(p.fallback.value, u))
  }

  /** The patterns of all pools that are ever loaded are among `u`, and picking a candidate
      gives one of the candidates. */
  ghost predicate Bounded(e: Env, u: set<string>) {
    && (forall j, key :: key in e.loaded(j) ==> PatternsIn(e.loaded(j)[key], u))
    && (forall j, found :: found != {} ==> e.pick(j, found) in found)
  }

  function Rank(s: State): nat {
    match s.phase
    case Done => 0
    case Leaving => 1
    case Trying => if s.MaxSpins() + 1 >= s.spins then s.MaxSpins() + 3 - s.spins else 2
  }

  lemma IterateRanks(s: State, p: Pass)
    requires s.phase.Trying?
    ensures Iterate(s, p).triedPools == s.triedPools && Iterate(s, p).pool == s.pool
    ensures Rank(Iterate(s, p)) < Rank(s)
  {
  }

  lemma FoundIsNew(s: State, e: Env, u: set<string>, p: PoolInfo)
    requires Bounded(e, u) && PatternsIn(s.pool, u)
    requires p in Fallbacks(s.pool, s.triedPools, |s.rounds|, e)
    ensures PatternsIn(p, u) && p.pattern !in s.triedPools
  {
  }

  lemma LeaveRanks(s: State, e: Env, u: set<string>)
    requires Bounded(e, u) && PatternsIn(s.pool, u)
    ensures PatternsIn(Leave(s, e).pool, u)
    ensures || (Leave(s, e).phase.Done? && Leave(s, e).triedPools == s.triedPools)
            || |u - Leave(s, e).triedPools| < |u - s.triedPools|
  {
    if e.hasSync && Fallbacks(s.pool, s.triedPools, |s.rounds|, e) != {} {
      var next := e.pick(|s.rounds|, Fallbacks(s.pool, s.triedPools, |s.rounds|, e));
      FoundIsNew(s, e, u, next);
      SmallerBy(u, s.triedPools, next.pattern);
    }
  }

  lemma SmallerBy(u: set<string>, tried: set<string>, x: string)
    requires x in u && x !in tried
    ensures |u - (tried + {x})| < |u - tried|
  {
    assert u - (tried + {x}) == (u - tried) - {x};
  }

  /** The request handled to its end. That this is a function is the termination of the
      loop: every jump leaves fewer untried patterns, every iteration fewer spins. */
  ghost function Run(s: State, e: Env, u: set<string>): State
    requires Bounded(e, u) && PatternsIn(s.pool, u)
    decreases |u - s.triedPools|, Rank(s)
  {
    match s.phase
    case Done => s
    case Leaving =>
      LeaveRanks(s, e, u);
      Run(Leave(s, e), e, u)
    case Trying =>
      if |s.calls| >= s.MaxAttempts() then Run(s.(phase := Leaving), e, u)
      else
        IterateRanks(s, e.passes(s.passes));
        Run(Iterate(s, e.passes(s.passes)), e, u)
  }

  // ----- What every request keeps -----

  function Indices(calls: seq<Call>): set<nat> {
    if calls == [] then {} else Indices(calls[..|calls| - 1]) + {calls[|calls| - 1].token.index}
  }

  predicate AllFailed(calls: seq<Call>) {
    calls == [] || (!Success(calls[|calls| - 1].reply) && AllFailed(calls[..|calls| - 1]))
  }

  /** No slot is called twice, and neither calls nor passes exceed their limits. */
  predicate Orderly(r: Round) {
    && |Indices(r.calls)| == |r.calls| <= Cap(r.pool.total)
    && |r.calls| <= r.spins <= 3 * Cap(r.pool.total) + 2
  }

  function Current(s: State): Round {
    Round(s.pool, s.calls, s.spins)
  }

  function Patterns(rounds: seq<Round>): set<string> {
    if rounds == [] then {} else Patterns(rounds[..|rounds| - 1]) + {rounds[|rounds| - 1].pool.pattern}
  }

  /** Earlier rounds were orderly, failed, and went to pools that differ. */
  predicate Past(rounds: seq<Round>) {
    rounds == [] ||
    (var front, last := rounds[..|rounds| - 1], rounds[|rounds| - 1];
     && Past(front) && Orderly(last) && AllFailed(last.calls)
     && last.pool.pattern !in Patterns(front))
  }

  /** The one response: streamed by the last call, which is then the only one to succeed,
      or an error when every call failed. */
  predicate Answered(s: State) {
    && |s.written| == 1
    && match s.written[0]
       case Streamed(status) =>
         && s.calls != [] && Success(s.calls[|s.calls| - 1].reply)
         && status == s.calls[|s.calls| - 1].reply.status && AllFailed(s.calls[..|s.calls| - 1])
       case Error(status) => 400 <= status < 600 && AllFailed(s.calls)
  }

  predicate InRound(s: State) {
    && Orderly(Current(s)) && s.tried == Indices(s.calls)
    && (s.phase.Trying? ==> s.spins <= s.MaxSpins())
    && (if s.phase.Done? then Answered(s) else s.written == [] && AllFailed(s.calls))
  }

  ghost predicate BetweenRounds(s: State, u: set<string>) {
    && Past(s.rounds) && Patterns(s.rounds) <= s.triedPools && Patterns(s.rounds) <= u
    && s.pool.pattern in s.triedPools && s.pool.pattern !in Patterns(s.rounds)
    && PatternsIn(s.pool, u)
  }

  ghost predicate Inv(s: State, u: set<string>) {
    InRound(s) && BetweenRounds(s, u)
  }

  lemma StartKeeps(pool: PoolInfo, e: Env, u: set<string>)
    requires PatternsIn(pool, u)
    ensures Inv(Start(pool, e), u)
  {
  }

  lemma OneMoreCall(calls: seq<Call>, c: Call)
    ensures Indices(calls + [c]) == Indices(calls) + {c.token.index}
    ensures AllFailed(calls + [c]) <==> AllFailed(calls) && !Success(c.reply)
    ensures (calls + [c])[..|calls|] == calls
  {
    assert (calls + [c])[..|calls|] == calls;
  }

  lemma IterateStaysInRound(s: State, p: Pass)
    requires s.phase.Trying?
    ensures Iterate(s, p).rounds == s.rounds && Iterate(s, p).pool == s.pool
    ensures Iterate(s, p).triedPools == s.triedPools
  {
  }

  /** A call on a slot not tried before. */
  lemma CallKeeps(m: State, t: Token, p: Pass)
    requires InRound(m) && m.phase.Trying? && |m.calls| < m.MaxAttempts() && |m.calls| < m.spins
    requires t.index !in m.tried
    ensures InRound(Concluded(Forwarded(m, t, p.reply), t, p))
  {
    OneMoreCall(m.calls, Call(t, p.reply));
    var c := Forwarded(m, t, p.reply);
    assert Orderly(Current(c)) && c.tried == Indices(c.calls);
    if !p.goneAfter && !Success(p.reply) {
      assert InRound(c);
      FailedKeeps(c, t, p.reply);
    }
  }

  lemma FailedKeeps(c: State, t: Token, r: Reply)
    requires InRound(c) && c.phase.Trying?
    ensures InRound(Failed(c, t, r))
  {
    var f := Failed(c, t, r);
    assert Current(f) == Current(c) && f.tried == c.tried && f.written == c.written;
  }

  predicate MakesCall(s: State, p: Pass) {
    && !p.goneBefore && s.spins + 1 <= s.MaxSpins() && p.token.Some?
    && !(p.token.value.provider == "gemini" && p.throttled) && p.token.value.index !in s.tried
  }

  lemma IterateWithoutCall(s: State, p: Pass)
    requires InRound(s) && s.phase.Trying? && !MakesCall(s, p)
    ensures InRound(Iterate(s, p))
  {
    var f := Iterate(s, p);
    assert f.calls == s.calls && f.tried == s.tried && f.pool == s.pool;
    assert s.spins <= f.spins <= s.MaxSpins() + 1;
  }

  function Spun(s: State): State {
    s.(passes := s.passes + 1, spins := s.spins + 1)
  }

  lemma SpunKeeps(s: State)
    requires InRound(s) && s.phase.Trying? && s.spins + 1 <= s.MaxSpins()
    ensures InRound(Spun(s))
  {
    assert Current(Spun(s)) == Round(s.pool, s.calls, s.spins + 1);
  }

  lemma IterateWithCall(s: State, p: Pass)
    requires s.phase.Trying? && MakesCall(s, p)
    ensures Iterate(s, p) == Concluded(Forwarded(Spun(s), p.token.value, p.reply), p.token.value, p)
  {
  }

  lemma IterateKeepsRound(s: State, p: Pass)
    requires InRound(s) && s.phase.Trying? && |s.calls| < s.MaxAttempts()
    ensures InRound(Iterate(s, p))
  {
    if MakesCall(s, p) {
      SpunKeeps(s);
      CallKeeps(Spun(s), p.token.value, p);
      IterateWithCall(s, p);
    } else {
      IterateWithoutCall(s, p);
    }
  }

  lemma IterateKeeps(s: State, p: Pass, u: set<string>)
    requires Inv(s, u) && s.phase.Trying? && |s.calls| < s.MaxAttempts()
    ensures Inv(Iterate(s, p), u)
  {
    IterateStaysInRound(s, p);
    IterateKeepsRound(s, p);
  }

  lemma LeaveKeeps(s: State, e: Env, u: set<string>)
    requires Inv(s, u) && s.phase.Leaving? && Bounded(e, u)
    ensures Inv(Leave(s, e), u)
  {
    if e.hasSync && Fallbacks(s.pool, s.triedPools, |s.rounds|, e) != {} {
      var next := e.pick(|s.rounds|, Fallbacks(s.pool, s.triedPools, |s.rounds|, e));
      FoundIsNew(s, e, u, next);
      JumpKeeps(s, next, u);
    } else {
      GivingUpKeeps(s, u);
    }
  }

  lemma JumpKeeps(s: State, next: PoolInfo, u: set<string>)
    requires Inv(s, u) && s.phase.Leaving? && PatternsIn(next, u) && next.pattern !in s.triedPools
    ensures Inv(Jumped(s, next), u)
  {
    var t := Jumped(s, next);
    assert t.rounds[..|s.rounds|] == s.rounds;
    assert Patterns(t.rounds) == Patterns(s.rounds) + {s.pool.pattern};
  }

  lemma GivingUpKeeps(s: State, u: set<string>)
    requires Inv(s, u) && s.phase.Leaving?
    ensures Inv(GaveUp(s), u)
  {
    assert Current(GaveUp(s)) == Current(s);
  }

  lemma {:induction false} RunKeeps(s: State, e: Env, u: set<string>)
    requires Bounded(e, u) && Inv(s, u)
    ensures Inv(Run(s, e, u), u) && Run(s, e, u).phase.Done?
    decreases |u - s.triedPools|, Rank(s)
  {
    match s.phase
    case Done =>
    case Leaving =>
      LeaveRanks(s, e, u);
      LeaveKeeps(s, e, u);
      RunKeeps(Leave(s, e), e, u);
    case Trying =>
      if |s.calls| >= s.MaxAttempts() {
        RunKeeps(s.(phase := Leaving), e, u);
      } else {
        IterateRanks(s, e.passes(s.passes));
        IterateKeeps(s, e.passes(s.passes), u);
        RunKeeps(Iterate(s, e.passes(s.passes)), e, u);
      }
  }

  function TotalCalls(rounds: seq<Round>): nat {
    if rounds == [] then 0 else TotalCalls(rounds[..|rounds| - 1]) + |rounds[|rounds| - 1].calls|
  }

  lemma {:induction false} PastIsBounded(rounds: seq<Round>)
    requires Past(rounds)
    ensures |Patterns(rounds)| == |rounds|
    ensures TotalCalls(rounds) <= 20 * |rounds|
  {
    if rounds != [] {
      PastIsBounded(rounds[..|rounds| - 1]);
    }
  }

  /** Whatever the pools serve, the upstreams answer and the client does: the request ends,
      with exactly one response. Each pool is used in at most one round; a round makes at
      most min(max(TotalCount, 1), 20) calls, on pairwise different slots, in at most three
      times as many passes and one more. A call that succeeds is the last one and the one
      the client sees. */
  lemma EveryRequestIsAnswered(pool: PoolInfo, e: Env, u: set<string>)
    requires Bounded(e, u) && PatternsIn(pool, u)
    ensures var end := Run(Start(pool, e), e, u);
            && end.phase.Done? && Answered(end)
            && Past(end.rounds) && Orderly(Current(end))
            && end.pool.pattern !in Patterns(end.rounds)
            && |end.rounds| < |u|
            && TotalCalls(end.rounds) + |end.calls| <= 20 * |u|
  {
    StartKeeps(pool, e, u);
    RunKeeps(Start(pool, e), e, u);
    var end := Run(Start(pool, e), e, u);
    PastIsBounded(end.rounds);
    SubsetSize(Patterns(end.rounds) + {end.pool.pattern}, u);
  }

  lemma {:induction false} SubsetSize<T>(a: set<T>, b: set<T>)
    requires a <= b
    ensures |a| <= |b|
  {
    if a != {} {
      var x :| x in a;
      SubsetSize(a - {x}, b - {x});
    }
  }

  // ----- Total exhaustion -----

  /** Before the first pass. */
  predicate Fresh(s: State) {
    && s.phase.Trying? && s.tried == {} && s.calls == [] && s.spins == 0
    && s.attempts == [] && s.rounds == [] && s.passes == 0
  }

  /** A pool no other request uses: the credentials of its slots, their cooldowns, the
      cursor before the first pass, and the time of each pass in nanoseconds. */
  datatype Ring = Ring(keys: seq<int>, cool: seq<int>, cursor: nat, clock: nat -> int)

  /** The loop together with the cooldowns of its pool. */
  datatype World = World(loop: State, cool: seq<int>)

  /** `AcquireActiveToken`, and the safety valve when the scan finds nothing. */
  function Serves(cool: seq<int>, ticket: nat, now: int): int {
    var slot := FirstReady(cool, ticket, now, 0);
    if slot != -1 then slot else Least(cool, |cool|)
  }

  /** That is what the pool objects give when there is no fallback pool and cooldowns are
      instants. */
  lemma ServesIsAcquire(v: PoolChain.View, now: int)
    requires v.cool != [] && forall j :: 0 <= j < |v.cool| ==> v.cool[j] < MAX_INT64
    ensures var slot := Serves(v.cool, NextTicket(v.cursor), now);
            && 0 <= slot < |v.cool|
            && (PoolChain.Serve([v], now) == Some((0, slot))
                || (PoolChain.Serve([v], now).None? && PoolChain.Soonest([v]) == Some((0, slot))))
  {
    PoolChain.ServeStep(v, [], now);
    PoolChain.SoonestIsReadyIfAny([v], now);
    assert [v] + [] == [v];
  }

  function ApplyEffect(pool: string, keys: seq<int>, cool: seq<int>, f: Effect, now: int): (r: seq<int>)
    ensures |r| == |cool|
  {
    if f.pool != pool || f.index >= |keys| || |keys| != |cool| then cool
    else if f.Penalize? then Penalized(keys, cool, f.index, now + f.ms * 1_000_000)
    else Penalized(keys, cool, f.index, 0)
  }

  function ApplyAll(pool: string, keys: seq<int>, cool: seq<int>, effects: seq<Effect>, now: int): (r: seq<int>)
    ensures |r| == |cool|
  {
    if effects == [] then cool
    else
      ApplyEffect(pool, keys, ApplyAll(pool, keys, cool, effects[..|effects| - 1], now), effects[|effects| - 1], now)
  }

  function Added(before: seq<Effect>, after: seq<Effect>): seq<Effect> {
    if |before| <= |after| then after[|before|..] else []
  }

  /** Pass `k` takes the loop and the cooldowns from `x[k]` to `x[k + 1]`. */
  predicate LinkedAt(w: Ring, e: Env, x: seq<World>, k: nat)
    requires k + 1 < |x|
  {
    && x[k + 1].loop == Iterate(x[k].loop, e.passes(k))
    && x[k + 1].cool ==
       ApplyAll(x[k].loop.pool.pattern, w.keys, x[k].cool, Added(x[k].loop.effects, x[k + 1].loop.effects), w.clock(k))
  }

  /** The first `n` passes of a round, and their effect on the pool. */
  ghost predicate IsTrace(w: Ring, s: State, e: Env, x: seq<World>, n: nat) {
    && |x| == n + 1 && x[0] == World(s, w.cool)
    && forall k :: 0 <= k < n ==> LinkedAt(w, e, x, k)
  }

  function TicketAt(w: Ring, k: nat): nat {
    (w.cursor + k + 1) % WORD
  }

  /** The verdict on the call of this pass, were it made. */
  function VerdictOn(s: State, p: Pass): Verdict {
    if p.token.None? then Abort
    else
      var t := p.token.value;
      Judge(s.attempts + [Attempt(t.provider, RecStatus(p.reply))], t, p.reply, s.pool.total == 1)
  }

  function PenaltyMs(s: State, p: Pass): nat {
    if VerdictOn(s, p).Rotate? then VerdictOn(s, p).cooldown else 0
  }

  /** The client stays, the key is not throttled, and the answer is a failure. */
  predicate Fails(p: Pass) {
    && !p.goneBefore && !p.goneAfter && p.token.Some?
    && !(p.token.value.provider == "gemini" && p.throttled)
    && !Success(p.reply)
  }

  /** And it is one that does not end the loop early. */
  predicate Rotates(s: State, p: Pass) {
    Fails(p) && VerdictOn(s, p).Rotate?
  }

  /** The token is what the pool serves. */
  predicate ServedBy(pool: string, keys: seq<int>, cool: seq<int>, ticket: nat, now: int, p: Pass) {
    && p.token.Some?
    && var t := p.token.value;
    && t.pool == pool && t.index == Serves(cool, ticket, now)
    && t.index < |keys| && t.credential == keys[t.index]
  }

  function Until(w: Ring, e: Env, i: nat, x: World): int {
    w.clock(i) + PenaltyMs(x.loop, e.passes(i)) * 1_000_000
  }

  predicate Lasts(w: Ring, e: Env, i: nat, k: nat, x: World) {
    w.clock(i) <= w.clock(k) < Until(w, e, i, x)
  }

  /** A call that fails with the credential it began with. */
  predicate LonePass(w: Ring, e: Env, k: nat, x: World) {
    && ServedBy(x.loop.pool.pattern, w.keys, x.cool, TicketAt(w, k), w.clock(k), e.passes(k))
    && Fails(e.passes(k)) && e.passes(k).reply.switches == []
  }

  /** The loop has not given up. */
  predicate Going(x: World) {
    x.loop.phase.Trying?
  }

  /** Up to `n` passes of a lone request on a pool that is wholly available at the start,
      all of them failing calls; no cooldown runs out on the way. Nothing is said of passes
      after the loop has given up. */
  ghost predicate Alone(w: Ring, s: State, e: Env, x: seq<World>, n: nat) {
    && IsTrace(w, s, e, x, n)
    && |w.keys| == |w.cool| == s.pool.total > 0
    && w.clock(0) < MAX_INT64
    && (forall j :: 0 <= j < |w.cool| ==> w.cool[j] <= w.clock(0))
    && (forall k :: 0 <= k < n && Going(x[k]) ==> LonePass(w, e, k, x[k]))
    && (forall i, k :: 0 <= i < k < n && Going(x[k]) ==> Lasts(w, e, i, k, x[i]))
  }

  function Credentials(calls: seq<Call>): set<int> {
    if calls == [] then {} else Credentials(calls[..|calls| - 1]) + {calls[|calls| - 1].token.credential}
  }

  function KeySet(w: Ring): set<int> {
    set j | 0 <= j < |w.keys| :: w.keys[j]
  }

  ghost predicate CoolsTo(until: int, w: Ring, k: nat, n: nat) {
    forall m :: k <= m < n ==> until > w.clock(m)
  }

  ghost predicate TriedKeys(keys: seq<int>, tried: set<nat>, called: set<int>) {
    forall i :: i in tried ==> i < |keys| && keys[i] in called
  }

  ghost predicate CoolsTried(w: Ring, cool: seq<int>, called: set<int>, k: nat, n: nat) {
    && |cool| == |w.keys|
    && forall j :: 0 <= j < |cool| ==>
         if w.keys[j] in called then CoolsTo(cool[j], w, k, n) else cool[j] <= w.clock(0)
  }

  /** The status noted is that of the last call. */
  predicate NotedLast(s: State) {
    s.calls != [] ==> s.lastStatus == RecStatus(s.calls[|s.calls| - 1].reply)
  }

  function AttemptsOf(calls: seq<Call>): seq<Attempt> {
    if calls == [] then []
    else
      var last := calls[|calls| - 1];
      AttemptsOf(calls[..|calls| - 1]) + [Attempt(last.token.provider, RecStatus(last.reply))]
  }

  /** Every one of these failed calls rotates, judged with those before it. */
  predicate AllRotate(calls: seq<Call>, singleKey: bool) {
    calls == [] ||
    (var last := calls[|calls| - 1];
     && AllRotate(calls[..|calls| - 1], singleKey)
     && Judge(AttemptsOf(calls), last.token, last.reply, singleKey).Rotate?)
  }

  /** What the round has noted of its calls. */
  predicate Noted(s: State) {
    NotedLast(s) && s.attempts == AttemptsOf(s.calls) && AllRotate(s.calls, s.pool.total == 1)
  }

  lemma OneMoreNoted(calls: seq<Call>, c: Call, singleKey: bool)
    ensures AttemptsOf(calls + [c]) == AttemptsOf(calls) + [Attempt(c.token.provider, RecStatus(c.reply))]
    ensures AllRotate(calls + [c], singleKey) <==>
              AllRotate(calls, singleKey) && Judge(AttemptsOf(calls + [c]), c.token, c.reply, singleKey).Rotate?
  {
    assert (calls + [c])[..|calls|] == calls;
  }

  /** After `k` passes: `k` calls with as many different credentials, and exactly those
      credentials cool. */
  ghost predicate LoopOnTrack(w: Ring, loop: State, k: nat) {
    && loop.phase.Trying? && loop.spins == |loop.calls| == k
    && |Credentials(loop.calls)| == k && Credentials(loop.calls) <= KeySet(w)
    && TriedKeys(w.keys, loop.tried, Credentials(loop.calls))
    && Noted(loop)
  }

  ghost predicate OnTrack(w: Ring, x: World, k: nat, n: nat) {
    LoopOnTrack(w, x.loop, k) && CoolsTried(w, x.cool, Credentials(x.loop.calls), k, n)
  }

  lemma OneIsMissing<T>(a: set<T>, b: set<T>) returns (x: T)
    requires |b| < |a|
    ensures x in a && x !in b
  {
    if a <= b {
      SubsetSize(a, b);
    }
    x :| x in a && x !in b;
  }

  /** While a credential is left untried the pool serves one: the scan finds it, or else
      the safety valve does. */
  lemma ServesUntried(w: Ring, cool: seq<int>, ticket: nat, now: int, cooling: set<int>)
    requires |w.keys| == |cool| > 0 && w.clock(0) <= now && w.clock(0) < MAX_INT64
    requires cooling <= KeySet(w) && |cooling| < |KeySet(w)|
    requires forall j :: 0 <= j < |cool| ==> if w.keys[j] in cooling then cool[j] > now else cool[j] <= w.clock(0)
    ensures var slot := Serves(cool, ticket, now);
            0 <= slot < |cool| && w.keys[slot] !in cooling
  {
    var key := OneIsMissing(KeySet(w), cooling);
    var j :| 0 <= j < |w.keys| && w.keys[j] == key;
    assert cool[j] <= w.clock(0);
  }

  /** What a pass does that calls a new slot and rotates. */
  lemma RotatingPass(s: State, p: Pass)
    requires s.phase.Trying? && MakesCall(s, p) && Rotates(s, p)
    ensures var t, f := p.token.value, Iterate(s, p);
            && f.phase.Trying? && f.spins == s.spins + 1
            && f.calls == s.calls + [Call(t, p.reply)] && f.tried == s.tried + {t.index}
            && f.lastStatus == RecStatus(p.reply) && f.pool == s.pool
            && f.attempts == s.attempts + [Attempt(t.provider, RecStatus(p.reply))]
            && (p.reply.switches == [] ==> f.effects == s.effects + [Penalize(t.pool, t.index, PenaltyMs(s, p))])
  {
    IterateWithCall(s, p);
    assert s.effects + [] == s.effects;
  }

  lemma OneEffect(pool: string, keys: seq<int>, cool: seq<int>, before: seq<Effect>, f: Effect, now: int)
    ensures ApplyAll(pool, keys, cool, Added(before, before + [f]), now) == ApplyEffect(pool, keys, cool, f, now)
  {
    assert (before + [f])[|before|..] == [f];
    assert [f][..0] == [];
  }

  lemma OneMoreCredential(calls: seq<Call>, c: Call)
    ensures Credentials(calls + [c]) == Credentials(calls) + {c.token.credential}
  {
    assert (calls + [c])[..|calls|] == calls;
  }

  lemma CoolsOneMore(w: Ring, cool: seq<int>, called: set<int>, k: nat, n: nat, slot: nat, until: int)
    requires |w.keys| == |cool| && slot < |cool| && k < n
    requires CoolsTried(w, cool, called, k, n) && CoolsTo(until, w, k + 1, n)
    ensures CoolsTried(w, Penalized(w.keys, cool, slot, until), called + {w.keys[slot]}, k + 1, n)
  {
  }

  /** The pool serves a slot that was not called, so the pass makes a call. */
  lemma CallsUntried(w: Ring, x: World, p: Pass, k: nat, n: nat)
    requires OnTrack(w, x, k, n) && k < n <= |KeySet(w)| && n <= x.loop.MaxAttempts() && |w.keys| > 0
    requires w.clock(0) <= w.clock(k) && w.clock(0) < MAX_INT64
    requires ServedBy(x.loop.pool.pattern, w.keys, x.cool, TicketAt(w, k), w.clock(k), p) && Fails(p)
    ensures MakesCall(x.loop, p) && p.token.value.credential !in Credentials(x.loop.calls)
  {
    ServesUntried(w, x.cool, TicketAt(w, k), w.clock(k), Credentials(x.loop.calls));
  }

  lemma LoopStaysOnTrack(w: Ring, loop: State, p: Pass, k: nat)
    requires LoopOnTrack(w, loop, k) && MakesCall(loop, p) && Rotates(loop, p)
    requires var t := p.token.value;
             t.index < |w.keys| && t.credential == w.keys[t.index] && t.credential !in Credentials(loop.calls)
    ensures LoopOnTrack(w, Iterate(loop, p), k + 1)
    ensures Credentials(Iterate(loop, p).calls) == Credentials(loop.calls) + {p.token.value.credential}
  {
    var t := p.token.value;
    RotatingPass(loop, p);
    OneMoreCredential(loop.calls, Call(t, p.reply));
    OneMoreNoted(loop.calls, Call(t, p.reply), loop.pool.total == 1);
  }

  lemma OnlyPenalty(w: Ring, x: World, p: Pass, now: int)
    requires x.loop.phase.Trying? && MakesCall(x.loop, p) && Rotates(x.loop, p) && p.reply.switches == []
    requires p.token.value.pool == x.loop.pool.pattern && p.token.value.index < |w.keys| == |x.cool|
    ensures ApplyAll(x.loop.pool.pattern, w.keys, x.cool, Added(x.loop.effects, Iterate(x.loop, p).effects), now)
         == Penalized(w.keys, x.cool, p.token.value.index, now + PenaltyMs(x.loop, p) * 1_000_000)
  {
    var t := p.token.value;
    RotatingPass(x.loop, p);
    OneEffect(t.pool, w.keys, x.cool, x.loop.effects, Penalize(t.pool, t.index, PenaltyMs(x.loop, p)), now);
  }

  lemma StaysOnTrack(w: Ring, x: World, p: Pass, k: nat, n: nat, next: State, cool: seq<int>)
    requires OnTrack(w, x, k, n) && k < n && next == Iterate(x.loop, p)
    requires MakesCall(x.loop, p) && Rotates(x.loop, p) && p.reply.switches == []
    requires var t := p.token.value;
             && t.pool == x.loop.pool.pattern && t.index < |w.keys|
             && t.credential == w.keys[t.index] && t.credential !in Credentials(x.loop.calls)
    requires CoolsTo(w.clock(k) + PenaltyMs(x.loop, p) * 1_000_000, w, k + 1, n)
    requires cool == ApplyAll(x.loop.pool.pattern, w.keys, x.cool, Added(x.loop.effects, next.effects), w.clock(k))
    ensures OnTrack(w, World(next, cool), k + 1, n)
  {
    LoopStaysOnTrack(w, x.loop, p, k);
    OnlyPenalty(w, x, p, w.clock(k));
    CoolsOneMore(w, x.cool, Credentials(x.loop.calls), k, n, p.token.value.index, w.clock(k) + PenaltyMs(x.loop, p) * 1_000_000);
  }

  lemma StepKeepsPool(s: State, p: Pass)
    ensures Iterate(s, p).pool == s.pool && Iterate(s, p).passes == s.passes + 1
    ensures Iterate(s, p).rounds == s.rounds && Iterate(s, p).triedPools == s.triedPools
    ensures Iterate(s, p).phase.Trying? ==> s.phase.Trying?
  {
  }

  /** What one pass leaves alone. */
  lemma LinkKeeps(w: Ring, e: Env, x: seq<World>, k: nat)
    requires k + 1 < |x| && LinkedAt(w, e, x, k)
    ensures var y, z := x[k].loop, x[k + 1].loop;
            && z.pool == y.pool && z.passes == y.passes + 1 && z.rounds == y.rounds && z.triedPools == y.triedPools
            && (Going(x[k + 1]) ==> Going(x[k]))
  {
    StepKeepsPool(x[k].loop, e.passes(k));
  }

  /** What passes leave alone; a loop that is going has been going all the time. */
  lemma {:induction false} TraceKeeps(w: Ring, s: State, e: Env, x: seq<World>, k: nat, n: nat)
    requires IsTrace(w, s, e, x, n) && k <= n
    ensures var y := x[k].loop;
            y.pool == s.pool && y.passes == s.passes + k && y.rounds == s.rounds && y.triedPools == s.triedPools
    ensures Going(x[k]) ==> forall i :: 0 <= i <= k ==> Going(x[i])
  {
    if k > 0 {
      TraceKeeps(w, s, e, x, k - 1, n);
      LinkKeeps(w, e, x, k - 1);
    }
  }

  /** The penalty of pass `i` outlasts all passes up to `h`, while the loop gets there. */
  lemma PenaltyOutlasts(w: Ring, s: State, e: Env, x: seq<World>, i: nat, h: nat, n: nat)
    requires Alone(w, s, e, x, n) && i < h <= n && Going(x[h - 1])
    ensures CoolsTo(Until(w, e, i, x[i]), w, i + 1, h)
  {
    TraceKeeps(w, s, e, x, h - 1, n);
    forall k | i + 1 <= k < h
      ensures Until(w, e, i, x[i]) > w.clock(k)
    {
      assert Going(x[k]) && Lasts(w, e, i, k, x[i]);
    }
  }

  /** A pass whose call makes the loop give up. */
  lemma GivingUp(x: State, p: Pass)
    requires x.phase.Trying? && MakesCall(x, p) && Fails(p) && !VerdictOn(x, p).Rotate?
    ensures var f := Iterate(x, p);
            && f.phase.Leaving? && f.calls == x.calls + [Call(p.token.value, p.reply)]
            && f.spins == x.spins + 1 && f.lastStatus == RecStatus(p.reply)
  {
    IterateWithCall(x, p);
  }

  lemma StillRotates(x: State, p: Pass)
    requires x.phase.Trying? && MakesCall(x, p) && Fails(p) && Iterate(x, p).phase.Trying?
    ensures Rotates(x, p)
  {
    if !VerdictOn(x, p).Rotate? {
      GivingUp(x, p);
    }
  }

  /** What is known of pass `i` when the loop gets there on track. */
  lemma CallsAt(w: Ring, s: State, e: Env, x: seq<World>, i: nat, h: nat, n: nat)
    requires Alone(w, s, e, x, n) && i < h <= n <= |KeySet(w)| && n <= s.MaxAttempts()
    requires Going(x[i]) && OnTrack(w, x[i], i, h)
    ensures LonePass(w, e, i, x[i]) && x[i].loop.pool == s.pool
    ensures MakesCall(x[i].loop, e.passes(i)) && e.passes(i).token.value.credential !in Credentials(x[i].loop.calls)
  {
    TraceKeeps(w, s, e, x, i, n);
    assert i > 0 ==> Lasts(w, e, 0, i, x[0]);
    CallsUntried(w, x[i], e.passes(i), i, h);
  }

  lemma StepOnTrack(w: Ring, s: State, e: Env, x: seq<World>, i: nat, h: nat, n: nat)
    requires Alone(w, s, e, x, n) && i < h <= n <= |KeySet(w)| && n <= s.MaxAttempts()
    requires Going(x[h - 1]) && Going(x[i]) && Going(x[i + 1]) && OnTrack(w, x[i], i, h)
    ensures OnTrack(w, x[i + 1], i + 1, h)
  {
    CallsAt(w, s, e, x, i, h, n);
    PenaltyOutlasts(w, s, e, x, i, h, n);
    assert LinkedAt(w, e, x, i);
    StillRotates(x[i].loop, e.passes(i));
    StaysOnTrack(w, x[i], e.passes(i), i, h, x[i + 1].loop, x[i + 1].cool);
  }

  /** As long as a credential is left, each pass calls another one. */
  lemma {:induction false} AllOnTrack(w: Ring, s: State, e: Env, x: seq<World>, k: nat, h: nat, n: nat)
    requires Fresh(s) && Alone(w, s, e, x, n) && k <= h <= n <= |KeySet(w)| && n <= s.MaxAttempts()
    requires (h > 0 ==> Going(x[h - 1])) && Going(x[k])
    ensures OnTrack(w, x[k], k, h)
  {
    if k > 0 {
      TraceKeeps(w, s, e, x, k, n);
      AllOnTrack(w, s, e, x, k - 1, h, n);
      StepOnTrack(w, s, e, x, k - 1, h, n);
    }
  }

  lemma RunOnce(s: State, e: Env, u: set<string>)
    requires Bounded(e, u) && PatternsIn(s.pool, u)
    requires s.phase.Trying? && |s.calls| < s.MaxAttempts()
    ensures Iterate(s, e.passes(s.passes)).pool == s.pool
    ensures Run(s, e, u) == Run(Iterate(s, e.passes(s.passes)), e, u)
  {
    IterateRanks(s, e.passes(s.passes));
  }

  /** A pass the loop gets to is the next one of the request. */
  lemma NextPass(w: Ring, s: State, e: Env, x: seq<World>, i: nat, h: nat, n: nat)
    requires Fresh(s) && Alone(w, s, e, x, n) && i < h <= n <= |KeySet(w)| && n <= s.MaxAttempts()
    requires Going(x[h - 1])
    ensures var y := x[i].loop;
            y.phase.Trying? && |y.calls| < y.MaxAttempts() && y.pool == s.pool && x[i + 1].loop == Iterate(y, e.passes(y.passes))
  {
    TraceKeeps(w, s, e, x, h - 1, n);
    TraceKeeps(w, s, e, x, i, n);
    AllOnTrack(w, s, e, x, i, h, n);
    assert LinkedAt(w, e, x, i);
  }

  lemma RunNext(w: Ring, s: State, e: Env, u: set<string>, x: seq<World>, i: nat, h: nat, n: nat)
    requires Bounded(e, u) && PatternsIn(s.pool, u) && Fresh(s)
    requires Alone(w, s, e, x, n) && i < h <= n <= |KeySet(w)| && n <= s.MaxAttempts()
    requires Going(x[h - 1])
    ensures x[i].loop.pool == x[i + 1].loop.pool == s.pool
    ensures Run(x[i].loop, e, u) == Run(x[i + 1].loop, e, u)
  {
    NextPass(w, s, e, x, i, h, n);
    RunOnce(x[i].loop, e, u);
  }

  /** The request goes through the passes of its first round. */
  lemma {:induction false} RunFollows(w: Ring, s: State, e: Env, u: set<string>, x: seq<World>, k: nat, h: nat, n: nat)
    requires Bounded(e, u) && PatternsIn(s.pool, u) && Fresh(s)
    requires Alone(w, s, e, x, n) && k <= h <= n <= |KeySet(w)| && n <= s.MaxAttempts()
    requires h > 0 ==> Going(x[h - 1])
    ensures PatternsIn(x[k].loop.pool, u) && Run(s, e, u) == Run(x[k].loop, e, u)
  {
    if k > 0 {
      RunFollows(w, s, e, u, x, k - 1, h, n);
      RunNext(w, s, e, u, x, k - 1, h, n);
    }
  }

  lemma {:induction false} DistinctKeys(keys: seq<int>)
    requires forall i, j :: 0 <= i < j < |keys| ==> keys[i] != keys[j]
    ensures |set j | 0 <= j < |keys| :: keys[j]| == |keys|
  {
    if keys != [] {
      var front := keys[..|keys| - 1];
      DistinctKeys(front);
      var a, b := set j | 0 <= j < |front| :: front[j], set j | 0 <= j < |keys| :: keys[j];
      assert b == a + {keys[|keys| - 1]} by {
        assert keys == front + [keys[|keys| - 1]];
      }
    }
  }

  /** The end of a round that finds no fallback, having used up its attempts or given up. */
  lemma RunExhausted(s: State, e: Env, u: set<string>)
    requires Bounded(e, u) && PatternsIn(s.pool, u)
    requires s.phase.Leaving? || (s.phase.Trying? && |s.calls| >= s.MaxAttempts())
    requires e.hasSync ==> Fallbacks(s.pool, s.triedPools, |s.rounds|, e) == {}
    ensures var end := Run(s, e, u);
            && end.calls == s.calls && end.spins == s.spins && end.rounds == s.rounds && end.tried == s.tried
            && end.lastStatus == s.lastStatus && end.effects == s.effects
            && end.written == s.written + [Error(FinalStatus(s.lastStatus))]
  {
    var l := s.(phase := Leaving);
    LeaveRanks(l, e, u);
    assert Run(l, e, u) == Run(Leave(l, e), e, u);
  }

  /** What `k` calls leave behind when no fallback is found. */
  ghost predicate EndsAfter(end: State, k: nat) {
    && end.rounds == [] && |end.calls| == end.spins == k == |Credentials(end.calls)| && k > 0
    && end.written != []
    && end.written[|end.written| - 1] == Error(FinalStatus(RecStatus(end.calls[k - 1].reply)))
  }

  lemma RoundUsedUp(w: Ring, s: State, e: Env, u: set<string>, x: seq<World>, n: nat)
    requires Bounded(e, u) && PatternsIn(s.pool, u) && Fresh(s) && n == s.MaxAttempts() <= |KeySet(w)|
    requires Alone(w, s, e, x, n) && Going(x[n])
    requires e.hasSync ==> Fallbacks(s.pool, s.triedPools, 0, e) == {}
    ensures EndsAfter(Run(s, e, u), n) && AllRotate(Run(s, e, u).calls, s.pool.total == 1)
    ensures Run(s, e, u).calls == x[n].loop.calls
  {
    TraceKeeps(w, s, e, x, n, n);
    AllOnTrack(w, s, e, x, n, n, n);
    RunFollows(w, s, e, u, x, n, n, n);
    RunExhausted(x[n].loop, e, u);
  }

  /** The state after the pass in which the loop gives up. */
  lemma LastPass(y: State, p: Pass, m: nat)
    requires y.phase.Trying? && |y.calls| == y.spins == m == |Credentials(y.calls)| && Noted(y)
    requires MakesCall(y, p) && Fails(p) && p.token.value.credential !in Credentials(y.calls)
    requires !Iterate(y, p).phase.Trying?
    ensures var f := Iterate(y, p);
            && f.phase.Leaving? && |f.calls| == f.spins == m + 1 == |Credentials(f.calls)| && f.calls[..m] == y.calls
            && !AllRotate(f.calls, y.pool.total == 1) && f.lastStatus == RecStatus(f.calls[m].reply)
  {
    if VerdictOn(y, p).Rotate? {
      RotatingPass(y, p);
    }
    GivingUp(y, p);
    OneMoreCredential(y.calls, Call(p.token.value, p.reply));
    OneMoreNoted(y.calls, Call(p.token.value, p.reply), y.pool.total == 1);
  }

  /** After `m` calls on as many credentials this pass calls another one and gives up. */
  ghost predicate StopsHere(y: State, p: Pass, m: nat) {
    && |y.calls| == y.spins == m == |Credentials(y.calls)| && Noted(y)
    && MakesCall(y, p) && Fails(p) && p.token.value.credential !in Credentials(y.calls)
    && !Iterate(y, p).phase.Trying?
  }

  lemma StopsAt(w: Ring, s: State, e: Env, x: seq<World>, m: nat, n: nat)
    requires Fresh(s) && Alone(w, s, e, x, n) && m < n <= |KeySet(w)| && n <= s.MaxAttempts()
    requires Going(x[m]) && !Going(x[m + 1])
    ensures StopsHere(x[m].loop, e.passes(m), m)
  {
    AllOnTrack(w, s, e, x, m, m + 1, n);
    CallsAt(w, s, e, x, m, m + 1, n);
    assert LinkedAt(w, e, x, m);
  }

  /** From there to the error. */
  lemma GivenUpEnds(y: State, e: Env, u: set<string>, m: nat)
    requires Bounded(e, u) && PatternsIn(y.pool, u) && y.phase.Trying? && y.rounds == []
    requires StopsHere(y, e.passes(y.passes), m) && m < y.MaxAttempts()
    requires e.hasSync ==> Fallbacks(y.pool, y.triedPools, 0, e) == {}
    ensures var end := Run(y, e, u);
            && EndsAfter(end, m + 1)
            && AllRotate(end.calls[..m], y.pool.total == 1) && !AllRotate(end.calls, y.pool.total == 1)
            && end.calls == Iterate(y, e.passes(y.passes)).calls
  {
    var f := Iterate(y, e.passes(y.passes));
    LastPass(y, e.passes(y.passes), m);
    StepKeepsPool(y, e.passes(y.passes));
    RunOnce(y, e, u);
    RunExhausted(f, e, u);
  }

  lemma RoundGivenUp(w: Ring, s: State, e: Env, u: set<string>, x: seq<World>, m: nat, n: nat)
    requires Bounded(e, u) && PatternsIn(s.pool, u) && Fresh(s) && m < n == s.MaxAttempts() <= |KeySet(w)|
    requires Alone(w, s, e, x, n) && Going(x[m]) && !Going(x[m + 1])
    requires e.hasSync ==> Fallbacks(s.pool, s.triedPools, 0, e) == {}
    ensures var end := Run(s, e, u);
            && EndsAfter(end, m + 1)
            && AllRotate(end.calls[..m], s.pool.total == 1) && !AllRotate(end.calls, s.pool.total == 1)
            && end.calls == x[m + 1].loop.calls
  {
    var y := x[m].loop;
    StopsAt(w, s, e, x, m, n);
    RunFollows(w, s, e, u, x, m, m + 1, n);
    assert y.pool == s.pool && y.passes == m && y.rounds == [] && y.triedPools == s.triedPools by {
      TraceKeeps(w, s, e, x, m, n);
    }
    assert LinkedAt(w, e, x, m);
    GivenUpEnds(y, e, u, m);
  }

  /** The setting of total exhaustion: a lone request on a pool of keys of weight one, all
      available, calls that fail, no cooldown running out, no fallback. */
  ghost predicate Exhausting(w: Ring, pool: PoolInfo, e: Env, u: set<string>, x: seq<World>) {
    && Bounded(e, u) && PatternsIn(pool, u)
    && Alone(w, Start(pool, e), e, x, Cap(pool.total))
    && (forall i, j :: 0 <= i < j < |w.keys| ==> w.keys[i] != w.keys[j])
    && (e.hasSync ==> Fallbacks(pool, Start(pool, e).triedPools, 0, e) == {})
  }

  lemma ExhaustingStart(w: Ring, pool: PoolInfo, e: Env, u: set<string>, x: seq<World>)
    requires Exhausting(w, pool, e, u, x)
    ensures Fresh(Start(pool, e)) && Start(pool, e).pool == pool
    ensures Cap(pool.total) == AtMost20(pool.total) <= |KeySet(w)| && pool.total > 0
  {
    DistinctKeys(w.keys);
  }

  lemma OneAnswer(pool: PoolInfo, e: Env, u: set<string>)
    requires Bounded(e, u) && PatternsIn(pool, u)
    ensures var end := Run(Start(pool, e), e, u);
            |end.written| == 1 && |Indices(end.calls)| == |end.calls|
  {
    EveryRequestIsAnswered(pool, e, u);
  }

  lemma OnlyWritten(end: State, n: nat)
    requires EndsAfter(end, n) && |end.written| == 1
    ensures end.written == [Error(FinalStatus(RecStatus(end.calls[n - 1].reply)))]
  {
  }

  function AtMost20(total: nat): nat {
    if total < 20 then total else 20
  }

  /** If only failures that rotate come, the loop calls min(TotalCount, 20) different slots
      once each, spends one pass on each, so that the safety valve never fires, and answers
      with the status of the last failure. */
  lemma TotalExhaustion(w: Ring, pool: PoolInfo, e: Env, u: set<string>, x: seq<World>)
    requires Exhausting(w, pool, e, u, x) && Going(x[Cap(pool.total)])
    ensures var end, n := Run(Start(pool, e), e, u), AtMost20(pool.total);
            && end.rounds == [] && |end.calls| == n == |Indices(end.calls)| == |Credentials(end.calls)|
            && end.spins == n > 0
            && end.written == [Error(FinalStatus(RecStatus(end.calls[n - 1].reply)))]
  {
    ExhaustingStart(w, pool, e, u, x);
    RoundUsedUp(w, Start(pool, e), e, u, x, AtMost20(pool.total));
    OneAnswer(pool, e, u);
    OnlyWritten(Run(Start(pool, e), e, u), AtMost20(pool.total));
  }

  lemma {:induction false} FirstStop(x: seq<World>, n: nat) returns (m: nat)
    requires |x| == n + 1 && Going(x[0])
    ensures m <= n && Going(x[m]) && (m < n ==> !Going(x[m + 1]))
  {
    if n == 0 {
      m := 0;
    } else {
      m := FirstStop(x[..n], n - 1);
      if m == n - 1 && Going(x[n]) {
        m := n;
      }
    }
  }

  lemma {:induction false} RotatePrefix(calls: seq<Call>, k: nat, singleKey: bool)
    requires k <= |calls|
    ensures AllRotate(calls, singleKey) ==> AllRotate(calls[..k], singleKey)
  {
    if k < |calls| {
      RotatePrefix(calls[..|calls| - 1], k, singleKey);
      assert calls[..|calls| - 1][..k] == calls[..k];
    } else {
      assert calls[..k] == calls;
    }
  }

  /** What the first `k` passes offer: each key served, with the reply its call would get. */
  function Offers(e: Env, k: nat): (r: seq<Call>)
    ensures |r| <= k
  {
    if k == 0 then []
    else
      var p := e.passes(k - 1);
      Offers(e, k - 1) + (if p.token.Some? then [Call(p.token.value, p.reply)] else [])
  }

  lemma {:induction false} OffersExtend(e: Env, i: nat, k: nat)
    requires i <= k
    ensures Offers(e, i) <= Offers(e, k)
  {
    if i < k {
      OffersExtend(e, i, k - 1);
    }
  }

  lemma PassTakesOffer(y: State, p: Pass)
    requires y.phase.Trying? && MakesCall(y, p)
    ensures Iterate(y, p).calls == y.calls + [Call(p.token.value, p.reply)]
  {
    IterateWithCall(y, p);
  }

  /** The calls made by pass `k` are the offers up to then. */
  lemma {:induction false} CallsAreOffers(w: Ring, s: State, e: Env, x: seq<World>, k: nat, h: nat, n: nat)
    requires Fresh(s) && Alone(w, s, e, x, n) && k <= h <= n <= |KeySet(w)| && n <= s.MaxAttempts()
    requires h > 0 ==> Going(x[h - 1])
    ensures x[k].loop.calls == Offers(e, k)
  {
    if k > 0 {
      CallsAreOffers(w, s, e, x, k - 1, h, n);
      TraceKeeps(w, s, e, x, h - 1, n);
      AllOnTrack(w, s, e, x, k - 1, h, n);
      CallsAt(w, s, e, x, k - 1, h, n);
      assert LinkedAt(w, e, x, k - 1);
      PassTakesOffer(x[k - 1].loop, e.passes(k - 1));
    }
  }

  /** A round of at most `n` calls on different credentials that ended by itself. It took
      the offers in turn, up to the first one to be given up on, and all `n` exactly when
      there is no such among those before the last. */
  ghost predicate EndsRight(end: State, e: Env, n: nat, singleKey: bool) {
    && 0 < |end.calls| == |Credentials(end.calls)| <= n
    && end.calls == Offers(e, |end.calls|)
    && AllRotate(end.calls[..|end.calls| - 1], singleKey)
    && (|end.calls| == n <==> AllRotate(Offers(e, n - 1), singleKey))
    && end.written != []
    && end.written[|end.written| - 1] == Error(FinalStatus(RecStatus(end.calls[|end.calls| - 1].reply)))
  }

  lemma OffersRotate(e: Env, i: nat, k: nat, singleKey: bool)
    requires i <= k
    ensures AllRotate(Offers(e, k), singleKey) ==> AllRotate(Offers(e, i), singleKey)
  {
    OffersExtend(e, i, k);
    assert Offers(e, k)[..|Offers(e, i)|] == Offers(e, i);
    RotatePrefix(Offers(e, k), |Offers(e, i)|, singleKey);
  }

  lemma UsedUpIsRight(end: State, e: Env, n: nat, singleKey: bool)
    requires EndsAfter(end, n) && end.calls == Offers(e, n) && AllRotate(end.calls, singleKey)
    ensures EndsRight(end, e, n, singleKey)
  {
    OffersRotate(e, n - 1, n, singleKey);
    RotatePrefix(end.calls, n - 1, singleKey);
  }

  lemma GivenUpIsRight(end: State, e: Env, m: nat, n: nat, singleKey: bool)
    requires m + 1 < n && EndsAfter(end, m + 1) && end.calls == Offers(e, m + 1)
    requires AllRotate(end.calls[..m], singleKey) && !AllRotate(end.calls, singleKey)
    ensures EndsRight(end, e, n, singleKey)
  {
    OffersRotate(e, m + 1, n - 1, singleKey);
  }

  /** Giving up on the last possible call makes no difference to the number of calls. */
  lemma LastGivenUpIsRight(end: State, e: Env, n: nat, singleKey: bool)
    requires n > 0 && EndsAfter(end, n) && end.calls == Offers(e, n)
    requires AllRotate(end.calls[..n - 1], singleKey)
    ensures EndsRight(end, e, n, singleKey)
  {
    LastOffer(e, n);
  }

  lemma LastOffer(e: Env, n: nat)
    requires n > 0 && |Offers(e, n)| == n
    ensures Offers(e, n - 1) == Offers(e, n)[..n - 1]
  {
  }

  lemma ExhaustedRight(w: Ring, s: State, e: Env, u: set<string>, x: seq<World>, n: nat)
    requires Bounded(e, u) && PatternsIn(s.pool, u) && Fresh(s) && n == s.MaxAttempts() <= |KeySet(w)|
    requires Alone(w, s, e, x, n)
    requires e.hasSync ==> Fallbacks(s.pool, s.triedPools, 0, e) == {}
    ensures EndsRight(Run(s, e, u), e, n, s.pool.total == 1)
  {
    var single := s.pool.total == 1;
    var m := FirstStop(x, n);
    if m == n {
      TraceKeeps(w, s, e, x, n, n);
      RoundUsedUp(w, s, e, u, x, n);
      CallsAreOffers(w, s, e, x, n, n, n);
      UsedUpIsRight(Run(s, e, u), e, n, single);
    } else {
      RoundGivenUp(w, s, e, u, x, m, n);
      CallsAreOffers(w, s, e, x, m + 1, m + 1, n);
      if m + 1 < n {
        GivenUpIsRight(Run(s, e, u), e, m, n, single);
      } else {
        LastGivenUpIsRight(Run(s, e, u), e, n, single);
      }
    }
  }

  lemma AnswersRight(end: State, e: Env, n: nat, singleKey: bool)
    requires EndsRight(end, e, n, singleKey) && |end.written| == 1
    ensures end.written[0] == Error(FinalStatus(RecStatus(end.calls[|end.calls| - 1].reply)))
  {
  }

  /** The policy says that any failure rotates. Each of the min(TotalCount, 20) keys is
      called exactly when none of the replies that wait for the first of them, but for the
      last one, is judged as one to give up on; otherwise the first such call is the last
      and the other keys stay untried. */
  lemma AllKeysCalledIff(w: Ring, pool: PoolInfo, e: Env, u: set<string>, x: seq<World>)
    requires Exhausting(w, pool, e, u, x)
    ensures var end, n := Run(Start(pool, e), e, u), AtMost20(pool.total);
            && 0 < |end.calls| == |Credentials(end.calls)| <= n
            && (|end.calls| == n <==> AllRotate(Offers(e, n - 1), pool.total == 1))
            && end.calls == Offers(e, |end.calls|) && AllRotate(end.calls[..|end.calls| - 1], pool.total == 1)
            && |end.written| == 1 && end.written[0] == Error(FinalStatus(RecStatus(end.calls[|end.calls| - 1].reply)))
  {
    ExhaustingStart(w, pool, e, u, x);
    ExhaustedRight(w, Start(pool, e), e, u, x, AtMost20(pool.total));
    OneAnswer(pool, e, u);
    AnswersRight(Run(Start(pool, e), e, u), e, AtMost20(pool.total), pool.total == 1);
  }

  /** What it takes to give up: the second 400 from one provider or a 429 from a single key,
      and then only if the reply does not speak against the key; a 404 always rotates. */
  lemma AbortsEarlyIff(attempts: seq<Attempt>, t: Token, r: Reply, singleKey: bool)
    ensures !Judge(attempts, t, r, singleKey).Rotate? <==>
            && !QuotaOrAuth(t, r)
            && ((RecStatus(r) == 400 && Count400(attempts, t.provider) >= 2) || (RecStatus(r) == 429 && singleKey))
  {
  }

  // ----- Penalties -----

  predicate PenaltyWithin(f: Effect, lo: nat, hi: nat) {
    f.Penalize? ==> lo <= f.ms <= hi
  }

  predicate Within(effects: seq<Effect>, lo: nat, hi: nat) {
    effects == [] || (PenaltyWithin(effects[|effects| - 1], lo, hi) && Within(effects[..|effects| - 1], lo, hi))
  }

  lemma WithinOneMore(effects: seq<Effect>, f: Effect, lo: nat, hi: nat)
    ensures Within(effects + [f], lo, hi) <==> Within(effects, lo, hi) && PenaltyWithin(f, lo, hi)
  {
    assert (effects + [f])[..|effects|] == effects;
  }

  lemma {:induction false} WithinAppend(a: seq<Effect>, b: seq<Effect>, lo: nat, hi: nat)
    ensures Within(a + b, lo, hi) <==> Within(a, lo, hi) && Within(b, lo, hi)
  {
    if b == [] {
      assert a + b == a;
    } else {
      var front, last := b[..|b| - 1], b[|b| - 1];
      WithinAppend(a, front, lo, hi);
      assert a + b == (a + front) + [last];
      WithinOneMore(a + front, last, lo, hi);
    }
  }

  lemma {:induction false} ThrottlesWithin(pool: string, tokens: seq<Token>, hi: nat)
    requires hi >= 15_000
    ensures Within(Throttles(pool, tokens), 300, hi)
  {
    if tokens != [] {
      ThrottlesWithin(pool, tokens[..|tokens| - 1], hi);
      WithinOneMore(Throttles(pool, tokens[..|tokens| - 1]), Penalize(pool, tokens[|tokens| - 1].index, 5_000), 300, hi);
    }
  }

  /** What a forwarded call penalizes stays below 15 seconds exactly when no stream broke
      off, and below 30 in any case. */
  lemma {:induction false} InnerWithin(pool: string, t: Token, switches: seq<Switch>)
    ensures Within(InnerEffects(pool, t, switches), 300, 30_000)
    ensures Within(InnerEffects(pool, t, switches), 300, 15_000) <==> switches == []
  {
    if switches != [] {
      var front, last := switches[..|switches| - 1], switches[|switches| - 1];
      var inner, broken := InnerEffects(pool, t, front), Penalize(pool, Server(t, front).index, 30_000);
      InnerWithin(pool, t, front);
      WithinOneMore(inner, broken, 300, 30_000);
      WithinOneMore(inner, broken, 300, 15_000);
      ThrottlesWithin(pool, last.throttled, 30_000);
      WithinAppend(inner + [broken], Throttles(pool, last.throttled), 300, 30_000);
      WithinAppend(inner + [broken], Throttles(pool, last.throttled), 300, 15_000);
    }
  }

  /** No stream broke off within these calls. */
  predicate Unbroken(calls: seq<Call>) {
    calls == [] || (calls[|calls| - 1].reply.switches == [] && Unbroken(calls[..|calls| - 1]))
  }

  predicate AllUnbroken(rounds: seq<Round>) {
    rounds == [] || (Unbroken(rounds[|rounds| - 1].calls) && AllUnbroken(rounds[..|rounds| - 1]))
  }

  predicate PenaltiesRight(s: State) {
    && Within(s.effects, 300, 30_000)
    && (Within(s.effects, 300, 15_000) <==> Unbroken(s.calls) && AllUnbroken(s.rounds))
  }

  lemma OneMoreEffect(s: State, f: State, e: Effect)
    requires PenaltiesRight(s) && f.effects == s.effects + [e] && f.calls == s.calls && f.rounds == s.rounds
    requires PenaltyWithin(e, 300, 15_000)
    ensures PenaltiesRight(f)
  {
    WithinOneMore(s.effects, e, 300, 30_000);
    WithinOneMore(s.effects, e, 300, 15_000);
  }

  lemma ForwardedPenalties(s: State, t: Token, r: Reply)
    requires PenaltiesRight(s)
    ensures PenaltiesRight(Forwarded(s, t, r))
  {
    var inner := InnerEffects(s.pool.pattern, t, r.switches);
    InnerWithin(s.pool.pattern, t, r.switches);
    WithinAppend(s.effects, inner, 300, 30_000);
    WithinAppend(s.effects, inner, 300, 15_000);
    assert (s.calls + [Call(t, r)])[..|s.calls|] == s.calls;
  }

  lemma ConcludedPenalties(c: State, t: Token, p: Pass)
    requires PenaltiesRight(c)
    ensures PenaltiesRight(Concluded(c, t, p))
  {
    var f := Concluded(c, t, p);
    if f.effects != c.effects {
      OneMoreEffect(c, f, f.effects[|c.effects|]);
    }
  }

  lemma PassPenalties(s: State, p: Pass)
    requires PenaltiesRight(s) && s.phase.Trying?
    ensures PenaltiesRight(Iterate(s, p))
  {
    if MakesCall(s, p) {
      var t := p.token.value;
      ForwardedPenalties(Spun(s), t, p.reply);
      ConcludedPenalties(Forwarded(Spun(s), t, p.reply), t, p);
      IterateWithCall(s, p);
    } else if Iterate(s, p).effects != s.effects {
      OneMoreEffect(s, Iterate(s, p), Penalize(p.token.value.pool, p.token.value.index, 5_000));
    }
  }

  lemma LeavePenalties(s: State, e: Env)
    requires PenaltiesRight(s)
    ensures PenaltiesRight(Leave(s, e))
  {
    var r := Round(s.pool, s.calls, s.spins);
    assert (s.rounds + [r])[..|s.rounds|] == s.rounds;
  }

  lemma {:induction false} RunPenalties(s: State, e: Env, u: set<string>)
    requires Bounded(e, u) && PatternsIn(s.pool, u) && PenaltiesRight(s)
    ensures PenaltiesRight(Run(s, e, u))
    decreases |u - s.triedPools|, Rank(s)
  {
    match s.phase
    case Done =>
    case Leaving =>
      LeaveRanks(s, e, u);
      LeavePenalties(s, e);
      RunPenalties(Leave(s, e), e, u);
    case Trying =>
      if |s.calls| >= s.MaxAttempts() {
        RunPenalties(s.(phase := Leaving), e, u);
      } else {
        var p := e.passes(s.passes);
        IterateRanks(s, p);
        PassPenalties(s, p);
        RunPenalties(Iterate(s, p), e, u);
      }
  }

  /** No failure disables a key for good: every penalty of every request lies between 300
      milliseconds and 30 seconds, and all are below 15 seconds exactly when no stream broke
      off within any of its calls. */
  lemma PenaltiesAreTransient(pool: PoolInfo, e: Env, u: set<string>)
    requires Bounded(e, u) && PatternsIn(pool, u)
    ensures var end := Run(Start(pool, e), e, u);
            && Within(end.effects, 300, 30_000)
            && (Within(end.effects, 300, 15_000) <==> Unbroken(end.calls) && AllUnbroken(end.rounds))
  {
    RunPenalties(Start(pool, e), e, u);
  }

  // ----- What a success clears -----

  /** The penalties of a call end after it. */
  lemma {:induction false} ThrottlesCool(pool: string, keys: seq<int>, cool: seq<int>, before: seq<Effect>, tokens: seq<Token>, now: int, slot: nat)
    requires slot < |keys| == |cool|
    requires ApplyAll(pool, keys, cool, before, now)[slot] > now
    ensures ApplyAll(pool, keys, cool, before + Throttles(pool, tokens), now)[slot] > now
  {
    if tokens == [] {
      assert before + [] == before;
    } else {
      var front := Throttles(pool, tokens[..|tokens| - 1]);
      var last := Penalize(pool, tokens[|tokens| - 1].index, 5_000);
      ThrottlesCool(pool, keys, cool, before, tokens[..|tokens| - 1], now, slot);
      assert before + Throttles(pool, tokens) == (before + front) + [last];
      PenaltyCools(pool, keys, cool, before + front, last, now, slot);
    }
  }

  lemma PenaltyCools(pool: string, keys: seq<int>, cool: seq<int>, effects: seq<Effect>, f: Effect, now: int, slot: nat)
    requires slot < |keys| == |cool| && f.Penalize? && f.ms > 0
    requires ApplyAll(pool, keys, cool, effects, now)[slot] > now
    ensures ApplyAll(pool, keys, cool, effects + [f], now)[slot] > now
  {
    ApplyOneMore(pool, keys, cool, effects, f, now);
  }

  lemma ApplyOneMore(pool: string, keys: seq<int>, cool: seq<int>, effects: seq<Effect>, f: Effect, now: int)
    ensures ApplyAll(pool, keys, cool, effects + [f], now)
         == ApplyEffect(pool, keys, ApplyAll(pool, keys, cool, effects, now), f, now)
  {
    assert (effects + [f])[..|effects|] == effects;
  }

  /** The credential a call began with cools as soon as its stream has broken off. */
  lemma {:induction false} FirstKeyCools(pool: string, keys: seq<int>, cool: seq<int>, t: Token, switches: seq<Switch>, now: int)
    requires t.index < |keys| == |cool| && switches != []
    ensures ApplyAll(pool, keys, cool, InnerEffects(pool, t, switches), now)[t.index] > now
  {
    var front, last := switches[..|switches| - 1], switches[|switches| - 1];
    var inner, broken := InnerEffects(pool, t, front), Penalize(pool, Server(t, front).index, 30_000);
    if front != [] {
      FirstKeyCools(pool, keys, cool, t, front, now);
    }
    ApplyOneMore(pool, keys, cool, inner, broken, now);
    ThrottlesCool(pool, keys, cool, inner + [broken], last.throttled, now, t.index);
  }

  /** After a success the cooldowns of the credential in the slot acquired first are cleared,
      in the pool of the round, and no others. If its stream broke off it was cooling, and is
      free at once. That slot is the one of the credential that holds the call in the end
      exactly when the pool of the round served it with that number, which without a broken
      stream means that this pool served. */
  lemma SuccessClearsFirstSlot(s: State, p: Pass, keys: seq<int>, cool: seq<int>, now: int)
    requires s.phase.Trying? && MakesCall(s, p) && !p.goneAfter && Success(p.reply)
    requires p.token.value.index < |keys| == |cool|
    ensures var t, f, server := p.token.value, Iterate(s, p), Server(p.token.value, p.reply.switches);
            var inner := ApplyAll(s.pool.pattern, keys, cool, InnerEffects(s.pool.pattern, t, p.reply.switches), now);
            var after := ApplyAll(s.pool.pattern, keys, cool, Added(s.effects, f.effects), now);
            && (forall j :: 0 <= j < |keys| ==> after[j] == if keys[j] == keys[t.index] then 0 else inner[j])
            && (p.reply.switches != [] ==> inner[t.index] > now)
            && |f.effects| > |s.effects|
            && (f.effects[|f.effects| - 1] == Reset(server.pool, server.index) <==>
                  server.pool == s.pool.pattern && server.index == t.index)
            && (p.reply.switches == [] ==> (server.index == t.index && server.pool == t.pool))
  {
    var t := p.token.value;
    var inner := InnerEffects(s.pool.pattern, t, p.reply.switches);
    IterateWithCall(s, p);
    assert (s.effects + inner + [Reset(s.pool.pattern, t.index)])[|s.effects|..] == inner + [Reset(s.pool.pattern, t.index)];
    ApplyOneMore(s.pool.pattern, keys, cool, inner, Reset(s.pool.pattern, t.index), now);
    if p.reply.switches != [] {
      FirstKeyCools(s.pool.pattern, keys, cool, t, p.reply.switches, now);
    }
  }

  /** A whole request in which this happens: the stream of the first key breaks off, the
      second key of the same pool takes over and answers. The first key's 30 seconds are
      erased, and nothing is cleared for the second. */
  lemma BrokenKeyIsFreed(pool: PoolInfo, e: Env, u: set<string>, first: Token, second: Token)
    requires Bounded(e, u) && PatternsIn(pool, u)
    requires first.pool == second.pool == pool.pattern && first.index != second.index
    requires e.passes(0) == Pass(false, Some(first), false, Reply(200, false, false, false, false, [Switch([], Some(second))]), false)
    ensures var end := Run(Start(pool, e), e, u);
            && end.written == [Streamed(200)] && |end.calls| == 1
            && Server(end.calls[0].token, end.calls[0].reply.switches) == second
            && end.effects == [Penalize(pool.pattern, first.index, 30_000), Reset(pool.pattern, first.index)]
  {
    var s, p := Start(pool, e), e.passes(0);
    IterateWithCall(s, p);
    RunOnce(s, e, u);
    InnerOne(pool.pattern, first, second);
  }

  lemma InnerOne(pool: string, first: Token, second: Token)
    ensures InnerEffects(pool, first, [Switch([], Some(second))]) == [Penalize(pool, first.index, 30_000)]
  {
    var switches := [Switch([], Some(second))];
    assert switches[..0] == [];
  }

  // ----- Numbers across pools -----

  /** The numbers of the slots served in the first `k` passes, by whichever pool. */
  function Numbers(e: Env, k: nat): set<nat> {
    if k == 0 then {}
    else Numbers(e, k - 1) + (if e.passes(k - 1).token.Some? then {e.passes(k - 1).token.value.index} else {})
  }

  /** Calls fail, and their verdict is to go on. */
  ghost predicate Rotating(e: Env, x: seq<World>, n: nat)
    requires |x| >= n
  {
    forall k :: 0 <= k < n ==> Rotates(x[k].loop, e.passes(k))
  }

  /** One such pass. */
  lemma RotatingNumber(x: State, p: Pass)
    requires x.phase.Trying? && x.spins < x.MaxSpins() && Rotates(x, p)
    ensures var t, f := p.token.value, Iterate(x, p);
            && f.phase.Trying? && f.spins == x.spins + 1 && f.tried == x.tried + {t.index}
            && f.calls == (if t.index in x.tried then x.calls else x.calls + [Call(t, p.reply)])
  {
    if MakesCall(x, p) {
      RotatingPass(x, p);
    }
  }

  /** The slots tried are the numbers of the first `k` passes, each called once. */
  predicate NumbersTried(y: State, e: Env, k: nat) {
    y.phase.Trying? && y.spins == k && y.tried == Numbers(e, k) && |y.calls| == |Numbers(e, k)|
  }

  lemma NumberNoted(y: State, e: Env, k: nat)
    requires NumbersTried(y, e, k) && k < y.MaxSpins() && Rotates(y, e.passes(k))
    ensures NumbersTried(Iterate(y, e.passes(k)), e, k + 1) && Iterate(y, e.passes(k)).pool == y.pool
  {
    var p, numbers := e.passes(k), Numbers(e, k);
    RotatingNumber(y, p);
    StepKeepsPool(y, p);
    if p.token.value.index in numbers {
      assert numbers + {p.token.value.index} == numbers;
    }
  }

  lemma {:induction false} TriedAreNumbers(w: Ring, s: State, e: Env, x: seq<World>, k: nat, n: nat)
    requires Fresh(s) && IsTrace(w, s, e, x, n) && Rotating(e, x, n) && k <= n <= s.MaxSpins()
    ensures NumbersTried(x[k].loop, e, k) && x[k].loop.pool == s.pool
  {
    if k > 0 {
      TriedAreNumbers(w, s, e, x, k - 1, n);
      assert Rotates(x[k - 1].loop, e.passes(k - 1));
      NumberNoted(x[k - 1].loop, e, k - 1);
      assert LinkedAt(w, e, x, k - 1);
    }
  }

  /** Slots are remembered by number alone: while calls fail and rotate, a credential that is
      served gets called exactly when no pool of the chain has served one of its number
      before, and there are as many calls as numbers. */
  lemma CalledIffNumberIsNew(w: Ring, s: State, e: Env, x: seq<World>, k: nat, n: nat)
    requires Fresh(s) && IsTrace(w, s, e, x, n) && Rotating(e, x, n) && k < n <= s.MaxSpins()
    ensures var before, after, t := x[k].loop.calls, x[k + 1].loop.calls, e.passes(k).token.value;
            && after == (if t.index in Numbers(e, k) then before else before + [Call(t, e.passes(k).reply)])
            && |after| == |Numbers(e, k + 1)|
  {
    TriedAreNumbers(w, s, e, x, k, n);
    TriedAreNumbers(w, s, e, x, k + 1, n);
    assert Rotates(x[k].loop, e.passes(k)) && LinkedAt(w, e, x, k);
    RotatingNumber(x[k].loop, e.passes(k));
  }

  /** Passes that only ever meet a number tried before spin until the valve. */
  lemma {:induction false} SpinsOut(x: State, e: Env, u: set<string>, number: nat)
    requires Bounded(e, u) && PatternsIn(x.pool, u)
    requires x.phase.Trying? && |x.calls| < x.MaxAttempts() && number in x.tried && x.spins <= x.MaxSpins()
    requires forall k :: x.passes <= k <= x.passes + (x.MaxSpins() - x.spins) ==>
               !e.passes(k).goneBefore && e.passes(k).token.Some? && e.passes(k).token.value.index == number && !e.passes(k).throttled
    requires e.hasSync ==> Fallbacks(x.pool, x.triedPools, |x.rounds|, e) == {}
    ensures var end := Run(x, e, u);
            && end.calls == x.calls && end.spins == x.MaxSpins() + 1 && end.effects == x.effects
            && end.written == x.written + [Error(FinalStatus(x.lastStatus))]
    decreases x.MaxSpins() - x.spins
  {
    var next := Iterate(x, e.passes(x.passes));
    RunOnce(x, e, u);
    if x.spins < x.MaxSpins() {
      assert next == Spun(x);
      SpinsOut(next, e, u, number);
    } else {
      RunExhausted(next, e, u);
    }
  }

  /** A request that leaves a ready key uncalled: after one failed call every pass is served
      a key of a fallback pool that has the same number. It is never called; the safety
      valve ends the round, and the client gets the first failure. */
  lemma CascadedKeyIsNeverCalled(pool: PoolInfo, e: Env, u: set<string>, own: Token, other: Token)
    requires Bounded(e, u) && PatternsIn(pool, u) && pool.total >= 2
    requires own.pool == pool.pattern != other.pool && own.index == other.index
    requires e.passes(0).token == Some(own) && Rotates(Start(pool, e), e.passes(0))
    requires forall k :: 1 <= k <= 3 * Cap(pool.total) + 1 ==>
               !e.passes(k).goneBefore && e.passes(k).token == Some(other) && !e.passes(k).throttled
    requires e.hasSync ==> Fallbacks(pool, Start(pool, e).triedPools, 0, e) == {}
    ensures var end := Run(Start(pool, e), e, u);
            && end.calls == [Call(own, e.passes(0).reply)]
            && end.spins == 3 * Cap(pool.total) + 2
            && end.written == [Error(FinalStatus(RecStatus(e.passes(0).reply)))]
            && end.effects == Iterate(Start(pool, e), e.passes(0)).effects
  {
    var s, p := Start(pool, e), e.passes(0);
    RotatingPass(s, p);
    StepKeepsPool(s, p);
    RunOnce(s, e, u);
    EveryRequestIsAnswered(pool, e, u);
    SpinsOut(Iterate(s, p), e, u, own.index);
  }

  // A chain of pools that does so: of two keys the second is cooling, and behind them a
  // fallback pool has a single key, ready all the time.

  const DOWN := Reply(500, false, false, false, false, [])

  const TWO := PoolInfo("m", 2, Some(PoolInfo("n", 1, None)))

  const COOLDOWNS: seq<int> := [0, 3_600_000_000_000]

  function DownPass(k: nat): Pass {
    Pass(false, Some(if k == 0 then Token(0, 10, "openai", "m") else Token(0, 20, "openai", "n")), false, DOWN, false)
  }

  ghost function DownEnv(): Env {
    Env("m", (k: nat) => DownPass(k), false, (j: nat) => map[], (j: nat, p: string) => 0,
        (p: string) => "", (j: nat, found: set<PoolInfo>) => PickAny(found))
  }

  /** The two pools at pass `k`, after the penalty of pass 0; each has drawn a ticket in
      every pass that asked it. */
  function ChainAt(k: nat): seq<PoolChain.View> {
    var cool := if k == 0 then COOLDOWNS else ApplyAll("m", [10, 11], COOLDOWNS, [Penalize("m", 0, 3_000)], 0);
    [PoolChain.View(cool, k), PoolChain.View([0], if k == 0 then 0 else k - 1)]
  }

  lemma OneSlotServes(cool: int, ticket: nat, now: int)
    requires cool <= now
    ensures FirstReady([cool], ticket, now, 0) == 0
  {
    assert Probe(ticket, 0, 1) == 0;
  }

  lemma FallbackServes(own: PoolChain.View, other: PoolChain.View, now: int)
    requires own.cool != [] && AllCooling(own.cool, now) && |other.cool| == 1 && other.cool[0] <= now
    ensures PoolChain.Serve([own, other], now) == Some((1, 0))
  {
    OneSlotServes(other.cool[0], NextTicket(other.cursor), now);
    assert other.cool == [other.cool[0]];
    assert [own, other][1..] == [other];
  }

  lemma ChainServesToken(k: nat)
    requires k <= 7
    ensures PoolChain.Serve(ChainAt(k), k) == Some((if k == 0 then 0 else 1, DownPass(k).token.value.index))
  {
    if k == 0 {
      SmallMod(1, WORD);
      SmallMod(2, WORD);
      assert Probe(1, 0, 2) == 1 && Probe(1, 1, 2) == 0;
    } else {
      OneEffect("m", [10, 11], COOLDOWNS, [], Penalize("m", 0, 3_000), 0);
      assert [] + [Penalize("m", 0, 3_000)] == [Penalize("m", 0, 3_000)];
      FallbackServes(ChainAt(k)[0], ChainAt(k)[1], k);
    }
  }

  lemma FirstDownPass(s: State)
    requires s == Start(TWO, DownEnv())
    ensures Rotates(s, DownPass(0)) && Iterate(s, DownPass(0)).effects == [Penalize("m", 0, 3_000)]
  {
    assert MakesCall(s, DownPass(0)) && VerdictOn(s, DownPass(0)) == Rotate(3_000);
    RotatingPass(s, DownPass(0));
    assert [] + [Penalize("m", 0, 3_000)] == [Penalize("m", 0, 3_000)];
  }

  lemma DownIsBounded()
    ensures Bounded(DownEnv(), {"m", "n"}) && PatternsIn(TWO, {"m", "n"})
    ensures !DownEnv().hasSync && forall k :: DownEnv().passes(k) == DownPass(k)
  {
  }

  lemma DownRequest(e: Env)
    requires e == DownEnv() && Bounded(e, {"m", "n"}) && !e.hasSync && forall k :: e.passes(k) == DownPass(k)
    requires PatternsIn(TWO, {"m", "n"})
    ensures var end := Run(Start(TWO, e), e, {"m", "n"});
            && end.calls == [Call(DownPass(0).token.value, DOWN)] && end.spins == 8
            && end.effects == [Penalize("m", 0, 3_000)] && end.written == [Error(500)]
  {
    FirstDownPass(Start(TWO, e));
    CascadedKeyIsNeverCalled(TWO, e, {"m", "n"}, DownPass(0).token.value, DownPass(1).token.value);
  }

  /** What these pools serve, pass by pass, makes such a request. */
  lemma CascadeHappens()
    ensures forall k :: 0 <= k <= 7 ==>
              PoolChain.Serve(ChainAt(k), k) == Some((if k == 0 then 0 else 1, DownPass(k).token.value.index))
    ensures Bounded(DownEnv(), {"m", "n"}) && forall k :: DownEnv().passes(k) == DownPass(k)
    ensures var end := Run(Start(TWO, DownEnv()), DownEnv(), {"m", "n"});
            && end.calls == [Call(DownPass(0).token.value, DOWN)] && end.spins == 8
            && end.effects == [Penalize("m", 0, 3_000)] && end.written == [Error(500)]
  {
    forall k | 0 <= k <= 7
      ensures PoolChain.Serve(ChainAt(k), k) == Some((if k == 0 then 0 else 1, DownPass(k).token.value.index))
    {
      ChainServesToken(k);
    }
    DownIsBounded();
    DownRequest(DownEnv());
  }

  // ----- A request that gives up early -----

  predicate BadRequest(p: Pass, provider: string) {
    && p.token.Some? && p.token.value.provider == provider
    && RecStatus(p.reply) == 400 && !QuotaOrAuth(p.token.value, p.reply)
  }

  lemma CountOne(provider: string)
    ensures Count400([Attempt(provider, 400)], provider) == 1
    ensures Count400([Attempt(provider, 400), Attempt(provider, 400)], provider) == 2
  {
    assert [Attempt(provider, 400)][..0] == [];
    assert [Attempt(provider, 400), Attempt(provider, 400)][..1] == [Attempt(provider, 400)];
  }

  lemma FirstBadRequest(w: Ring, s: State, e: Env, x: seq<World>, n: nat, provider: string)
    requires Fresh(s) && Alone(w, s, e, x, n) && 0 < n <= |KeySet(w)| && n <= s.MaxAttempts()
    requires BadRequest(e.passes(0), provider)
    ensures Going(x[1]) && x[1].loop.attempts == [Attempt(provider, 400)]
  {
    AllOnTrack(w, s, e, x, 0, 1, n);
    CallsAt(w, s, e, x, 0, 1, n);
    assert LinkedAt(w, e, x, 0);
    CountOne(provider);
    assert s.attempts + [Attempt(provider, 400)] == [Attempt(provider, 400)];
    RotatingPass(s, e.passes(0));
  }

  lemma SecondBadRequest(w: Ring, s: State, e: Env, x: seq<World>, n: nat, provider: string)
    requires Fresh(s) && Alone(w, s, e, x, n) && 1 < n <= |KeySet(w)| && n <= s.MaxAttempts()
    requires BadRequest(e.passes(1), provider)
    requires Going(x[1]) && x[1].loop.attempts == [Attempt(provider, 400)]
    ensures !Going(x[2])
  {
    AllOnTrack(w, s, e, x, 1, 2, n);
    CallsAt(w, s, e, x, 1, 2, n);
    assert LinkedAt(w, e, x, 1);
    CountOne(provider);
    assert [Attempt(provider, 400)] + [Attempt(provider, 400)] == [Attempt(provider, 400), Attempt(provider, 400)];
    GivingUp(x[1].loop, e.passes(1));
  }

  /** Two bad requests in a row from one provider: the other keys of the pool, however
      many there are, are never called. */
  lemma BadRequestsLeaveKeysUntried(w: Ring, pool: PoolInfo, e: Env, u: set<string>, x: seq<World>, provider: string)
    requires Exhausting(w, pool, e, u, x) && pool.total >= 2
    requires BadRequest(e.passes(0), provider) && BadRequest(e.passes(1), provider)
    ensures |Run(Start(pool, e), e, u).calls| == 2
  {
    var s, n := Start(pool, e), Cap(pool.total);
    ExhaustingStart(w, pool, e, u, x);
    FirstBadRequest(w, s, e, x, n, provider);
    SecondBadRequest(w, s, e, x, n, provider);
    RoundGivenUp(w, s, e, u, x, 1, n);
  }

  function Extended(w: Ring, e: Env, x: seq<World>): seq<World>
    requires x != []
  {
    var last := x[|x| - 1];
    var next := Iterate(last.loop, e.passes(|x| - 1));
    x + [World(next, ApplyAll(last.loop.pool.pattern, w.keys, last.cool, Added(last.loop.effects, next.effects), w.clock(|x| - 1)))]
  }

  lemma ExtendedIsTrace(w: Ring, s: State, e: Env, x: seq<World>, n: nat)
    requires IsTrace(w, s, e, x, n)
    ensures IsTrace(w, s, e, Extended(w, e, x), n + 1) && Extended(w, e, x)[..n + 1] == x
  {
    var y := Extended(w, e, x);
    forall k | 0 <= k < n + 1
      ensures LinkedAt(w, e, y, k)
    {
      if k < n {
        assert LinkedAt(w, e, x, k);
      }
    }
  }

  // Such a setting: three keys, and an upstream that finds every request bad.

  const BAD := Reply(400, false, false, false, false, [])

  const THREE := PoolInfo("m", 3, None)

  function BadPass(k: nat): Pass {
    Pass(false, Some(Token((k + 1) % 3, (k + 1) % 3, "openai", "m")), false, BAD, false)
  }

  ghost function PickAny(found: set<PoolInfo>): (p: PoolInfo)
    ensures found != {} ==> p in found
  {
    if found == {} then THREE
    else
      var p :| p in found;
      p
  }

  ghost function BadEnv(): Env {
    Env("m", (k: nat) => BadPass(k), false, (j: nat) => map[], (j: nat, p: string) => 0,
        (p: string) => "", (j: nat, found: set<PoolInfo>) => PickAny(found))
  }

  function ThreeKeys(): Ring {
    Ring([0, 1, 2], [0, 0, 0], 0, (k: nat) => k)
  }

  /** The ring serves the slot of its ticket while that is ready. */
  lemma ServesTicket(cool: seq<int>, k: nat, now: int)
    requires |cool| == 3 && k < 2 && cool[k + 1] <= now
    ensures Serves(cool, TicketAt(ThreeKeys(), k), now) == k + 1
  {
    SmallMod(k + 1, WORD);
    SmallMod(k + 1, 3);
    assert Probe(k + 1, 0, 3) == k + 1;
  }

  lemma BadPassIsLone(x: World, k: nat)
    requires k < 2 && x.loop.pool == THREE && |x.cool| == 3 && x.cool[k + 1] <= k
    ensures LonePass(ThreeKeys(), BadEnv(), k, x)
  {
    ServesTicket(x.cool, k, k);
  }

  lemma FirstBadPass(x: World, y: World)
    requires x == World(Start(THREE, BadEnv()), [0, 0, 0])
    requires LinkedAt(ThreeKeys(), BadEnv(), [x, y], 0)
    ensures Going(y) && y.loop.attempts == [Attempt("openai", 400)] && y.loop.pool == THREE
    ensures y.loop.tried == {1} && y.loop.spins == 1 && |y.cool| == 3 && y.cool[2] == 0
    ensures PenaltyMs(x.loop, BadPass(0)) == 5_000
  {
    var s, p := x.loop, BadPass(0);
    CountOne("openai");
    assert s.attempts + [Attempt("openai", 400)] == [Attempt("openai", 400)];
    RotatingPass(s, p);
    OneEffect("m", [0, 1, 2], x.cool, s.effects, Penalize("m", 1, 5_000), 0);
  }

  lemma SecondBadPass(x: World, y: World)
    requires Going(x) && x.loop.attempts == [Attempt("openai", 400)] && x.loop.pool == THREE
    requires x.loop.tried == {1} && x.loop.spins == 1
    requires y.loop == Iterate(x.loop, BadPass(1))
    ensures !Going(y)
  {
    CountOne("openai");
    assert [Attempt("openai", 400)] + [Attempt("openai", 400)] == [Attempt("openai", 400), Attempt("openai", 400)];
    GivingUp(x.loop, BadPass(1));
  }

  lemma BadTrace() returns (x: seq<World>)
    ensures IsTrace(ThreeKeys(), Start(THREE, BadEnv()), BadEnv(), x, 3)
  {
    var w, e, s := ThreeKeys(), BadEnv(), Start(THREE, BadEnv());
    x := [World(s, w.cool)];
    ExtendedIsTrace(w, s, e, x, 0);
    x := Extended(w, e, x);
    ExtendedIsTrace(w, s, e, x, 1);
    x := Extended(w, e, x);
    ExtendedIsTrace(w, s, e, x, 2);
    x := Extended(w, e, x);
  }

  lemma BadTraceStops(x: seq<World>)
    requires IsTrace(ThreeKeys(), Start(THREE, BadEnv()), BadEnv(), x, 3)
    ensures !Going(x[2]) && x[1].loop.pool == THREE && |x[1].cool| == 3 && x[1].cool[2] == 0
    ensures PenaltyMs(x[0].loop, BadPass(0)) == 5_000
  {
    assert LinkedAt(ThreeKeys(), BadEnv(), x, 0) && LinkedAt(ThreeKeys(), BadEnv(), x, 1);
    assert LinkedAt(ThreeKeys(), BadEnv(), [x[0], x[1]], 0);
    FirstBadPass(x[0], x[1]);
    SecondBadPass(x[1], x[2]);
  }

  lemma BadTracePasses(x: seq<World>)
    requires IsTrace(ThreeKeys(), Start(THREE, BadEnv()), BadEnv(), x, 3)
    ensures !Going(x[2])
    ensures LonePass(ThreeKeys(), BadEnv(), 0, x[0]) && LonePass(ThreeKeys(), BadEnv(), 1, x[1])
    ensures Lasts(ThreeKeys(), BadEnv(), 0, 1, x[0])
  {
    BadTraceStops(x);
    BadPassIsLone(x[0], 0);
    BadPassIsLone(x[1], 1);
  }

  lemma BadTraceIsAlone(x: seq<World>)
    requires IsTrace(ThreeKeys(), Start(THREE, BadEnv()), BadEnv(), x, 3)
    ensures Alone(ThreeKeys(), Start(THREE, BadEnv()), BadEnv(), x, 3)
  {
    BadTracePasses(x);
    AloneForTwo(ThreeKeys(), Start(THREE, BadEnv()), BadEnv(), x);
  }

  lemma AloneForTwo(w: Ring, s: State, e: Env, x: seq<World>)
    requires IsTrace(w, s, e, x, 3) && !Going(x[2])
    requires |w.keys| == |w.cool| == s.pool.total > 0 && w.clock(0) < MAX_INT64
    requires forall j :: 0 <= j < |w.cool| ==> w.cool[j] <= w.clock(0)
    requires LonePass(w, e, 0, x[0]) && LonePass(w, e, 1, x[1]) && Lasts(w, e, 0, 1, x[0])
    ensures Alone(w, s, e, x, 3)
  {
  }

  lemma BadRequestsHappen() returns (x: seq<World>)
    ensures Exhausting(ThreeKeys(), THREE, BadEnv(), {"m"}, x)
    ensures BadRequest(BadEnv().passes(0), "openai") && BadRequest(BadEnv().passes(1), "openai")
    ensures |Run(Start(THREE, BadEnv()), BadEnv(), {"m"}).calls| == 2 < THREE.total
  {
    x := BadTrace();
    BadTraceIsAlone(x);
    assert Exhausting(ThreeKeys(), THREE, BadEnv(), {"m"}, x);
    BadRequestsLeaveKeysUntried(ThreeKeys(), THREE, BadEnv(), {"m"}, x, "openai");
  }

  // ----- The handler -----

  /** The local variables of the loop. */
  class RetryLoop {
    const e: Env
    var pool: PoolInfo
    var triedPools: set<string>
    var triedIndices: set<nat>
    var triedCount: nat
    var maxAttempts: nat
    var maxSpins: nat
    var spins: nat
    var passes: nat
    var jumps: nat
    var attempts: seq<Attempt>
    var lastStatus: int
    var effects: seq<Effect>
    var written: seq<Written>
    ghost var state: State

    ghost predicate Valid()
      reads this
    {
      && pool == state.pool && triedPools == state.triedPools
      && triedIndices == state.tried && triedCount == |state.calls| && spins == state.spins
      && passes == state.passes && jumps == |state.rounds| && attempts == state.attempts && lastStatus == state.lastStatus
      && effects == state.effects && written == state.written
      && maxAttempts == state.MaxAttempts() && maxSpins == state.MaxSpins()
    }

    constructor (pool: PoolInfo, e: Env)
      ensures Valid() && state == Start(pool, e) && this.e == e
    {
      this.e, this.pool := e, pool;
      triedPools := {pool.pattern} + (if e.requestedModel != "" then {e.requestedModel} else {});
      triedIndices, triedCount, spins, passes, jumps := {}, 0, 0, 0, 0;
      attempts, lastStatus, effects, written := [], 0, [], [];
      maxAttempts, maxSpins := Cap(pool.total), 3 * Cap(pool.total) + 1;
      state := Start(pool, e);
    }

    /** A failed call: note it, penalize, rotate or give up. */
    method NoteFailure(t: Token, r: Reply) returns (leave: bool)
      requires Valid() && state.phase.Trying?
      modifies this
      ensures Valid() && state == Failed(old(state), t, r)
      ensures leave <==> state.phase.Leaving?
    {
      attempts := attempts + [Attempt(t.provider, RecStatus(r))];
      lastStatus := RecStatus(r);
      var verdict := Judge(attempts, t, r, pool.total == 1);
      match verdict {
        case Rotate(ms) => effects := effects + [Penalize(t.pool, t.index, ms)]; leave := false;
        case AbortPenalized(ms) => effects := effects + [Penalize(t.pool, t.index, ms)]; leave := true;
        case Abort => leave := true;
      }
      state := Failed(state, t, r);
    }

    /** One call and what follows it. */
    method TryCredential(t: Token, p: Pass) returns (over: Phase)
      requires Valid() && state.phase.Trying? && t.index !in triedIndices
      modifies this
      ensures Valid() && state == Concluded(Forwarded(old(state), t, p.reply), t, p)
      ensures over == state.phase
    {
      Forward(t, p.reply);
      ghost var c := state;
      if p.goneAfter {
        if written == [] {
          written := [Error(504)];
        }
        over := Done;
        state := Concluded(c, t, p);
      } else if Success(p.reply) {
        effects := effects + [Reset(pool.pattern, t.index)];
        over := Done;
        state := Concluded(c, t, p);
      } else {
        var leave := NoteFailure(t, p.reply);
        over := if leave then Leaving else Trying;
      }
    }

    /** The call itself, with what it writes and penalizes. */
    method Forward(t: Token, r: Reply)
      requires Valid() && t.index !in triedIndices
      modifies this
      ensures Valid() && state == Forwarded(old(state), t, r)
    {
      triedIndices, triedCount := triedIndices + {t.index}, triedCount + 1;
      if Success(r) {
        written := written + [Streamed(r.status)];
      }
      effects := effects + InnerEffects(pool.pattern, t, r.switches);
      state := Forwarded(state, t, r);
    }

    /** One pass of the loop. */
    method TryOnce() returns (over: Phase)
      requires Valid() && state.phase.Trying?
      modifies this
      ensures Valid() && state == Iterate(old(state), e.passes(old(passes)))
      ensures over == state.phase
    {
      var p := e.passes(passes);
      ghost var s := state;
      over := Trying;
      passes := passes + 1;
      if p.goneBefore {
        written, over := written + [Error(504)], Done;
        state := Iterate(s, p);
        return;
      }
      spins := spins + 1;
      if spins > maxSpins {
        over := Leaving;
        state := Iterate(s, p);
        return;
      }
      if p.token.None? {
        written, over := written + [Error(503)], Done;
        state := Iterate(s, p);
        return;
      }
      var t := p.token.value;
      if t.provider == "gemini" && p.throttled {
        effects := effects + [Penalize(t.pool, t.index, 5_000)];
        state := Iterate(s, p);
      } else if t.index in triedIndices {
        state := Iterate(s, p);
      } else {
        state := Spun(s);
        over := TryCredential(t, p);
        IterateWithCall(s, p);
      }
    }

    /** No pool is left: the error. */
    method GiveError()
      requires Valid()
      modifies this
      ensures Valid() && state == GaveUp(old(state))
    {
      written := written + [Error(FinalStatus(lastStatus))];
      state := GaveUp(state);
    }

    /** The counters a new pool starts with. */
    method ResetCounters(next: PoolInfo)
      modifies this`triedIndices, this`triedCount, this`spins, this`maxAttempts, this`maxSpins
      ensures triedIndices == {} && triedCount == 0 && spins == 0
      ensures maxAttempts == Cap(next.total) && maxSpins == 3 * Cap(next.total) + 1
    {
      triedIndices, triedCount, spins := {}, 0, 0;
      maxAttempts := Cap(next.total);
      maxSpins := 3 * maxAttempts + 1;
    }

    /** On to another pool, with fresh counters. */
    method SwitchTo(next: PoolInfo)
      requires Valid()
      modifies this
      ensures Valid() && state == Jumped(old(state), next)
    {
      ghost var s := state;
      pool, triedPools := next, triedPools + {next.pattern};
      ResetCounters(next);
      jumps := jumps + 1;
      state := Jumped(s, next);
      assert |state.rounds| == |s.rounds| + 1;
    }

    /** The way out of the loop: another pool, or the error. */
    method FallBack() returns (found: bool)
      requires Valid() && state.phase.Leaving?
      modifies this
      ensures Valid() && state == Leave(old(state), e)
      ensures state.phase == (if found then Trying else Done)
    {
      var pools := if e.hasSync then Fallbacks(pool, triedPools, jumps, e) else {};
      if pools == {} {
        GiveError();
        return false;
      }
      SwitchTo(e.pick(jumps, pools));
      return true;
    }

    /** The loop over the credentials of one pool. */
    method TryPool(ghost u: set<string>) returns (answered: bool)
      requires Valid() && state.phase.Trying? && Bounded(e, u) && PatternsIn(state.pool, u)
      modifies this
      ensures Valid() && PatternsIn(state.pool, u) && state.triedPools == old(state.triedPools)
      ensures Run(state, e, u) == Run(old(state), e, u)
      ensures state.phase == (if answered then Done else Leaving)
    {
      var over: Phase := Trying;
      while triedCount < maxAttempts && over == Trying
        invariant Valid() && over == state.phase
        invariant PatternsIn(state.pool, u) && state.triedPools == old(state.triedPools)
        invariant Run(state, e, u) == Run(old(state), e, u)
        decreases Rank(state)
      {
        IterateRanks(state, e.passes(passes));
        RunOnce(state, e, u);
        over := TryOnce();
      }
      if over == Trying {
        over := Leaving;
        state := state.(phase := Leaving);
      }
      answered := over == Done;
    }

    /** `executeWithRetry`. */
    method Execute(ghost u: set<string>)
      requires Valid() && state == Start(pool, e) && Bounded(e, u) && PatternsIn(pool, u)
      modifies this
      ensures Valid() && state == Run(Start(old(pool), e), e, u)
    {
      ghost var first := state;
      var running := true;
      while running
        invariant Valid() && PatternsIn(state.pool, u)
        invariant Run(state, e, u) == Run(first, e, u)
        invariant state.phase == (if running then Trying else Done)
        decreases |u - state.triedPools|, running
      {
        var answered := TryPool(u);
        if answered {
          running := false;
        } else {
          LeaveRanks(state, e, u);
          running := FallBack();
        }
      }
    }
  }
}
