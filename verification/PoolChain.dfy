/** The pools of internal/credentials/pool.go as objects: acquiring along the chain of
    fallback pools, penalties, resets and the count of healthy credentials. */
module PoolChain {
  import opened Text
  import opened Pool

  /** What an acquire sees of one pool. */
  datatype View = View(cool: seq<int>, cursor: nat)

  // ----- The chain -----

  /** How many pools an acquire can look at: a pool without credentials ends the search. */
  function Reach(views: seq<View>): (n: nat)
    ensures n <= |views|
    ensures forall i :: 0 <= i < n ==> views[i].cool != []
    ensures n < |views| ==> views[n].cool == []
  {
    if views == [] || views[0].cool == [] then 0 else 1 + Reach(views[1..])
  }

  /** Which pool of the chain serves, and with which slot. */
  function Serve(views: seq<View>, now: int): Option<(nat, nat)> {
    if views == [] || views[0].cool == [] then None
    else
      var slot := FirstReady(views[0].cool, NextTicket(views[0].cursor), now, 0);
      if slot != -1 then Some((0, slot))
      else
        match Serve(views[1..], now)
        case None => None
        case Some((i, s)) => Some((i + 1, s))
  }

  /** The pools that draw a ticket: those before the one that serves, and that one. */
  function Asked(views: seq<View>, now: int): nat {
    match Serve(views, now)
    case None => Reach(views)
    case Some((i, s)) => i + 1
  }

  lemma ServeStep(v: View, rest: seq<View>, now: int)
    requires v.cool != []
    ensures var slot := FirstReady(v.cool, NextTicket(v.cursor), now, 0);
            && (slot != -1 ==> Serve([v] + rest, now) == Some((0, slot)) && Asked([v] + rest, now) == 1)
            && (slot == -1 ==> Asked([v] + rest, now) == 1 + Asked(rest, now))
            && (slot == -1 && Serve(rest, now).None? ==> Serve([v] + rest, now).None?)
            && (slot == -1 && Serve(rest, now).Some? ==>
                  Serve([v] + rest, now) == Some((Serve(rest, now).value.0 + 1, Serve(rest, now).value.1)))
  {
    assert ([v] + rest)[1..] == rest;
  }

  ghost predicate EveryScanCovers(views: seq<View>) {
    forall i :: 0 <= i < |views| && views[i].cool != [] ==> ScanIsComplete(views[i])
  }

  predicate ScanIsComplete(v: View)
    requires v.cool != []
  {
    && v.cursor < WORD && |v.cool| <= WORD
    && (NextTicket(v.cursor) + |v.cool| <= WORD || WORD % |v.cool| == 0)
  }

  ghost predicate Dry(views: seq<View>, n: nat, now: int)
    requires n <= |views|
  {
    forall i :: 0 <= i < n ==> AllCooling(views[i].cool, now)
  }

  lemma DryFront(views: seq<View>, n: nat, now: int)
    requires 0 < n <= |views|
    ensures Dry(views, n, now) <==> AllCooling(views[0].cool, now) && Dry(views[1..], n - 1, now)
  {
    if AllCooling(views[0].cool, now) && Dry(views[1..], n - 1, now) {
      forall i | 0 <= i < n
        ensures AllCooling(views[i].cool, now)
      {
        if i > 0 {
          assert views[i] == views[1..][i - 1];
        }
      }
    }
    if Dry(views, n, now) {
      forall i | 0 <= i < n - 1
        ensures AllCooling(views[1..][i].cool, now)
      {
        assert views[1..][i] == views[i + 1];
      }
    }
  }

  /** Acquiring fails exactly when every credential of every pool within reach is cooling. */
  lemma {:induction false} ServesUnlessDry(views: seq<View>, now: int)
    requires EveryScanCovers(views)
    ensures Serve(views, now).None? <==> Dry(views, Reach(views), now)
  {
    if views != [] && views[0].cool != [] {
      assert ScanIsComplete(views[0]);
      ScanFindsReady(views[0].cool, NextTicket(views[0].cursor), now);
      forall i | 0 <= i < |views[1..]| && views[1..][i].cool != []
        ensures ScanIsComplete(views[1..][i])
      {
        assert views[1..][i] == views[i + 1];
      }
      ServesUnlessDry(views[1..], now);
      DryFront(views, Reach(views), now);
    }
  }

  /** The pool that serves is the first of the chain with a ready credential, and serves a
      ready one. */
  lemma {:induction false} ServesFirstReady(views: seq<View>, now: int)
    requires EveryScanCovers(views) && Serve(views, now).Some?
    ensures var (i, s) := Serve(views, now).value;
            && i < Reach(views) && s < |views[i].cool| && views[i].cool[s] <= now
            && Dry(views, i, now)
  {
    assert ScanIsComplete(views[0]);
    ScanFindsReady(views[0].cool, NextTicket(views[0].cursor), now);
    var (i, s) := Serve(views, now).value;
    if i > 0 {
      forall k | 0 <= k < |views[1..]| && views[1..][k].cool != []
        ensures ScanIsComplete(views[1..][k])
      {
        assert views[1..][k] == views[k + 1];
      }
      ServesFirstReady(views[1..], now);
      DryFront(views, i, now);
    }
  }

  /** Which pool and slot the safety valve takes. */
  function Soonest(views: seq<View>): Option<(nat, nat)> {
    if views == [] || views[0].cool == [] then None
    else
      var slot := Least(views[0].cool, |views[0].cool|);
      if slot != -1 then Some((0, slot))
      else
        match Soonest(views[1..])
        case None => None
        case Some((i, s)) => Some((i + 1, s))
  }

  /** With cooldowns that are instants the safety valve finds a credential in any pool that
      has one, no later than the others, and a ready one if the scan missed it. */
  lemma SoonestIsReadyIfAny(views: seq<View>, now: int)
    requires views != [] && views[0].cool != []
    requires forall j :: 0 <= j < |views[0].cool| ==> views[0].cool[j] < MAX_INT64
    ensures Soonest(views).Some?
    ensures var (i, s) := Soonest(views).value;
            && i == 0 && s < |views[0].cool|
            && (forall j :: 0 <= j < |views[0].cool| ==> views[0].cool[s] <= views[0].cool[j])
            && (views[0].cool[s] <= now <==> !AllCooling(views[0].cool, now))
  {
    assert Least(views[0].cool, |views[0].cool|) != -1 by {
      assert views[0].cool[0] < MAX_INT64;
    }
  }

  // ----- Counting the healthy -----

  /** The identifiers of the credentials off cooldown in the first `k` slots. */
  function HealthyIds(ids: seq<int>, cool: seq<int>, now: int, k: nat): set<int>
    requires k <= |ids| == |cool|
  {
    set j | 0 <= j < k && cool[j] <= now :: ids[j]
  }

  // ----- The objects -----

  class RuntimeCredential {
    const id: int
    const provider: string
    const weight: int
    var cooldownUntil: int

    constructor (id: int, provider: string, weight: int)
      ensures this.id == id && this.provider == provider && this.weight == weight && cooldownUntil == 0
    {
      this.id, this.provider, this.weight, cooldownUntil := id, provider, weight, 0;
    }
  }

  datatype AcquireResult = AcquireResult(index: nat, fromPool: BalancedChannelPool)

  class BalancedChannelPool {
    const modelPattern: string
    const credentials: seq<RuntimeCredential>
    const totalCount: nat
    const fallbackPool: BalancedChannelPool?
    var cursor: nat
    ghost const chain: seq<BalancedChannelPool>

    /** The fallback pools form a chain that ends. */
    ghost predicate Valid()
      reads this, chain
    {
      && |chain| > 0 && chain[0] == this
      && (forall i :: 0 <= i < |chain| ==> LinkedFrom(i))
    }

    ghost predicate LinkedFrom(i: nat)
      requires i < |chain|
      reads chain
    {
      chain[i].Linked(chain[i..])
    }

    ghost predicate Linked(rest: seq<BalancedChannelPool>)
      requires |rest| > 0
      reads this
    {
      && chain == rest && cursor < WORD && totalCount == |credentials| <= WORD
      && fallbackPool == (if |rest| > 1 then rest[1] else null)
    }

    function Cooldowns(): (r: seq<int>)
      reads credentials
      ensures |r| == |credentials|
    {
      seq(|credentials|, j requires 0 <= j < |credentials| reads credentials => credentials[j].cooldownUntil)
    }

    ghost function Look(): View
      reads this, credentials
    {
      View(Cooldowns(), cursor)
    }

    /** The ring: every credential as often as it weighs. */
    constructor (model: string, creds: seq<RuntimeCredential>, fallback: BalancedChannelPool?)
      requires fallback == null || fallback.Valid()
      requires |Expand(creds, (c: RuntimeCredential) => c.weight)| <= WORD
      ensures Valid() && modelPattern == model && fallbackPool == fallback && cursor == 0
      ensures credentials == Expand(creds, (c: RuntimeCredential) => c.weight)
      ensures chain == [this] + (if fallback == null then [] else fallback.chain)
    {
      ghost var weigh := (c: RuntimeCredential) => c.weight;
      var ring: seq<RuntimeCredential> := [];
      for k := 0 to |creds|
        invariant ring == Expand(creds[..k], weigh)
      {
        var w := if creds[k].weight < 1 then 1 else creds[k].weight;
        ghost var before := ring;
        for i := 0 to w
          invariant ring == before + Repeat(creds[k], i)
        {
          ring := ring + [creds[k]];
        }
        assert creds[..k + 1][..k] == creds[..k];
      }
      assert creds[..|creds|] == creds;
      modelPattern, credentials, totalCount, cursor := model, ring, |ring|, 0;
      fallbackPool := fallback;
      chain := [this] + (if fallback == null then [] else fallback.chain);
      new;
      assert fallback != null ==> chain[1..] == fallback.chain;
      forall i | 0 <= i < |chain|
        ensures LinkedFrom(i)
      {
        if i > 0 {
          assert fallback.LinkedFrom(i - 1);
          assert chain[i] == fallback.chain[i - 1];
          assert chain[i..] == fallback.chain[i - 1..];
        }
      }
    }

    /** What an acquire sees along the chain. */
    ghost function Views(): seq<View>
      reads chain, KeysOfPools(chain)
    {
      ViewsOf(chain)
    }

    lemma FallbackIsTail()
      requires Valid()
      ensures fallbackPool == null <==> |chain| == 1
      ensures fallbackPool != null ==>
                fallbackPool.Valid() && fallbackPool.chain == chain[1..] && fallbackPool.Views() == Views()[1..]
      ensures this !in chain[1..] && Linked(chain)
    {
      assert LinkedFrom(0) && chain[0..] == chain;
      forall i | 0 < i < |chain|
        ensures chain[i] != this
      {
        assert LinkedFrom(i);
      }
      if fallbackPool != null {
        assert LinkedFrom(1);
        forall i | 0 <= i < |fallbackPool.chain|
          ensures fallbackPool.LinkedFrom(i)
        {
          assert LinkedFrom(i + 1);
          assert chain[1..][i..] == chain[i + 1..];
        }
      }
    }

    lemma LinkUp()
      requires |chain| > 0 && chain[0] == this && Linked(chain)
      requires fallbackPool != null ==> fallbackPool.Valid() && fallbackPool.chain == chain[1..]
      ensures Valid()
    {
      forall i | 0 <= i < |chain|
        ensures LinkedFrom(i)
      {
        if i > 0 {
          assert fallbackPool.LinkedFrom(i - 1);
          assert chain[i] == fallbackPool.chain[i - 1];
          assert chain[i..] == fallbackPool.chain[i - 1..];
        } else {
          assert chain[0..] == chain;
        }
      }
    }

    /** One scan of this pool's own ring. */
    method ScanRing(now: int) returns (slot: int)
      requires totalCount == |credentials|
      modifies this`cursor
      ensures cursor == NextTicket(old(cursor))
      ensures slot == FirstReady(Cooldowns(), cursor, now, 0)
    {
      cursor := NextTicket(cursor);
      ghost var cool := Cooldowns();
      for i := 0 to totalCount
        invariant FirstReady(cool, cursor, now, 0) == FirstReady(cool, cursor, now, i)
      {
        slot := Probe(cursor, i, totalCount);
        if credentials[slot].cooldownUntil <= now {
          assert cool[slot] <= now;
          return;
        }
      }
      slot := -1;
    }

    /** The scan leaves the pools behind this one as they were. */
    method ScanFirst(now: int) returns (slot: int)
      requires Valid()
      modifies this`cursor
      ensures cursor == NextTicket(old(cursor))
      ensures slot == old(FirstReady(Cooldowns(), NextTicket(cursor), now, 0))
      ensures Valid() && ViewsOf(chain[1..]) == old(ViewsOf(chain[1..]))
    {
      FallbackIsTail();
      label before:
      slot := ScanRing(now);
      ViewsStay@before(chain[1..]);
      FallbackStays@before();
      LinkUp();
    }

    twostate lemma FallbackStays()
      requires fallbackPool != null ==> old(fallbackPool.Valid())
      requires fallbackPool != null ==> unchanged(fallbackPool, fallbackPool.chain)
      ensures fallbackPool != null ==> fallbackPool.Valid()
    {
    }

    /** What this pool gives, and what it leaves to the pools behind it. */
    lemma AskedStep(now: int)
      requires Valid()
      ensures totalCount == |Cooldowns()| && this !in chain[1..]
      ensures totalCount == 0 ==> Serve(Views(), now).None? && Asked(Views(), now) == 0
      ensures totalCount > 0 ==>
                var slot, rest := FirstReady(Cooldowns(), NextTicket(cursor), now, 0), ViewsOf(chain[1..]);
                && Asked(Views(), now) == 1 + (if slot != -1 then 0 else Asked(rest, now))
                && Serve(Views(), now) == (if slot != -1 then Some((0, slot))
                                           else match Serve(rest, now)
                                                case None => None
                                                case Some((i, s)) => Some((i + 1, s)))
    {
      FallbackIsTail();
      assert Views() == [Look()] + ViewsOf(chain[1..]);
      if totalCount > 0 {
        ServeStep(Look(), ViewsOf(chain[1..]), now);
      }
    }

    /** The same from the fallback pool on. */
    method AskFallback(now: int) returns (r: Option<AcquireResult>)
      requires Valid()
      modifies chain[1..]
      ensures Valid()
      ensures match old(Serve(ViewsOf(chain[1..]), now))
              case None => r.None?
              case Some((i, s)) => i + 1 < |chain| && r == Some(AcquireResult(s, chain[i + 1]))
      ensures Drew(chain[1..], old(Asked(ViewsOf(chain[1..]), now)))
      decreases |chain|, 0
    {
      FallbackIsTail();
      r := None;
      if fallbackPool != null {
        r := fallbackPool.AcquireActiveToken(now);
        LinkUp();
      }
    }

    /** The first ready credential along the chain, or none; every pool asked draws a
        ticket, and no other state changes. */
    method AcquireActiveToken(now: int) returns (r: Option<AcquireResult>)
      requires Valid()
      modifies chain
      ensures Valid()
      ensures match old(Serve(Views(), now))
              case None => r.None?
              case Some((i, s)) => i < |chain| && r == Some(AcquireResult(s, chain[i]))
      ensures Drew(chain, old(Asked(Views(), now)))
      decreases |chain|, 1
    {
      AskedStep(now);
      if totalCount == 0 {
        return None;
      }
      var slot := ScanFirst(now);
      if slot != -1 {
        r := Some(AcquireResult(slot, this));
      } else {
        r := AskFallback(now);
      }
    }

    /** The same for the safety valve. */
    lemma SoonestStep()
      requires Valid()
      ensures totalCount == |Cooldowns()|
      ensures totalCount == 0 ==> Soonest(Views()).None?
      ensures totalCount > 0 ==>
                var slot := Least(Cooldowns(), totalCount);
                Soonest(Views()) == (if slot != -1 then Some((0, slot))
                                     else match Soonest(ViewsOf(chain[1..]))
                                          case None => None
                                          case Some((i, s)) => Some((i + 1, s)))
    {
      FallbackIsTail();
      assert Views() == [Look()] + ViewsOf(chain[1..]) && Views()[1..] == ViewsOf(chain[1..]);
    }

    /** This pool's own slot that is ready first. */
    method LeastSlot() returns (best: int)
      ensures best == Least(Cooldowns(), |credentials|)
    {
      ghost var cool := Cooldowns();
      var bestCooldown := MAX_INT64;
      best := -1;
      for idx := 0 to |credentials|
        invariant best == Least(cool, idx)
        invariant bestCooldown == (if best == -1 then MAX_INT64 else cool[best])
      {
        assert cool[idx] == credentials[idx].cooldownUntil;
        if credentials[idx].cooldownUntil < bestCooldown {
          best, bestCooldown := idx, credentials[idx].cooldownUntil;
        }
      }
    }

    /** The safety valve: the credential that is ready first, cooling or not. */
    method AcquireLeastPenalizedToken() returns (r: Option<AcquireResult>)
      requires Valid()
      ensures match Soonest(Views())
              case None => r.None?
              case Some((i, s)) => i < |chain| && r == Some(AcquireResult(s, chain[i]))
      decreases |chain|
    {
      SoonestStep();
      FallbackIsTail();
      if totalCount == 0 {
        return None;
      }
      var best := LeastSlot();
      if best != -1 {
        r := Some(AcquireResult(best, this));
      } else if fallbackPool != null {
        r := fallbackPool.AcquireLeastPenalizedToken();
      } else {
        r := None;
      }
    }

    /** An index outside the ring is ignored; inside, every slot of that credential cools. */
    method PenalizeToken(index: int, now: int, duration: int)
      requires totalCount == |credentials|
      modifies credentials
      ensures Cooldowns() == (if 0 <= index < totalCount then Penalized(credentials, old(Cooldowns()), index, now + duration)
                              else old(Cooldowns()))
    {
      if index < 0 || index >= totalCount {
        return;
      }
      credentials[index].cooldownUntil := now + duration;
    }

    method ResetCooldown(index: int)
      requires totalCount == |credentials|
      modifies credentials
      ensures Cooldowns() == (if 0 <= index < totalCount then Penalized(credentials, old(Cooldowns()), index, 0)
                              else old(Cooldowns()))
    {
      if 0 <= index && index < totalCount {
        credentials[index].cooldownUntil := 0;
      }
    }

    function Ids(): (r: seq<int>)
      ensures |r| == |credentials|
    {
      seq(|credentials|, j requires 0 <= j < |credentials| => credentials[j].id)
    }

    /** An event from another node: the first credential with that identifier, if any. */
    method PenalizeByCredID(credID: int, until: int)
      modifies credentials
      ensures credID !in Ids() ==> Cooldowns() == old(Cooldowns())
      ensures credID in Ids() ==>
                exists j :: 0 <= j < |credentials| && Ids()[j] == credID && credID !in Ids()[..j]
                            && Cooldowns() == Penalized(credentials, old(Cooldowns()), j, until)
    {
      for j := 0 to |credentials|
        invariant credID !in Ids()[..j] && Cooldowns() == old(Cooldowns())
      {
        if credentials[j].id == credID {
          credentials[j].cooldownUntil := until;
          assert Cooldowns() == Penalized(credentials, old(Cooldowns()), j, until);
          assert Ids()[j] == credID;
          return;
        }
        assert Ids()[..j + 1] == Ids()[..j] + [credentials[j].id];
      }
      assert Ids()[..|credentials|] == Ids();
    }

    /** How many different credentials are off cooldown. */
    method HealthyCount(now: int) returns (count: nat)
      ensures count == |HealthyIds(Ids(), Cooldowns(), now, |credentials|)|
    {
      count := 0;
      var seen: set<int> := {};
      ghost var ids, cool := Ids(), Cooldowns();
      for j := 0 to |credentials|
        invariant seen == HealthyIds(ids, cool, now, j) && count == |seen|
      {
        if credentials[j].id !in seen && credentials[j].cooldownUntil <= now {
          count, seen := count + 1, seen + {credentials[j].id};
        }
        HealthyOneMore(ids, cool, now, j);
      }
    }
  }

  lemma HealthyOneMore(ids: seq<int>, cool: seq<int>, now: int, k: nat)
    requires k < |ids| == |cool|
    ensures HealthyIds(ids, cool, now, k + 1) == HealthyIds(ids, cool, now, k) + (if cool[k] <= now then {ids[k]} else {})
  {
  }

  /** Fallbacks are taken only from pools that count a healthy credential: those whose ring
      is not all cooling. */
  lemma HealthyUnlessAllCooling(ids: seq<int>, cool: seq<int>, now: int)
    requires |ids| == |cool|
    ensures |HealthyIds(ids, cool, now, |ids|)| > 0 <==> !AllCooling(cool, now)
  {
    var healthy := HealthyIds(ids, cool, now, |ids|);
    if !AllCooling(cool, now) {
      var j :| 0 <= j < |cool| && cool[j] <= now;
      assert ids[j] in healthy;
    }
    if AllCooling(cool, now) {
      assert healthy == {};
    }
  }

  ghost function KeysOfPools(pools: seq<BalancedChannelPool>): set<RuntimeCredential> {
    if pools == [] then {} else (set c | c in pools[0].credentials) + KeysOfPools(pools[1..])
  }

  ghost function ViewsOf(pools: seq<BalancedChannelPool>): (r: seq<View>)
    reads pools, KeysOfPools(pools)
    ensures |r| == |pools|
  {
    if pools == [] then [] else [pools[0].Look()] + ViewsOf(pools[1..])
  }

  /** The first `k` of these pools drew a ticket each, and the others none. */
  twostate predicate Drew(pools: seq<BalancedChannelPool>, k: nat)
    reads pools
  {
    forall i :: 0 <= i < |pools| ==>
      pools[i].cursor == (if i < k then NextTicket(old(pools[i].cursor)) else old(pools[i].cursor))
  }

  twostate lemma {:induction false} ViewsStay(pools: seq<BalancedChannelPool>)
    requires unchanged(pools)
    requires forall i, j :: 0 <= i < |pools| && 0 <= j < |pools[i].credentials| ==> unchanged(pools[i].credentials[j])
    ensures ViewsOf(pools) == old(ViewsOf(pools))
  {
    if pools != [] {
      assert pools[0].Cooldowns() == old(pools[0].Cooldowns());
      forall i, j | 0 <= i < |pools[1..]| && 0 <= j < |pools[1..][i].credentials|
        ensures unchanged(pools[1..][i].credentials[j])
      {
        assert pools[1..][i] == pools[i + 1];
      }
      ViewsStay(pools[1..]);
    }
  }
}
