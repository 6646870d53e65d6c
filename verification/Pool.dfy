/** The credential pool of internal/credentials/pool.go: a weighted ring, a shared 64-bit
    cursor, cooldowns, and a chain of fallback pools. */
module Pool {
  import opened Text

  const WORD: nat := 0x1_0000_0000_0000_0000
  const MAX_INT64: int := 0x7FFF_FFFF_FFFF_FFFF

  // ----- The scan -----

  /** The slot looked at in step `i` of a scan that drew the ticket `ticket`. */
  function Probe(ticket: nat, i: nat, n: nat): (slot: nat)
    requires n > 0
    ensures slot < n
  {
    ((ticket + i) % WORD) % n
  }

  function NextTicket(cursor: nat): nat {
    (cursor + 1) % WORD
  }

  /** The first slot from step `i` on that is off cooldown. */
  function FirstReady(cool: seq<int>, ticket: nat, now: int, i: nat): (slot: int)
    requires i <= |cool|
    ensures slot == -1 ==> forall k :: i <= k < |cool| ==> cool[Probe(ticket, k, |cool|)] > now
    ensures slot != -1 ==> 0 <= slot < |cool| && cool[slot] <= now
    ensures slot != -1 ==> exists k :: i <= k < |cool| && slot == Probe(ticket, k, |cool|)
                             && (forall j :: i <= j < k ==> cool[Probe(ticket, j, |cool|)] > now)
    decreases |cool| - i
  {
    if i == |cool| then -1
    else if cool[Probe(ticket, i, |cool|)] <= now then Probe(ticket, i, |cool|)
    else FirstReady(cool, ticket, now, i + 1)
  }

  ghost predicate AllCooling(cool: seq<int>, now: int) {
    forall j :: 0 <= j < |cool| ==> cool[j] > now
  }

  ghost predicate Probed(ticket: nat, n: nat, slot: nat)
    requires n > 0
  {
    exists i :: 0 <= i < n && Probe(ticket, i, n) == slot
  }

  ghost predicate ScanCovers(ticket: nat, n: nat)
    requires n > 0
  {
    forall slot :: 0 <= slot < n ==> Probed(ticket, n, slot)
  }

  // ----- What a scan covers -----

  lemma ModOfSum(a: nat, b: nat, n: nat)
    requires n > 0
    ensures (a + b) % n == (a % n + b) % n
  {
    ModShift(a % n + b, a / n, n);
    assert a + b == (a % n + b) + (a / n) * n;
  }

  lemma {:induction false} ModShift(a: nat, k: nat, n: nat)
    requires n > 0
    ensures (a + k * n) % n == a % n
    decreases k
  {
    if k > 0 {
      ModShift(a, k - 1, n);
      Times(k, n);
      ModOnce(a + (k - 1) * n, n);
    }
  }

  lemma Times(k: nat, n: nat)
    requires k > 0
    ensures k * n == (k - 1) * n + n
  {
  }

  lemma ModOnce(x: nat, n: nat)
    requires n > 0
    ensures (x + n) % n == x % n
  {
    var q, r := x / n, x % n;
    var p, t := (x + n) / n, (x + n) % n;
    assert x == q * n + r && x + n == p * n + t;
    Spread(p - q - 1, n);
    assert (p - q - 1) * n == r - t;
  }

  lemma Spread(d: int, n: nat)
    requires n > 0
    ensures d >= 1 ==> d * n >= n
    ensures d <= -1 ==> d * n + n <= 0
  {
    if d >= 1 {
      assert (d - 1) * n >= 0;
    } else if d <= -1 {
      assert (-d - 1) * n >= 0;
    }
  }

  lemma SmallMod(a: nat, n: nat)
    requires n > 0
    ensures a < n ==> a % n == a
    ensures n <= a < 2 * n ==> a % n == a - n
  {
    if n <= a < 2 * n {
      ModOnce(a - n, n);
    }
  }

  /** As long as the sum does not wrap, step `i` looks at the i-th slot after the first. */
  lemma ProbeUnwrapped(ticket: nat, i: nat, n: nat)
    requires 0 < n && i < n && ticket + i < WORD
    ensures Probe(ticket, i, n) == (if ticket % n + i < n then ticket % n + i else ticket % n + i - n)
  {
    ModOfSum(ticket, i, n);
    SmallMod(ticket % n + i, n);
    SmallMod(ticket + i, WORD);
  }

  /** Past the wrap the scan starts again at slot 0. */
  lemma ProbeWrapped(ticket: nat, i: nat, n: nat)
    requires 0 < n <= WORD && i < n && ticket < WORD <= ticket + i
    ensures Probe(ticket, i, n) == ticket + i - WORD
  {
    SmallMod(ticket + i, WORD);
    SmallMod(ticket + i - WORD, n);
  }

  lemma WrapsEvenly(ticket: nat, n: nat)
    requires 0 < n <= WORD && ticket < WORD && ticket + n > WORD && WORD % n == 0
    ensures WORD - ticket < n
    ensures ticket % n == n - (WORD - ticket)
  {
    var left := WORD - ticket;
    ModOfSum(ticket, left, n);
    SmallMod(ticket % n + left, n);
  }

  lemma CoversUnwrapped(ticket: nat, n: nat, slot: nat)
    requires slot < n && ticket + n <= WORD
    ensures Probed(ticket, n, slot)
  {
    var first := ticket % n;
    var i := if slot >= first then slot - first else slot + n - first;
    ProbeUnwrapped(ticket, i, n);
    assert Probe(ticket, i, n) == slot;
  }

  lemma CoversEvenly(ticket: nat, n: nat, slot: nat)
    requires slot < n <= WORD && ticket < WORD && ticket + n > WORD && WORD % n == 0
    ensures Probed(ticket, n, slot)
  {
    var left := WORD - ticket;
    WrapsEvenly(ticket, n);
    if slot < n - left {
      ProbeWrapped(ticket, slot + left, n);
      assert Probe(ticket, slot + left, n) == slot;
    } else {
      ProbeUnwrapped(ticket, slot - (n - left), n);
      assert Probe(ticket, slot - (n - left), n) == slot;
    }
  }

  /** The slot a scan that wraps unevenly never looks at. */
  function Missed(ticket: nat, n: nat): int
    requires n > 0
  {
    var left, rest := WORD - ticket, WORD % n;
    if rest >= left then n - 1
    else if n - left >= rest then n - left
    else rest
  }

  lemma FirstSlotBeforeWrap(ticket: nat, n: nat)
    requires 0 < n <= WORD && ticket < WORD && ticket + n > WORD
    ensures var left, rest := WORD - ticket, WORD % n;
            ticket % n == (if rest >= left then rest - left else n + rest - left)
  {
    var left := WORD - ticket;
    ModOfSum(ticket, left, n);
    SmallMod(ticket % n + left, n);
  }

  lemma MissedIsMissed(ticket: nat, n: nat)
    requires 0 < n <= WORD && ticket < WORD && ticket + n > WORD && WORD % n != 0
    ensures 0 <= Missed(ticket, n) < n && !Probed(ticket, n, Missed(ticket, n))
  {
    var slot := Missed(ticket, n);
    FirstSlotBeforeWrap(ticket, n);
    forall i | 0 <= i < n
      ensures Probe(ticket, i, n) != slot
    {
      if ticket + i < WORD {
        ProbeUnwrapped(ticket, i, n);
      } else {
        ProbeWrapped(ticket, i, n);
      }
    }
  }

  /** A scan visits every slot exactly when its ticket does not wrap on the way, or the
      length of the ring divides 2^64. */
  lemma ScanCoversIff(ticket: nat, n: nat)
    requires 0 < n <= WORD && ticket < WORD
    ensures ScanCovers(ticket, n) <==> ticket + n <= WORD || WORD % n == 0
  {
    if ticket + n <= WORD || WORD % n == 0 {
      forall slot | 0 <= slot < n
        ensures Probed(ticket, n, slot)
      {
        if ticket + n <= WORD {
          CoversUnwrapped(ticket, n, slot);
        } else {
          CoversEvenly(ticket, n, slot);
        }
      }
    } else {
      MissedIsMissed(ticket, n);
    }
  }

  /** A scan comes back empty-handed exactly when everything it looks at is cooling; when it
      looks at every slot that is the whole ring. */
  lemma ScanFindsReady(cool: seq<int>, ticket: nat, now: int)
    requires 0 < |cool| <= WORD && ticket < WORD
    requires ticket + |cool| <= WORD || WORD % |cool| == 0
    ensures FirstReady(cool, ticket, now, 0) == -1 <==> AllCooling(cool, now)
  {
    ScanCoversIff(ticket, |cool|);
    if FirstReady(cool, ticket, now, 0) == -1 {
      forall j | 0 <= j < |cool|
        ensures cool[j] > now
      {
        assert Probed(ticket, |cool|, j);
      }
    }
  }

  /** Otherwise there are cooldowns for which it misses the one ready slot. */
  lemma ScanMissesReady(cool: seq<int>, ticket: nat, now: int)
    requires 0 < |cool| <= WORD && ticket < WORD
    requires ticket + |cool| > WORD && WORD % |cool| != 0
    requires forall j :: 0 <= j < |cool| ==> (cool[j] <= now <==> j == Missed(ticket, |cool|))
    ensures FirstReady(cool, ticket, now, 0) == -1 && !AllCooling(cool, now)
  {
    MissedIsMissed(ticket, |cool|);
    var slot := FirstReady(cool, ticket, now, 0);
    if slot != -1 {
      assert Probed(ticket, |cool|, slot);
    }
    assert cool[Missed(ticket, |cool|)] <= now;
  }

  // ----- The least penalized slot -----

  /** The first slot with the smallest cooldown among the first `k`, or -1 when none is
      below the largest 64-bit integer. */
  function Least(cool: seq<int>, k: nat): (slot: int)
    requires k <= |cool|
    ensures slot == -1 ==> forall j :: 0 <= j < k ==> cool[j] >= MAX_INT64
    ensures slot != -1 ==> 0 <= slot < k && cool[slot] < MAX_INT64
    ensures slot != -1 ==> forall j :: 0 <= j < k ==> cool[slot] <= cool[j] && (j < slot ==> cool[slot] < cool[j])
  {
    if k == 0 then -1
    else
      var best := Least(cool, k - 1);
      if cool[k - 1] < (if best == -1 then MAX_INT64 else cool[best]) then k - 1 else best
  }

  // ----- Penalties -----

  /** A penalty on one slot cools every slot of the same credential. */
  function Penalized<K(==)>(ring: seq<K>, cool: seq<int>, slot: nat, until: int): (r: seq<int>)
    requires |ring| == |cool| && slot < |ring|
    ensures |r| == |cool|
    ensures forall j :: 0 <= j < |r| ==> r[j] == (if ring[j] == ring[slot] then until else cool[j])
  {
    seq(|cool|, j requires 0 <= j < |cool| => if ring[j] == ring[slot] then until else cool[j])
  }

  // ----- The ring -----

  function Repeat<K>(x: K, w: int): (r: seq<K>)
    ensures |r| == (if w < 0 then 0 else w)
    ensures forall i :: 0 <= i < |r| ==> r[i] == x
    decreases w
  {
    if w <= 0 then [] else Repeat(x, w - 1) + [x]
  }

  function Share(w: int): (r: int)
    ensures r >= 1
  {
    if w < 1 then 1 else w
  }

  /** Every credential as often as its weight says, at least once. */
  function Expand<K>(items: seq<K>, weight: K --> int): seq<K>
    requires forall i :: 0 <= i < |items| ==> weight.requires(items[i])
  {
    if items == [] then []
    else
      var last := items[|items| - 1];
      Expand(items[..|items| - 1], weight) + Repeat(last, Share(weight(last)))
  }

  lemma {:induction false} RepeatCount<K>(x: K, w: int, y: K)
    ensures multiset(Repeat(x, w))[y] == (if y == x && w > 0 then w else 0)
    decreases w
  {
    if w > 0 {
      RepeatCount(x, w - 1, y);
    }
  }

  /** In the ring of distinct credentials each has as many slots as it weighs. */
  lemma {:induction false} RingCount<K>(items: seq<K>, weight: K -> int, x: K)
    requires forall i, j :: 0 <= i < j < |items| ==> items[i] != items[j]
    ensures multiset(Expand(items, weight))[x] == (if x in items then Share(weight(x)) else 0)
  {
    if items != [] {
      var front, last := items[..|items| - 1], items[|items| - 1];
      RingCount(front, weight, x);
      RepeatCount(last, Share(weight(last)), x);
      assert x in items <==> x in front || x == last by {
        assert items == front + [last];
      }
    }
  }

  // ----- Fairness -----

  /** What `m` consecutive tickets stand for when no credential is cooling. */
  function Picked<K>(ring: seq<K>, ticket: nat, m: nat): (r: seq<K>)
    requires |ring| > 0
    ensures |r| == m
  {
    seq(m, i requires 0 <= i < m => ring[Probe(ticket + i, 0, |ring|)])
  }

  lemma PickedInOrder<K>(ring: seq<K>, ticket: nat)
    requires 0 < |ring| && ticket + |ring| <= WORD
    ensures Picked(ring, ticket, |ring|) == ring[ticket % |ring|..] + ring[..ticket % |ring|]
  {
    var n, first := |ring|, ticket % |ring|;
    forall i | 0 <= i < n
      ensures Picked(ring, ticket, n)[i] == (ring[first..] + ring[..first])[i]
    {
      ProbeUnwrapped(ticket, i, n);
      assert Probe(ticket + i, 0, n) == Probe(ticket, i, n);
    }
  }

  /** One full round of tickets picks every slot once. */
  lemma PickedRound<K>(ring: seq<K>, ticket: nat)
    requires 0 < |ring| && ticket + |ring| <= WORD
    ensures multiset(Picked(ring, ticket, |ring|)) == multiset(ring)
  {
    var first := ticket % |ring|;
    PickedInOrder(ring, ticket);
    assert ring == ring[..first] + ring[first..];
    assert multiset(ring[..first] + ring[first..]) == multiset(ring[..first]) + multiset(ring[first..]);
  }

  lemma PickedSplit<K>(ring: seq<K>, ticket: nat, m: nat, l: nat)
    requires 0 < |ring|
    ensures Picked(ring, ticket, m + l) == Picked(ring, ticket, m) + Picked(ring, ticket + m, l)
  {
    var all, b := Picked(ring, ticket, m + l), Picked(ring, ticket + m, l);
    forall i | 0 <= i < l
      ensures all[m + i] == b[i]
    {
      assert ticket + (m + i) == (ticket + m) + i;
    }
  }

  lemma PickedOneMore<K>(ring: seq<K>, ticket: nat, m: nat)
    requires 0 < |ring|
    ensures Picked(ring, ticket, m + 1) == Picked(ring, ticket, m) + [ring[Probe(ticket + m, 0, |ring|)]]
  {
  }

  lemma PickedRoundMore<K>(ring: seq<K>, ticket: nat, m: nat)
    requires 0 < |ring| && ticket + m + |ring| <= WORD
    ensures multiset(Picked(ring, ticket, m + |ring|)) == multiset(Picked(ring, ticket, m)) + multiset(ring)
  {
    PickedSplit(ring, ticket, m, |ring|);
    PickedRound(ring, ticket + m);
    SumOfParts(Picked(ring, ticket, m), Picked(ring, ticket + m, |ring|), ring);
  }

  lemma SumOfParts<K>(a: seq<K>, b: seq<K>, c: seq<K>)
    requires multiset(b) == multiset(c)
    ensures multiset(a + b) == multiset(a) + multiset(c)
  {
  }

  function Rounds(k: nat, n: nat): nat {
    if k == 0 then 0 else Rounds(k - 1, n) + n
  }

  lemma {:induction false} RoundsIsProduct(k: nat, n: nat)
    ensures Rounds(k, n) == k * n
  {
    if k > 0 {
      RoundsIsProduct(k - 1, n);
      Times(k, n);
    }
  }

  lemma {:induction false} CountPerRound<K>(ring: seq<K>, ticket: nat, k: nat, x: K)
    requires 0 < |ring| && ticket + Rounds(k, |ring|) <= WORD
    ensures multiset(Picked(ring, ticket, Rounds(k, |ring|)))[x] == Rounds(k, multiset(ring)[x])
  {
    if k > 0 {
      CountPerRound(ring, ticket, k - 1, x);
      PickedRoundMore(ring, ticket, Rounds(k - 1, |ring|));
    }
  }

  /** `k` rounds of tickets pick every credential `k` times as often as it has slots. */
  lemma PickedRounds<K>(ring: seq<K>, ticket: nat, k: nat, total: nat, x: K)
    requires 0 < |ring| && total == k * |ring| && ticket + total <= WORD
    ensures multiset(Picked(ring, ticket, total))[x] == k * multiset(ring)[x]
  {
    RoundsIsProduct(k, |ring|);
    RoundsIsProduct(k, multiset(ring)[x]);
    CountPerRound(ring, ticket, k, x);
  }

  // ----- Concurrent acquires -----

  /** Requests that have drawn a ticket are still scanning; `chosen` is what the finished
      ones got. */
  datatype Balance<K> = Balance(cursor: nat, scanning: seq<nat>, chosen: seq<K>)

  /** A request draws a ticket, or one that has drawn scans the cooldowns it sees. */
  datatype Event = Draw | Scan(who: nat, cool: seq<int>, now: int)

  predicate Enabled<K>(ring: seq<K>, b: Balance<K>, e: Event) {
    match e
    case Draw => true
    case Scan(who, cool, now) =>
      && who < |b.scanning| && |cool| == |ring|
      && forall j :: 0 <= j < |cool| ==> cool[j] <= now
  }

  function Next<K>(ring: seq<K>, b: Balance<K>, e: Event): Balance<K>
    requires Enabled(ring, b, e)
  {
    match e
    case Draw =>
      var ticket := NextTicket(b.cursor);
      Balance(ticket, b.scanning + [ticket], b.chosen)
    case Scan(who, cool, now) =>
      var slot := FirstReady(cool, b.scanning[who], now, 0);
      if slot == -1 then b
      else Balance(b.cursor, b.scanning[..who] + b.scanning[who + 1..], b.chosen + [ring[slot]])
  }

  /** The state after the events, if each was enabled in its turn. */
  function After<K>(ring: seq<K>, first: nat, events: seq<Event>): Option<Balance<K>> {
    if events == [] then Some(Balance(first, [], []))
    else
      var prev, e := After(ring, first, events[..|events| - 1]), events[|events| - 1];
      if prev.Some? && Enabled(ring, prev.value, e) then Some(Next(ring, prev.value, e)) else None
  }

  function Draws(events: seq<Event>): nat {
    if events == [] then 0
    else Draws(events[..|events| - 1]) + (if events[|events| - 1].Draw? then 1 else 0)
  }

  function KeysOf<K>(ring: seq<K>, tickets: seq<nat>): (r: seq<K>)
    requires |ring| > 0
    ensures |r| == |tickets|
  {
    seq(|tickets|, j requires 0 <= j < |tickets| => ring[Probe(tickets[j], 0, |ring|)])
  }

  lemma KeysWithout<K>(ring: seq<K>, tickets: seq<nat>, who: nat)
    requires |ring| > 0 && who < |tickets|
    ensures multiset(KeysOf(ring, tickets))
         == multiset(KeysOf(ring, tickets[..who] + tickets[who + 1..])) + multiset{ring[Probe(tickets[who], 0, |ring|)]}
  {
    var all := KeysOf(ring, tickets);
    assert KeysOf(ring, tickets[..who] + tickets[who + 1..]) == all[..who] + all[who + 1..];
    assert all == all[..who] + [all[who]] + all[who + 1..];
  }

  lemma KeysWith<K>(ring: seq<K>, tickets: seq<nat>, ticket: nat)
    requires |ring| > 0
    ensures KeysOf(ring, tickets + [ticket]) == KeysOf(ring, tickets) + [ring[Probe(ticket, 0, |ring|)]]
  {
  }

  /** With every credential available a scan takes the slot of its ticket. */
  lemma ReadyTakesTicket(cool: seq<int>, ticket: nat, now: int)
    requires |cool| > 0 && forall j :: 0 <= j < |cool| ==> cool[j] <= now
    ensures FirstReady(cool, ticket, now, 0) == Probe(ticket, 0, |cool|)
  {
  }

  /** The credentials chosen and those of the scans under way are together what the
      tickets drawn so far stand for. */
  ghost predicate Accounts<K>(ring: seq<K>, first: nat, drawn: nat, b: Balance<K>)
    requires |ring| > 0
  {
    && b.cursor == first + drawn
    && |b.chosen| + |b.scanning| == drawn
    && multiset(b.chosen) + multiset(KeysOf(ring, b.scanning)) == multiset(Picked(ring, first + 1, drawn))
  }

  lemma DrawIs<K>(ring: seq<K>, b: Balance<K>)
    requires b.cursor + 1 < WORD
    ensures Next(ring, b, Draw) == Balance(b.cursor + 1, b.scanning + [b.cursor + 1], b.chosen)
  {
    SmallMod(b.cursor + 1, WORD);
  }

  lemma DrawAccounts<K>(ring: seq<K>, first: nat, drawn: nat, b: Balance<K>)
    requires |ring| > 0 && Accounts(ring, first, drawn, b) && first + drawn + 1 < WORD
    ensures Accounts(ring, first, drawn + 1, Next(ring, b, Draw))
  {
    var ticket := b.cursor + 1;
    DrawIs(ring, b);
    KeysWith(ring, b.scanning, ticket);
    PickedOneMore(ring, first + 1, drawn);
    assert first + 1 + drawn == ticket;
    BothGrow(b.chosen, KeysOf(ring, b.scanning), Picked(ring, first + 1, drawn), ring[Probe(ticket, 0, |ring|)]);
  }

  lemma BothGrow<K>(a: seq<K>, b: seq<K>, c: seq<K>, x: K)
    requires multiset(a) + multiset(b) == multiset(c)
    ensures multiset(a) + multiset(b + [x]) == multiset(c + [x])
  {
  }

  lemma ScanAccounts<K>(ring: seq<K>, first: nat, drawn: nat, b: Balance<K>, e: Event)
    requires |ring| > 0 && Accounts(ring, first, drawn, b) && e.Scan? && Enabled(ring, b, e)
    ensures Accounts(ring, first, drawn, Next(ring, b, e))
  {
    KeysWithout(ring, b.scanning, e.who);
    ReadyTakesTicket(e.cool, b.scanning[e.who], e.now);
  }

  lemma AfterOneMore<K>(ring: seq<K>, first: nat, events: seq<Event>, prev: Balance<K>)
    requires events != [] && After(ring, first, events).Some?
    requires After(ring, first, events[..|events| - 1]) == Some(prev)
    ensures Enabled(ring, prev, events[|events| - 1])
    ensures After(ring, first, events).value == Next(ring, prev, events[|events| - 1])
  {
  }

  lemma StepAccounts<K>(ring: seq<K>, first: nat, drawn: nat, b: Balance<K>, e: Event)
    requires |ring| > 0 && Accounts(ring, first, drawn, b) && Enabled(ring, b, e)
    requires e.Draw? ==> first + drawn + 1 < WORD
    ensures Accounts(ring, first, if e.Draw? then drawn + 1 else drawn, Next(ring, b, e))
  {
    if e.Draw? {
      DrawAccounts(ring, first, drawn, b);
    } else {
      ScanAccounts(ring, first, drawn, b, e);
    }
  }

  lemma {:induction false} EveryRunAccounts<K>(ring: seq<K>, first: nat, events: seq<Event>)
    requires 0 < |ring| && first + Draws(events) < WORD
    requires After(ring, first, events).Some?
    ensures Accounts(ring, first, Draws(events), After(ring, first, events).value)
    decreases |events|
  {
    if events != [] {
      var front, e := events[..|events| - 1], events[|events| - 1];
      EveryRunAccounts(ring, first, front);
      var prev := After(ring, first, front).value;
      AfterOneMore(ring, first, events, prev);
      StepAccounts(ring, first, Draws(front), prev, e);
    }
  }

  /** Weighted fairness: however the increments and the scans interleave, k rounds of
      acquires that all finish select each credential exactly k times its weight. */
  lemma WeightedFairness<K>(items: seq<K>, weight: K -> int, first: nat, k: nat, events: seq<Event>, x: K)
    requires forall i, j :: 0 <= i < j < |items| ==> items[i] != items[j]
    requires x in items
    requires Draws(events) == k * |Expand(items, weight)| && first + Draws(events) < WORD
    requires var end := After(Expand(items, weight), first, events);
             end.Some? && end.value.scanning == []
    ensures var b := After(Expand(items, weight), first, events).value;
            |b.chosen| == Draws(events) && multiset(b.chosen)[x] == k * Share(weight(x))
  {
    var ring := Expand(items, weight);
    RingCount(items, weight, x);
    assert x in multiset(ring);
    EveryRunAccounts(ring, first, events);
    assert KeysOf(ring, After(ring, first, events).value.scanning) == [];
    PickedRounds(ring, first + 1, k, Draws(events), x);
  }
}
