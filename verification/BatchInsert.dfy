/** The batch upsert of internal/credentials/batch_insert.go, fed by the workers of
    internal/credentials/rediscovery.go: pools and credentials as tables. */
module BatchInsert {
  import opened Text
  import opened StringOrder
  import LockOrder

  datatype Capability = Reasoning | Vision | ImageGeneration | Audio | Video | Code | Embedding

  /** A discovered model; the seven capability flags are the set of those that are on. */
  datatype Item = Item(
    pattern: string, provider: string, baseURL: string, raw: string, encrypted: string,
    weight: int, prefix: string, capabilities: set<Capability>)

  /** Rows of `model_pools`, by pattern, and of `credentials`. */
  datatype PoolRow = PoolRow(id: nat, capabilities: set<Capability>)

  datatype Row = Row(pool: nat, provider: string, encrypted: string, baseURL: string, weight: int, prefix: string)

  datatype Tables = Tables(pools: map<string, PoolRow>, nextId: nat, rows: seq<Row>)

  /** The n-th encryption has its own nonce, so equal keys have many ciphers. */
  datatype Vault = Vault(encrypt: (nat, string) -> Option<string>, decrypt: string -> Option<string>)

  /** Encryption, when it succeeds, can be undone. */
  ghost predicate Sound(v: Vault) {
    forall n, key :: v.encrypt(n, key).Some? ==> IsCipherOf(v.encrypt(n, key).value, key, v)
  }

  /** Ciphers are printed without bars. */
  predicate IsCipherOf(cipher: string, key: string, v: Vault) {
    cipher != "" && '|' !in cipher && v.decrypt(cipher) == Some(key)
  }

  // ----- Grouping -----

  /** The patterns in the order in which they first appear. */
  function PatternsOf(items: seq<Item>): (r: seq<string>)
    ensures forall p :: p in r <==> p != "" && exists i :: 0 <= i < |items| && items[i].pattern == p
  {
    if items == [] then []
    else
      var front, last := items[..|items| - 1], items[|items| - 1].pattern;
      assert items == front + [items[|items| - 1]];
      if last == "" || last in PatternsOf(front) then PatternsOf(front) else PatternsOf(front) + [last]
  }

  function GroupOf(items: seq<Item>, pattern: string): (r: seq<Item>)
    ensures forall item :: item in r <==> item in items && item.pattern == pattern
  {
    if items == [] then []
    else
      var front, last := items[..|items| - 1], items[|items| - 1];
      assert items == front + [last];
      if last.pattern == pattern then GroupOf(front, pattern) + [last] else GroupOf(front, pattern)
  }

  function CapabilitiesOf(group: seq<Item>): (r: set<Capability>)
    ensures forall c :: c in r <==> exists i :: 0 <= i < |group| && c in group[i].capabilities
  {
    if group == [] then {}
    else
      assert group == group[..|group| - 1] + [group[|group| - 1]];
      CapabilitiesOf(group[..|group| - 1]) + group[|group| - 1].capabilities
  }

  function SortedPatterns(items: seq<Item>): seq<string> {
    Sort(PatternsOf(items))
  }

  // ----- Encrypting -----

  function CacheKey(provider: string, raw: string): string {
    provider + ":" + raw
  }

  /** The cache of ciphers, or none when the vault fails; `nonce` counts the encryptions
      before this batch. */
  function Ciphers(items: seq<Item>, v: Vault, nonce: nat): Option<map<string, string>> {
    if items == [] then Some(map[])
    else
      var item := items[|items| - 1];
      match Ciphers(items[..|items| - 1], v, nonce)
      case None => None
      case Some(cache) =>
        if item.raw == "" || CacheKey(item.provider, item.raw) in cache then Some(cache)
        else
          match v.encrypt(nonce + |cache|, item.raw)
          case None => None
          case Some(cipher) => Some(cache[CacheKey(item.provider, item.raw) := cipher])
  }

  // ----- Upserting pools -----

  datatype Upserted = Upserted(pools: map<string, PoolRow>, nextId: nat, created: nat)

  /** `INSERT … ON CONFLICT DO UPDATE`: an existing row keeps its id and takes the new
      capabilities. */
  function Upsert(u: Upserted, pattern: string, capabilities: set<Capability>): Upserted {
    if pattern in u.pools then
      Upserted(u.pools[pattern := PoolRow(u.pools[pattern].id, capabilities)], u.nextId, u.created)
    else
      Upserted(u.pools[pattern := PoolRow(u.nextId, capabilities)], u.nextId + 1, u.created + 1)
  }

  function UpsertAll(t: Tables, patterns: seq<string>, items: seq<Item>): Upserted {
    if patterns == [] then Upserted(t.pools, t.nextId, 0)
    else
      var last := patterns[|patterns| - 1];
      Upsert(UpsertAll(t, patterns[..|patterns| - 1], items), last, CapabilitiesOf(GroupOf(items, last)))
  }

  // ----- The index of bound credentials -----

  datatype Key = Key(pool: nat, provider: string, key: string, baseURL: string, prefix: string)

  function Entry(k: Key): string {
    Decimal(k.pool) + "|" + k.provider + "|" + k.key + "|" + k.baseURL + "|" + k.prefix
  }

  function PlainKey(pool: nat, item: Item): Key {
    Key(pool, item.provider, item.raw, item.baseURL, item.prefix)
  }

  function CipherKey(pool: nat, item: Item): Key {
    Key(pool, item.provider, item.encrypted, item.baseURL, item.prefix)
  }

  function RowKeys(row: Row, v: Vault): set<Key> {
    {Key(row.pool, row.provider, row.encrypted, row.baseURL, row.prefix)}
    + (match v.decrypt(row.encrypted)
       case Some(plain) => if plain == "" then {} else {Key(row.pool, row.provider, plain, row.baseURL, row.prefix)}
       case None => {})
  }

  function Entries(keys: set<Key>): set<string> {
    set k | k in keys :: Entry(k)
  }

  /** What the rows of the given pools put into the index. */
  function Indexed(rows: seq<Row>, ids: set<nat>, v: Vault): set<Key> {
    if rows == [] then {}
    else
      var last := rows[|rows| - 1];
      Indexed(rows[..|rows| - 1], ids, v) + (if last.pool in ids then RowKeys(last, v) else {})
  }

  // ----- Queueing the missing bindings -----

  datatype Binding = Binding(index: set<string>, rows: seq<Row>)

  predicate AlreadyBound(index: set<string>, pool: nat, item: Item) {
    || (item.raw != "" && Entry(PlainKey(pool, item)) in index)
    || (item.encrypted != "" && Entry(CipherKey(pool, item)) in index)
  }

  function StoredCipher(item: Item, ciphers: map<string, string>): string {
    if item.encrypted != "" then item.encrypted
    else if CacheKey(item.provider, item.raw) in ciphers then ciphers[CacheKey(item.provider, item.raw)]
    else ""
  }

  function NewRow(pool: nat, item: Item, cipher: string): Row {
    Row(pool, item.provider, cipher, item.baseURL, if item.weight <= 0 then 1 else item.weight, item.prefix)
  }

  function NewKeys(pool: nat, item: Item): set<Key> {
    {PlainKey(pool, item)} + (if item.encrypted != "" then {CipherKey(pool, item)} else {})
  }

  function Bind(b: Binding, pool: nat, item: Item, ciphers: map<string, string>): Binding {
    var cipher := StoredCipher(item, ciphers);
    if AlreadyBound(b.index, pool, item) || cipher == "" then b
    else Binding(b.index + Entries(NewKeys(pool, item)), b.rows + [NewRow(pool, item, cipher)])
  }

  function BindGroup(b: Binding, pool: nat, group: seq<Item>, ciphers: map<string, string>): Binding {
    if group == [] then b
    else Bind(BindGroup(b, pool, group[..|group| - 1], ciphers), pool, group[|group| - 1], ciphers)
  }

  predicate Have(patterns: seq<string>, pools: map<string, PoolRow>) {
    forall p :: p in patterns ==> p in pools
  }

  function BindAll(b: Binding, patterns: seq<string>, items: seq<Item>, pools: map<string, PoolRow>, ciphers: map<string, string>): Binding
    requires Have(patterns, pools)
  {
    if patterns == [] then b
    else
      var last := patterns[|patterns| - 1];
      BindGroup(BindAll(b, patterns[..|patterns| - 1], items, pools, ciphers), pools[last].id, GroupOf(items, last), ciphers)
  }

  function Ids(patterns: seq<string>, pools: map<string, PoolRow>): set<nat>
    requires Have(patterns, pools)
  {
    set p | p in patterns :: pools[p].id
  }

  // ----- The whole batch -----

  datatype Result = Result(tables: Tables, synced: nat, bound: nat, notified: bool, failed: bool)

  lemma {:induction false} UpsertAllHas(t: Tables, patterns: seq<string>, items: seq<Item>)
    ensures forall p :: p in UpsertAll(t, patterns, items).pools <==> p in t.pools || p in patterns
  {
    if patterns != [] {
      UpsertAllHas(t, patterns[..|patterns| - 1], items);
      assert patterns == patterns[..|patterns| - 1] + [patterns[|patterns| - 1]];
    }
  }

  /** `BatchInsertDiscoveredModels`; a transaction that fails changes nothing. */
  function Batch(t: Tables, items: seq<Item>, v: Vault, nonce: nat): Result {
    var patterns := SortedPatterns(items);
    if patterns == [] then Result(t, 0, 0, false, false)
    else
      match Ciphers(items, v, nonce)
      case None => Result(t, 0, 0, false, true)
      case Some(ciphers) =>
        var u := UpsertAll(t, patterns, items);
        UpsertAllHas(t, patterns, items);
        var start := Binding(Entries(Indexed(t.rows, Ids(patterns, u.pools), v)), []);
        var b := BindAll(start, patterns, items, u.pools, ciphers);
        Result(Tables(u.pools, u.nextId, t.rows + b.rows), |patterns|, |b.rows|, u.created > 0 || |b.rows| > 0, false)
  }

  // ----- What is assumed of the data -----

  predicate BarFree(k: Key) {
    '|' !in k.provider && '|' !in k.key && '|' !in k.baseURL
  }

  /** A key a provider handed out: not empty, and not itself something the vault wrote. */
  predicate IsPlain(key: string, v: Vault) {
    key != "" && v.decrypt(key).None?
  }

  /** The raw key and, if given, its cipher belong together, and no field holds a separator. */
  predicate Consistent(item: Item, v: Vault) {
    && IsPlain(item.raw, v) && BarFree(PlainKey(0, item)) && ':' !in item.provider
    && (item.encrypted != "" ==> IsCipherOf(item.encrypted, item.raw, v))
  }

  function TupleOf(row: Row, v: Vault): Key {
    Key(row.pool, row.provider, v.decrypt(row.encrypted).GetOr(""), row.baseURL, row.prefix)
  }

  predicate Readable(row: Row, v: Vault) {
    && IsPlain(TupleOf(row, v).key, v) && BarFree(TupleOf(row, v))
    && IsCipherOf(row.encrypted, TupleOf(row, v).key, v)
  }

  /** What is bound: pool, provider, plain key, base URL and prefix of each row. */
  function Tuples(rows: seq<Row>, v: Vault): set<Key> {
    if rows == [] then {} else Tuples(rows[..|rows| - 1], v) + {TupleOf(rows[|rows| - 1], v)}
  }

  predicate AllReadable(rows: seq<Row>, v: Vault) {
    rows == [] || (AllReadable(rows[..|rows| - 1], v) && Readable(rows[|rows| - 1], v))
  }

  /** Every row can be read and no two are alike. */
  predicate NoTwoAlike(rows: seq<Row>, v: Vault) {
    rows == [] ||
    (var front, last := rows[..|rows| - 1], rows[|rows| - 1];
     NoTwoAlike(front, v) && Readable(last, v) && TupleOf(last, v) !in Tuples(front, v))
  }

  lemma OneMoreRow(rows: seq<Row>, row: Row, v: Vault)
    ensures Tuples(rows + [row], v) == Tuples(rows, v) + {TupleOf(row, v)}
    ensures AllReadable(rows + [row], v) <==> AllReadable(rows, v) && Readable(row, v)
    ensures NoTwoAlike(rows + [row], v) <==> NoTwoAlike(rows, v) && Readable(row, v) && TupleOf(row, v) !in Tuples(rows, v)
  {
    assert (rows + [row])[..|rows|] == rows;
  }

  /** The name says it: any two rows differ in their tuples. */
  lemma {:induction false} AnyTwoDiffer(rows: seq<Row>, v: Vault, i: nat, j: nat)
    requires NoTwoAlike(rows, v) && i < j < |rows|
    ensures TupleOf(rows[i], v) != TupleOf(rows[j], v)
  {
    var front := rows[..|rows| - 1];
    if j < |rows| - 1 {
      AnyTwoDiffer(front, v, i, j);
    } else {
      TupleOfMember(front, v, i);
    }
  }

  lemma {:induction false} TupleOfMember(rows: seq<Row>, v: Vault, i: nat)
    requires i < |rows|
    ensures TupleOf(rows[i], v) in Tuples(rows, v)
  {
    if i < |rows| - 1 {
      TupleOfMember(rows[..|rows| - 1], v, i);
    }
  }

  lemma {:induction false} TupleCount(rows: seq<Row>, v: Vault)
    requires NoTwoAlike(rows, v)
    ensures |Tuples(rows, v)| == |rows|
  {
    if rows != [] {
      TupleCount(rows[..|rows| - 1], v);
    }
  }

  // ----- The index says what is bound -----

  lemma DecimalHasNoBar(n: nat)
    ensures '|' !in Decimal(n)
  {
  }

  /** Formatting is injective when no field but the last holds a bar. */
  lemma EntryInjective(a: Key, b: Key)
    requires BarFree(a) && BarFree(b) && Entry(a) == Entry(b)
    ensures a == b
  {
    DecimalHasNoBar(a.pool);
    DecimalHasNoBar(b.pool);
    EntryShape(a);
    EntryShape(b);
    SplitAtSeparator(Decimal(a.pool), Decimal(b.pool), Tail1(a), Tail1(b), '|');
    SplitAtSeparator(a.provider, b.provider, Tail2(a), Tail2(b), '|');
    SplitAtSeparator(a.key, b.key, a.baseURL + ['|'] + a.prefix, b.baseURL + ['|'] + b.prefix, '|');
    SplitAtSeparator(a.baseURL, b.baseURL, a.prefix, b.prefix, '|');
    DecimalInjective(a.pool, b.pool);
  }

  function Tail1(k: Key): string {
    k.provider + ['|'] + Tail2(k)
  }

  function Tail2(k: Key): string {
    k.key + ['|'] + (k.baseURL + ['|'] + k.prefix)
  }

  lemma EntryShape(k: Key)
    ensures Entry(k) == Decimal(k.pool) + ['|'] + Tail1(k)
  {
    AppendAssociative(k.key, "|", k.baseURL + "|" + k.prefix);
    assert Entry(k) == Decimal(k.pool) + ("|" + (k.provider + ("|" + (k.key + ("|" + (k.baseURL + ("|" + k.prefix)))))));
  }

  function Bars(s: string): nat {
    if s == "" then 0 else Bars(s[..|s| - 1]) + (if s[|s| - 1] == '|' then 1 else 0)
  }

  lemma {:induction false} BarsAppend(a: string, b: string)
    ensures Bars(a + b) == Bars(a) + Bars(b)
  {
    if b == "" {
      assert a + b == a;
    } else {
      BarsAppend(a, b[..|b| - 1]);
      assert (a + b)[..|a + b| - 1] == a + b[..|b| - 1];
    }
  }

  lemma {:induction false} BarsIff(s: string)
    ensures Bars(s) > 0 <==> '|' in s
  {
    if s != "" {
      BarsIff(s[..|s| - 1]);
      assert s == s[..|s| - 1] + [s[|s| - 1]];
    }
  }

  lemma BarsOfField(field: string, rest: string)
    ensures Bars(field + ['|'] + rest) == Bars(field) + 1 + Bars(rest)
  {
    BarsAppend(field + ['|'], rest);
    BarsAppend(field, ['|']);
    assert ['|'][..0] == "";
  }

  lemma BarsOfEntry(k: Key)
    ensures Bars(Entry(k)) == 4 + Bars(k.provider) + Bars(k.key) + Bars(k.baseURL) + Bars(k.prefix)
  {
    EntryShape(k);
    DecimalHasNoBar(k.pool);
    BarsIff(Decimal(k.pool));
    BarsOfField(Decimal(k.pool), Tail1(k));
    BarsOfField(k.provider, Tail2(k));
    BarsOfField(k.key, k.baseURL + ['|'] + k.prefix);
    BarsOfField(k.baseURL, k.prefix);
  }

  predicate HasBar(k: Key) {
    '|' in k.provider || '|' in k.key || '|' in k.baseURL || '|' in k.prefix
  }

  lemma HasBarIff(k: Key)
    ensures HasBar(k) <==> Bars(k.provider) + Bars(k.key) + Bars(k.baseURL) + Bars(k.prefix) > 0
  {
    BarsIff(k.provider);
    BarsIff(k.key);
    BarsIff(k.baseURL);
    BarsIff(k.prefix);
  }

  lemma FirstBar(s: string) returns (a: string, b: string)
    requires '|' in s
    ensures s == a + ['|'] + b && |a| < |s|
  {
    var i :| 0 <= i < |s| && s[i] == '|';
    a, b := s[..i], s[i + 1..];
  }

  /** Cutting at a bar within a field and shifting the rest by one field. */
  lemma Shifted(k: Key) returns (other: Key)
    requires HasBar(k)
    ensures other != k && Entry(other) == Entry(k)
  {
    if '|' in k.provider {
      var a, b := FirstBar(k.provider);
      other := Key(k.pool, a, b, k.key, k.baseURL + ['|'] + k.prefix);
      assert Tail1(other) == Tail1(k);
    } else if '|' in k.key {
      var a, b := FirstBar(k.key);
      other := Key(k.pool, k.provider + ['|'] + a, b, k.baseURL, k.prefix);
      assert Tail1(other) == Tail1(k);
    } else if '|' in k.baseURL {
      var a, b := FirstBar(k.baseURL);
      other := Key(k.pool, k.provider, k.key + ['|'] + a, b, k.prefix);
      assert Tail2(other) == Tail2(k);
    } else {
      var a, b := FirstBar(k.prefix);
      other := Key(k.pool, k.provider, k.key, k.baseURL + ['|'] + a, b);
      assert Tail2(other) == Tail2(k);
    }
    EntryShape(k);
    EntryShape(other);
  }

  /** A binding looks like another one exactly when one of its fields holds a bar. */
  lemma CollidesIff(k: Key)
    ensures (exists other :: other != k && Entry(other) == Entry(k)) <==> HasBar(k)
  {
    if HasBar(k) {
      var other := Shifted(k);
    }
    forall other | Entry(other) == Entry(k) && !HasBar(k)
      ensures other == k
    {
      BarsOfEntry(k);
      BarsOfEntry(other);
      HasBarIff(k);
      HasBarIff(other);
      EntryInjective(k, other);
    }
  }

  function Decrypted(k: Key, v: Vault): Key {
    Key(k.pool, k.provider, v.decrypt(k.key).GetOr(""), k.baseURL, k.prefix)
  }

  /** A key of the index is a tuple, or one with the cipher in place of the plain key. */
  predicate Stands(k: Key, tuples: set<Key>, v: Vault) {
    BarFree(k) && (k in tuples || (v.decrypt(k.key).Some? && Decrypted(k, v) in tuples))
  }

  /** The index knows all tuples of the pools in hand, and nothing else. */
  ghost predicate Knows(keys: set<Key>, tuples: set<Key>, ids: set<nat>, v: Vault) {
    && (forall k :: k in tuples && k.pool in ids ==> k in keys)
    && (forall k :: k in keys ==> Stands(k, tuples, v))
    && (forall k :: k in tuples ==> IsPlain(k.key, v))
  }

  lemma EntryIn(k: Key, keys: set<Key>, tuples: set<Key>, ids: set<nat>, v: Vault)
    requires Knows(keys, tuples, ids, v) && BarFree(k)
    ensures Entry(k) in Entries(keys) <==> k in keys
  {
    if Entry(k) in Entries(keys) {
      var other :| other in keys && Entry(other) == Entry(k);
      assert Stands(other, tuples, v);
      EntryInjective(k, other);
    }
  }

  /** The lookup is right: an item counts as bound exactly when its tuple is there. */
  lemma LookupIsExact(keys: set<Key>, tuples: set<Key>, ids: set<nat>, pool: nat, item: Item, v: Vault)
    requires Knows(keys, tuples, ids, v) && Consistent(item, v) && pool in ids
    ensures AlreadyBound(Entries(keys), pool, item) <==> PlainKey(pool, item) in tuples
  {
    var plain, cipher := PlainKey(pool, item), CipherKey(pool, item);
    EntryIn(plain, keys, tuples, ids, v);
    if plain in keys {
      assert Stands(plain, tuples, v);
    }
    if item.encrypted != "" {
      EntryIn(cipher, keys, tuples, ids, v);
      assert Decrypted(cipher, v) == plain;
      if cipher in keys {
        assert Stands(cipher, tuples, v);
        assert cipher !in tuples;
      }
    }
  }

  lemma KnowsMore(keys: set<Key>, tuples: set<Key>, ids: set<nat>, pool: nat, item: Item, v: Vault)
    requires Knows(keys, tuples, ids, v) && Consistent(item, v)
    ensures Knows(keys + NewKeys(pool, item), tuples + {PlainKey(pool, item)}, ids, v)
  {
    var plain, cipher := PlainKey(pool, item), CipherKey(pool, item);
    forall k | k in keys + NewKeys(pool, item)
      ensures Stands(k, tuples + {plain}, v)
    {
      if k in keys {
        assert Stands(k, tuples, v);
      } else if k == cipher && item.encrypted != "" {
        assert Decrypted(cipher, v) == plain;
      }
    }
  }

  lemma RowKeysStand(row: Row, tuples: set<Key>, v: Vault)
    requires Readable(row, v) && TupleOf(row, v) in tuples
    ensures forall k :: k in RowKeys(row, v) ==> Stands(k, tuples, v)
    ensures TupleOf(row, v) in RowKeys(row, v)
  {
    var cipher := Key(row.pool, row.provider, row.encrypted, row.baseURL, row.prefix);
    assert Decrypted(cipher, v) == TupleOf(row, v);
  }

  lemma StandsAmongMore(k: Key, tuples: set<Key>, more: set<Key>, v: Vault)
    requires Stands(k, tuples, v)
    ensures Stands(k, tuples + more, v)
  {
  }

  lemma {:induction false} IndexedKnows(rows: seq<Row>, ids: set<nat>, v: Vault)
    requires AllReadable(rows, v)
    ensures Knows(Indexed(rows, ids, v), Tuples(rows, v), ids, v)
  {
    if rows != [] {
      var front, last := rows[..|rows| - 1], rows[|rows| - 1];
      IndexedKnows(front, ids, v);
      RowKeysStand(last, Tuples(rows, v), v);
      forall k | k in Indexed(front, ids, v)
        ensures Stands(k, Tuples(rows, v), v)
      {
        StandsAmongMore(k, Tuples(front, v), {TupleOf(last, v)}, v);
      }
    }
  }

  // ----- Binding keeps the tables in order -----

  /** The rows queued bind what was not bound before, each something else. */
  ghost predicate AddsNew(rows: seq<Row>, all: seq<Row>, v: Vault) {
    && |all| - |rows| == |Tuples(all, v)| - |Tuples(rows, v)|
    && (NoTwoAlike(rows, v) ==> NoTwoAlike(all, v))
  }

  /** The index of `b` is right for the rows of the table and those queued. */
  ghost predicate InOrder(b: Binding, keys: set<Key>, rows: seq<Row>, ids: set<nat>, v: Vault) {
    && AllReadable(rows + b.rows, v) && AddsNew(rows, rows + b.rows, v)
    && b.index == Entries(keys)
    && Knows(keys, Tuples(rows + b.rows, v), ids, v)
  }

  lemma EntriesUnion(a: set<Key>, b: set<Key>)
    ensures Entries(a + b) == Entries(a) + Entries(b)
  {
  }

  /** The ciphers in hand fit the raw keys of the items. */
  predicate Fits(ciphers: map<string, string>, item: Item, v: Vault) {
    && CacheKey(item.provider, item.raw) in ciphers
    && IsCipherOf(ciphers[CacheKey(item.provider, item.raw)], item.raw, v)
  }

  lemma NewRowIsReadable(pool: nat, item: Item, ciphers: map<string, string>, v: Vault)
    requires Consistent(item, v) && Fits(ciphers, item, v)
    ensures var row := NewRow(pool, item, StoredCipher(item, ciphers));
            StoredCipher(item, ciphers) != "" && Readable(row, v) && TupleOf(row, v) == PlainKey(pool, item)
  {
  }

  /** `after` is in order and has bound `added` on top of `b`. */
  ghost predicate GroupBound(b: Binding, after: Binding, keys: set<Key>, rows: seq<Row>, ids: set<nat>, added: set<Key>, v: Vault) {
    InOrder(after, keys, rows, ids, v) && Tuples(rows + after.rows, v) == Tuples(rows + b.rows, v) + added
  }

  lemma GroupBoundTwice(b: Binding, mid: Binding, after: Binding, midKeys: set<Key>, keys: set<Key>, rows: seq<Row>, ids: set<nat>, x: set<Key>, y: set<Key>, z: set<Key>, v: Vault)
    requires GroupBound(b, mid, midKeys, rows, ids, x, v) && GroupBound(mid, after, keys, rows, ids, y, v) && z == x + y
    ensures GroupBound(b, after, keys, rows, ids, z, v)
  {
  }

  /** Queueing a row that is new. */
  lemma QueueKeeps(b: Binding, keys: set<Key>, rows: seq<Row>, ids: set<nat>, pool: nat, item: Item, row: Row, v: Vault)
    requires InOrder(b, keys, rows, ids, v) && Consistent(item, v)
    requires Readable(row, v) && TupleOf(row, v) == PlainKey(pool, item)
    requires PlainKey(pool, item) !in Tuples(rows + b.rows, v)
    ensures GroupBound(b, Binding(b.index + Entries(NewKeys(pool, item)), b.rows + [row]), keys + NewKeys(pool, item),
                       rows, ids, {PlainKey(pool, item)}, v)
  {
    var all := rows + b.rows;
    OneMoreRow(all, row, v);
    KnowsMore(keys, Tuples(all, v), ids, pool, item, v);
    EntriesUnion(keys, NewKeys(pool, item));
    assert rows + (b.rows + [row]) == all + [row];
  }

  /** Binding one item adds its tuple, once. */
  lemma BindKeeps(b: Binding, keys: set<Key>, rows: seq<Row>, ids: set<nat>, pool: nat, item: Item, ciphers: map<string, string>, v: Vault)
    returns (after: set<Key>)
    requires InOrder(b, keys, rows, ids, v) && pool in ids
    requires Consistent(item, v) && Fits(ciphers, item, v)
    ensures GroupBound(b, Bind(b, pool, item, ciphers), after, rows, ids, {PlainKey(pool, item)}, v)
  {
    var tuples := Tuples(rows + b.rows, v);
    LookupIsExact(keys, tuples, ids, pool, item, v);
    if PlainKey(pool, item) in tuples {
      after := keys;
      NothingAdded(tuples, {PlainKey(pool, item)});
    } else {
      NewRowIsReadable(pool, item, ciphers, v);
      QueueKeeps(b, keys, rows, ids, pool, item, NewRow(pool, item, StoredCipher(item, ciphers)), v);
      after := keys + NewKeys(pool, item);
    }
  }

  function TuplesOf(pool: nat, group: seq<Item>): set<Key> {
    set item | item in group :: PlainKey(pool, item)
  }

  lemma TuplesOfOneMore(pool: nat, group: seq<Item>)
    requires group != []
    ensures TuplesOf(pool, group) == TuplesOf(pool, group[..|group| - 1]) + {PlainKey(pool, group[|group| - 1])}
  {
    assert group == group[..|group| - 1] + [group[|group| - 1]];
  }

  lemma {:induction false} BindGroupKeeps(b: Binding, keys: set<Key>, rows: seq<Row>, ids: set<nat>, pool: nat, group: seq<Item>, ciphers: map<string, string>, v: Vault)
    returns (after: set<Key>)
    requires InOrder(b, keys, rows, ids, v) && pool in ids
    requires forall item :: item in group ==> Consistent(item, v) && Fits(ciphers, item, v)
    ensures GroupBound(b, BindGroup(b, pool, group, ciphers), after, rows, ids, TuplesOf(pool, group), v)
  {
    if group == [] {
      after := keys;
    } else {
      var front, last := group[..|group| - 1], group[|group| - 1];
      assert last in group && forall item :: item in front ==> item in group;
      var midKeys := BindGroupKeeps(b, keys, rows, ids, pool, front, ciphers, v);
      var mid := BindGroup(b, pool, front, ciphers);
      after := BindKeeps(mid, midKeys, rows, ids, pool, last, ciphers, v);
      TuplesOfOneMore(pool, group);
      GroupBoundTwice(b, mid, Bind(mid, pool, last, ciphers), midKeys, after, rows, ids,
                      TuplesOf(pool, front), {PlainKey(pool, last)}, TuplesOf(pool, group), v);
    }
  }

  function IdOf(pools: map<string, PoolRow>, pattern: string): nat {
    if pattern in pools then pools[pattern].id else 0
  }

  /** The bindings the items ask for. */
  function Wanted(items: seq<Item>, patterns: seq<string>, pools: map<string, PoolRow>): set<Key> {
    set item | item in items && item.pattern in patterns :: PlainKey(IdOf(pools, item.pattern), item)
  }

  lemma {:induction false} BindAllKeeps(b: Binding, keys: set<Key>, rows: seq<Row>, ids: set<nat>, patterns: seq<string>, items: seq<Item>, pools: map<string, PoolRow>, ciphers: map<string, string>, v: Vault)
    returns (after: set<Key>)
    requires InOrder(b, keys, rows, ids, v) && Have(patterns, pools)
    requires forall p :: p in patterns ==> pools[p].id in ids
    requires forall item :: item in items ==> Consistent(item, v) && Fits(ciphers, item, v)
    ensures GroupBound(b, BindAll(b, patterns, items, pools, ciphers), after, rows, ids, Wanted(items, patterns, pools), v)
  {
    if patterns == [] {
      after := keys;
      assert Wanted(items, patterns, pools) == {};
    } else {
      var front, last := patterns[..|patterns| - 1], patterns[|patterns| - 1];
      assert patterns == front + [last];
      var midKeys := BindAllKeeps(b, keys, rows, ids, front, items, pools, ciphers, v);
      var mid, group := BindAll(b, front, items, pools, ciphers), GroupOf(items, last);
      after := BindGroupKeeps(mid, midKeys, rows, ids, pools[last].id, group, ciphers, v);
      WantedOneMore(items, front, last, pools);
      GroupBoundTwice(b, mid, BindGroup(mid, pools[last].id, group, ciphers), midKeys, after, rows, ids,
                      Wanted(items, front, pools), TuplesOf(pools[last].id, group), Wanted(items, patterns, pools), v);
    }
  }

  lemma WantedOneMore(items: seq<Item>, patterns: seq<string>, p: string, pools: map<string, PoolRow>)
    ensures Wanted(items, patterns + [p], pools) == Wanted(items, patterns, pools) + TuplesOf(IdOf(pools, p), GroupOf(items, p))
  {
  }

  // ----- Ciphers -----

  ghost predicate CacheFits(ciphers: map<string, string>, v: Vault) {
    forall provider, raw :: ':' !in provider && CacheKey(provider, raw) in ciphers ==>
      IsCipherOf(ciphers[CacheKey(provider, raw)], raw, v)
  }

  lemma CacheKeyInjective(p: string, r: string, q: string, t: string)
    requires ':' !in p && ':' !in q && CacheKey(p, r) == CacheKey(q, t)
    ensures p == q && r == t
  {
    SplitAtSeparator(p, q, r, t, ':');
  }

  lemma CacheFitsMore(ciphers: map<string, string>, v: Vault, provider: string, raw: string, cipher: string)
    requires CacheFits(ciphers, v) && ':' !in provider && IsCipherOf(cipher, raw, v)
    ensures CacheFits(ciphers[CacheKey(provider, raw) := cipher], v)
  {
    forall p, r | ':' !in p && CacheKey(p, r) in ciphers[CacheKey(provider, raw) := cipher]
      ensures IsCipherOf(ciphers[CacheKey(provider, raw) := cipher][CacheKey(p, r)], r, v)
    {
      if CacheKey(p, r) == CacheKey(provider, raw) {
        CacheKeyInjective(p, r, provider, raw);
      }
    }
  }

  /** The cache holds, for every item, a cipher of its own key. */
  lemma {:induction false} CiphersFit(items: seq<Item>, v: Vault, nonce: nat)
    requires Sound(v) && Ciphers(items, v, nonce).Some?
    requires forall item :: item in items ==> Consistent(item, v)
    ensures CacheFits(Ciphers(items, v, nonce).value, v)
    ensures forall item :: item in items ==> Fits(Ciphers(items, v, nonce).value, item, v)
  {
    if items != [] {
      var front, last := items[..|items| - 1], items[|items| - 1];
      assert items == front + [last];
      assert last in items && Consistent(last, v);
      CiphersFit(front, v, nonce);
      var cache := Ciphers(front, v, nonce).value;
      if CacheKey(last.provider, last.raw) !in cache {
        CacheFitsMore(cache, v, last.provider, last.raw, v.encrypt(nonce + |cache|, last.raw).value);
      }
      CachedItemsFit(Ciphers(items, v, nonce).value, items, v);
    }
  }

  lemma CachedItemsFit(ciphers: map<string, string>, items: seq<Item>, v: Vault)
    requires CacheFits(ciphers, v)
    requires forall item :: item in items ==> Consistent(item, v) && CacheKey(item.provider, item.raw) in ciphers
    ensures forall item :: item in items ==> Fits(ciphers, item, v)
  {
  }

  // ----- The batch as a whole -----

  /** Tables as the gateway finds them: pools have ids of their own, and credentials can be
      read. The same credential may be there twice. */
  ghost predicate Sane(t: Tables, v: Vault) {
    && AllReadable(t.rows, v)
    && (forall p :: p in t.pools ==> t.pools[p].id < t.nextId)
    && (forall p, q :: p in t.pools && q in t.pools && t.pools[p].id == t.pools[q].id ==> p == q)
  }

  ghost predicate IdsDiffer(u: Upserted) {
    && (forall p :: p in u.pools ==> u.pools[p].id < u.nextId)
    && (forall p, q :: p in u.pools && q in u.pools && u.pools[p].id == u.pools[q].id ==> p == q)
  }

  ghost predicate Grown(before: map<string, PoolRow>, u: Upserted) {
    && (forall p :: p in before ==> p in u.pools && u.pools[p].id == before[p].id)
    && u.created == |u.pools| - |before|
  }

  lemma UpdateSane(before: map<string, PoolRow>, u: Upserted, pattern: string, capabilities: set<Capability>)
    requires IdsDiffer(u) && Grown(before, u) && pattern in u.pools
    ensures IdsDiffer(Upsert(u, pattern, capabilities)) && Grown(before, Upsert(u, pattern, capabilities))
  {
    var pools := Upsert(u, pattern, capabilities).pools;
    assert pools.Keys == u.pools.Keys;
    assert |pools| == |pools.Keys| && |u.pools| == |u.pools.Keys|;
    assert forall p :: p in pools ==> pools[p].id == u.pools[p].id;
  }

  lemma InsertSane(before: map<string, PoolRow>, u: Upserted, pattern: string, capabilities: set<Capability>)
    requires IdsDiffer(u) && Grown(before, u) && pattern !in u.pools
    ensures IdsDiffer(Upsert(u, pattern, capabilities)) && Grown(before, Upsert(u, pattern, capabilities))
  {
    var pools := Upsert(u, pattern, capabilities).pools;
    assert forall p :: p in pools && p != pattern ==> p in u.pools && pools[p] == u.pools[p];
  }

  lemma {:induction false} UpsertAllSane(t: Tables, patterns: seq<string>, items: seq<Item>, v: Vault)
    requires Sane(t, v)
    ensures IdsDiffer(UpsertAll(t, patterns, items)) && Grown(t.pools, UpsertAll(t, patterns, items))
  {
    if patterns != [] {
      var front, last := patterns[..|patterns| - 1], patterns[|patterns| - 1];
      UpsertAllSane(t, front, items, v);
      var u, capabilities := UpsertAll(t, front, items), CapabilitiesOf(GroupOf(items, last));
      if last in u.pools {
        UpdateSane(t.pools, u, last, capabilities);
      } else {
        InsertSane(t.pools, u, last, capabilities);
      }
    }
  }

  lemma {:induction false} UpsertAllSets(t: Tables, patterns: seq<string>, items: seq<Item>)
    ensures forall p :: p in patterns ==>
              p in UpsertAll(t, patterns, items).pools
              && UpsertAll(t, patterns, items).pools[p].capabilities == CapabilitiesOf(GroupOf(items, p))
    ensures forall p :: p in t.pools && p !in patterns ==>
              p in UpsertAll(t, patterns, items).pools && UpsertAll(t, patterns, items).pools[p] == t.pools[p]
  {
    if patterns != [] {
      UpsertAllSets(t, patterns[..|patterns| - 1], items);
      assert patterns == patterns[..|patterns| - 1] + [patterns[|patterns| - 1]];
    }
  }

  lemma PatternsCover(items: seq<Item>)
    ensures forall p :: p in SortedPatterns(items) <==> p != "" && exists item :: item in items && item.pattern == p
  {
    forall p
      ensures p in SortedPatterns(items) <==> p != "" && exists item :: item in items && item.pattern == p
    {
      if p in SortedPatterns(items) {
        var i :| 0 <= i < |items| && items[i].pattern == p;
        assert items[i] in items;
      }
    }
  }

  /** Rows are locked in increasing order of their patterns. */
  lemma PatternsAreSorted(items: seq<Item>)
    ensures Increasing(SortedPatterns(items))
  {
    SortIncreasing(PatternsOf(items));
  }

  /** The transactions of several batches before any has locked a row. */
  function Transactions(jobs: seq<seq<Item>>): LockOrder.State {
    seq(|jobs|, i requires 0 <= i < |jobs| => LockOrder.Tx(SortedPatterns(jobs[i]), 0, false))
  }

  /** However the batches of several jobs interleave, they never wait for each other in a
      ring, and one of those unfinished can take its next lock or commit. */
  lemma BatchesNeverDeadlock(jobs: seq<seq<Item>>, run: seq<LockOrder.State>, cycle: seq<nat>)
    requires run != [] && run[0] == Transactions(jobs)
    requires forall k :: 0 <= k < |run| - 1 ==> LockOrder.Follows(run[k], run[k + 1])
    ensures !LockOrder.WaitCycle(LockOrder.Last(run), cycle)
    ensures !LockOrder.AllDone(LockOrder.Last(run)) ==> exists i :: LockOrder.CanAdvance(LockOrder.Last(run), i)
  {
    forall i | 0 <= i < |jobs|
      ensures Increasing(SortedPatterns(jobs[i]))
    {
      PatternsAreSorted(jobs[i]);
    }
    assert LockOrder.Initial(run[0]);
    LockOrder.NoDeadlock(run, cycle);
    if !LockOrder.AllDone(LockOrder.Last(run)) {
      LockOrder.SomeoneCanStep(run);
    }
  }

  ghost predicate AllConsistent(items: seq<Item>, v: Vault) {
    forall item :: item in items ==> Consistent(item, v)
  }

  /** What the batch does to the credentials: the rows stay, afterwards exactly the old
      bindings and those the items ask for are there, every row added binds something new,
      the count of them is right, and no two rows are alike if none were. */
  lemma BatchBinds(t: Tables, items: seq<Item>, v: Vault, nonce: nat)
    requires Sane(t, v) && Sound(v) && AllConsistent(items, v) && Ciphers(items, v, nonce).Some?
    ensures var r := Batch(t, items, v, nonce);
            && !r.failed && AllReadable(r.tables.rows, v) && t.rows <= r.tables.rows
            && (NoTwoAlike(t.rows, v) ==> NoTwoAlike(r.tables.rows, v))
            && Tuples(r.tables.rows, v) == Tuples(t.rows, v) + Wanted(items, SortedPatterns(items), r.tables.pools)
            && r.bound == |r.tables.rows| - |t.rows| == |Tuples(r.tables.rows, v)| - |Tuples(t.rows, v)|
  {
    var patterns := SortedPatterns(items);
    if patterns == [] {
      assert Wanted(items, patterns, t.pools) == {};
    } else {
      var ciphers := Ciphers(items, v, nonce).value;
      var u := UpsertAll(t, patterns, items);
      UpsertAllHas(t, patterns, items);
      var ids := Ids(patterns, u.pools);
      var keys := Indexed(t.rows, ids, v);
      var start := Binding(Entries(keys), []);
      assert t.rows + [] == t.rows;
      IndexedKnows(t.rows, ids, v);
      CiphersFit(items, v, nonce);
      var after := BindAllKeeps(start, keys, t.rows, ids, patterns, items, u.pools, ciphers, v);
    }
  }

  /** In a table without duplicates there is one row for each binding afterwards. */
  lemma RowsAreBindings(t: Tables, items: seq<Item>, v: Vault, nonce: nat)
    requires Sane(t, v) && Sound(v) && AllConsistent(items, v) && Ciphers(items, v, nonce).Some?
    requires NoTwoAlike(t.rows, v)
    ensures var r := Batch(t, items, v, nonce);
            |r.tables.rows| == |Tuples(t.rows, v) + Wanted(items, SortedPatterns(items), r.tables.pools)|
  {
    BatchBinds(t, items, v, nonce);
    TupleCount(Batch(t, items, v, nonce).tables.rows, v);
  }

  /** What the batch does to the pools: the patterns of the items get a row, keeping the id
      they had, with the union of the flags of all their items; other rows stay. */
  lemma BatchPools(t: Tables, items: seq<Item>, v: Vault, nonce: nat)
    requires Sane(t, v) && Sound(v) && AllConsistent(items, v) && Ciphers(items, v, nonce).Some?
    ensures var r := Batch(t, items, v, nonce);
            && Sane(r.tables, v)
            && (forall p :: p in r.tables.pools <==> p in t.pools || p in SortedPatterns(items))
            && (forall p :: p in t.pools ==> r.tables.pools[p].id == t.pools[p].id)
            && (forall p :: p in SortedPatterns(items) ==> r.tables.pools[p].capabilities == CapabilitiesOf(GroupOf(items, p)))
            && (forall p :: p in t.pools && p !in SortedPatterns(items) ==> r.tables.pools[p] == t.pools[p])
  {
    var patterns := SortedPatterns(items);
    BatchBinds(t, items, v, nonce);
    UpsertAllHas(t, patterns, items);
    UpsertAllSane(t, patterns, items, v);
    UpsertAllSets(t, patterns, items);
  }

  /** What the two counts of the batch say. */
  lemma NotifiedByCounts(t: Tables, items: seq<Item>, v: Vault, nonce: nat)
    requires Sane(t, v) && Ciphers(items, v, nonce).Some?
    ensures var r := Batch(t, items, v, nonce);
            && t.pools.Keys <= r.tables.pools.Keys
            && (r.notified <==> |r.tables.pools| > |t.pools| || r.bound > 0)
  {
    UpsertAllSane(t, SortedPatterns(items), items, v);
  }

  lemma MapGrewIff<T, U>(a: map<T, U>, b: map<T, U>)
    requires a.Keys <= b.Keys
    ensures |b| > |a| <==> b.Keys != a.Keys
  {
    assert |a| == |a.Keys| && |b| == |b.Keys|;
    if a.Keys != b.Keys {
      BiggerSet(a.Keys, b.Keys);
    }
  }

  lemma SetGrewIff<T>(a: set<T>, b: set<T>)
    requires a <= b
    ensures |b| > |a| <==> b != a
  {
    if a != b {
      BiggerSet(a, b);
    }
  }

  /** A reload is announced, once, exactly when a pool or a binding is new. */
  lemma NotifiesIffNew(t: Tables, items: seq<Item>, v: Vault, nonce: nat)
    requires Sane(t, v) && Sound(v) && AllConsistent(items, v) && Ciphers(items, v, nonce).Some?
    ensures var r := Batch(t, items, v, nonce);
            r.notified <==> r.tables.pools.Keys != t.pools.Keys || Tuples(r.tables.rows, v) != Tuples(t.rows, v)
  {
    var r := Batch(t, items, v, nonce);
    NotifiedByCounts(t, items, v, nonce);
    BatchBinds(t, items, v, nonce);
    MapGrewIff(t.pools, r.tables.pools);
    SetGrewIff(Tuples(t.rows, v), Tuples(r.tables.rows, v));
  }

  lemma BiggerSet<T>(a: set<T>, b: set<T>)
    requires a <= b && a != b
    ensures |a| < |b|
  {
    var c := b - a;
    assert b == a + c && c != {};
    assert |b| == |a| + |c|;
  }

  // ----- Order and repetition do not matter -----

  ghost predicate SameItems(a: seq<Item>, b: seq<Item>) {
    forall item :: item in a <==> item in b
  }

  lemma SamePatterns(a: seq<Item>, b: seq<Item>)
    requires SameItems(a, b)
    ensures SortedPatterns(a) == SortedPatterns(b)
  {
    PatternsCover(a);
    PatternsCover(b);
    PatternsAreSorted(a);
    PatternsAreSorted(b);
    IncreasingUnique(SortedPatterns(a), SortedPatterns(b));
  }

  lemma SameCapabilities(a: seq<Item>, b: seq<Item>, p: string)
    requires SameItems(a, b)
    ensures CapabilitiesOf(GroupOf(a, p)) == CapabilitiesOf(GroupOf(b, p))
  {
    CapabilitiesWithin(GroupOf(a, p), GroupOf(b, p));
    CapabilitiesWithin(GroupOf(b, p), GroupOf(a, p));
  }

  lemma CapabilitiesWithin(a: seq<Item>, b: seq<Item>)
    requires forall item :: item in a ==> item in b
    ensures CapabilitiesOf(a) <= CapabilitiesOf(b)
  {
    forall c | c in CapabilitiesOf(a)
      ensures c in CapabilitiesOf(b)
    {
      var i :| 0 <= i < |a| && c in a[i].capabilities;
      assert a[i] in b;
      var j :| 0 <= j < |b| && b[j] == a[i];
    }
  }

  lemma {:induction false} SameUpserts(t: Tables, patterns: seq<string>, a: seq<Item>, b: seq<Item>)
    requires SameItems(a, b)
    ensures UpsertAll(t, patterns, a) == UpsertAll(t, patterns, b)
  {
    if patterns != [] {
      SameUpserts(t, patterns[..|patterns| - 1], a, b);
      SameCapabilities(a, b, patterns[|patterns| - 1]);
    }
  }

  /** The order in which the workers appended their items, and repeated items, change
      neither the pools nor the set of bindings nor the counts. */
  lemma OrderDoesNotMatter(t: Tables, a: seq<Item>, b: seq<Item>, v: Vault, m: nat, n: nat)
    requires Sane(t, v) && Sound(v) && AllConsistent(a, v) && SameItems(a, b)
    requires Ciphers(a, v, m).Some? && Ciphers(b, v, n).Some?
    ensures var r, q := Batch(t, a, v, m), Batch(t, b, v, n);
            && r.tables.pools == q.tables.pools && r.tables.nextId == q.tables.nextId
            && Tuples(r.tables.rows, v) == Tuples(q.tables.rows, v)
            && r.synced == q.synced && r.bound == q.bound && r.notified == q.notified
  {
    SamePatterns(a, b);
    SameUpserts(t, SortedPatterns(a), a, b);
    SamePools(t, a, b, v, m, n);
    BatchBinds(t, a, v, m);
    BatchBinds(t, b, v, n);
    SameWanted(a, b, SortedPatterns(a), Batch(t, a, v, m).tables.pools);
    NotifiesIffNew(t, a, v, m);
    NotifiesIffNew(t, b, v, n);
  }

  lemma SamePools(t: Tables, a: seq<Item>, b: seq<Item>, v: Vault, m: nat, n: nat)
    requires SortedPatterns(a) == SortedPatterns(b)
    requires UpsertAll(t, SortedPatterns(a), a) == UpsertAll(t, SortedPatterns(a), b)
    requires Ciphers(a, v, m).Some? && Ciphers(b, v, n).Some?
    ensures var r, q := Batch(t, a, v, m), Batch(t, b, v, n);
            r.tables.pools == q.tables.pools && r.tables.nextId == q.tables.nextId && r.synced == q.synced
  {
  }

  lemma SameWanted(a: seq<Item>, b: seq<Item>, patterns: seq<string>, pools: map<string, PoolRow>)
    requires SameItems(a, b)
    ensures Wanted(a, patterns, pools) == Wanted(b, patterns, pools)
  {
  }

  lemma {:induction false} UpsertNothingNew(t: Tables, patterns: seq<string>, items: seq<Item>)
    requires forall p :: p in patterns ==> p in t.pools && t.pools[p].capabilities == CapabilitiesOf(GroupOf(items, p))
    ensures UpsertAll(t, patterns, items) == Upserted(t.pools, t.nextId, 0)
  {
    if patterns != [] {
      var front, last := patterns[..|patterns| - 1], patterns[|patterns| - 1];
      assert patterns == front + [last];
      UpsertNothingNew(t, front, items);
      assert t.pools[last := PoolRow(t.pools[last].id, t.pools[last].capabilities)] == t.pools;
    }
  }

  ghost predicate PoolsUpToDate(t: Tables, items: seq<Item>) {
    forall p :: p in SortedPatterns(items) ==>
      p in t.pools && t.pools[p].capabilities == CapabilitiesOf(GroupOf(items, p))
  }

  lemma IdlePools(t: Tables, items: seq<Item>, v: Vault, nonce: nat)
    requires PoolsUpToDate(t, items)
    ensures var r := Batch(t, items, v, nonce);
            r.tables.pools == t.pools && r.tables.nextId == t.nextId && (r.notified <==> r.bound > 0)
  {
    UpsertNothingNew(t, SortedPatterns(items), items);
  }

  /** A batch that asks for nothing new. */
  lemma NothingNew(t: Tables, items: seq<Item>, v: Vault, nonce: nat)
    requires Sane(t, v) && Sound(v) && AllConsistent(items, v) && Ciphers(items, v, nonce).Some?
    requires PoolsUpToDate(t, items)
    requires Wanted(items, SortedPatterns(items), t.pools) <= Tuples(t.rows, v)
    ensures var r := Batch(t, items, v, nonce);
            r.tables == t && r.bound == 0 && !r.notified
  {
    var r := Batch(t, items, v, nonce);
    IdlePools(t, items, v, nonce);
    BatchBinds(t, items, v, nonce);
    NothingAdded(Tuples(t.rows, v), Wanted(items, SortedPatterns(items), t.pools));
    SamePrefix(t.rows, r.tables.rows);
  }

  lemma NothingAdded<T>(a: set<T>, b: set<T>)
    requires b <= a
    ensures a + b == a
  {
  }

  lemma SamePrefix<T>(a: seq<T>, b: seq<T>)
    requires a <= b && |a| == |b|
    ensures a == b
  {
  }

  /** Running the batch again with the same items, in any order, changes nothing and
      announces nothing. */
  lemma SecondRunIsIdle(t: Tables, a: seq<Item>, b: seq<Item>, v: Vault, m: nat, n: nat)
    requires Sane(t, v) && Sound(v) && AllConsistent(a, v) && SameItems(a, b)
    requires Ciphers(a, v, m).Some? && Ciphers(b, v, n).Some?
    ensures var first := Batch(t, a, v, m);
            var second := Batch(first.tables, b, v, n);
            second.tables == first.tables && second.bound == 0 && !second.notified
  {
    var mid, patterns := Batch(t, a, v, m).tables, SortedPatterns(a);
    BatchBinds(t, a, v, m);
    BatchPools(t, a, v, m);
    SamePatterns(a, b);
    forall p | p in patterns
      ensures p in mid.pools && mid.pools[p].capabilities == CapabilitiesOf(GroupOf(b, p))
    {
      SameCapabilities(a, b, p);
    }
    SameWanted(a, b, patterns, mid.pools);
    NothingNew(mid, b, v, n);
  }

  // ----- Bars lose bindings -----

  const EMPTY := Tables(map[], 0, [])

  lemma OneItem(item: Item)
    requires item.pattern != ""
    ensures SortedPatterns([item]) == [item.pattern] && GroupOf([item], item.pattern) == [item]
  {
    assert [item][..0] == [];
    assert PatternsOf([item]) == [item.pattern];
    assert Sort([item.pattern][1..]) == [];
    assert GroupOf([item][..0], item.pattern) == [];
  }

  lemma TwoItems(a: Item, b: Item)
    requires a.pattern == b.pattern != ""
    ensures SortedPatterns([a, b]) == [a.pattern] && GroupOf([a, b], a.pattern) == [a, b]
  {
    OneItem(a);
    assert [a, b][..1] == [a] && [a][..0] == [];
    assert PatternsOf([a]) == [a.pattern];
  }

  /** A batch whose items all go to the pool with number 0. */
  lemma BatchOfGroup(t: Tables, p: string, items: seq<Item>, v: Vault, nonce: nat, ciphers: map<string, string>)
    requires SortedPatterns(items) == [p] && GroupOf(items, p) == items && Ciphers(items, v, nonce) == Some(ciphers)
    requires t == EMPTY || (p in t.pools && t.pools[p].id == 0)
    ensures var r := Batch(t, items, v, nonce);
            && p in r.tables.pools && r.tables.pools[p].id == 0 && !r.failed
            && r.tables.rows == t.rows + BindGroup(Binding(Entries(Indexed(t.rows, {0}, v)), []), 0, items, ciphers).rows
  {
    assert [p][..0] == [];
    var u := UpsertAll(t, [p], items);
    assert UpsertAll(t, [p][..0], items) == Upserted(t.pools, t.nextId, 0);
    assert u.pools[p].id == 0;
    assert forall q :: q in [p] <==> q == p;
    assert Ids([p], u.pools) == {0};
    var start := Binding(Entries(Indexed(t.rows, {0}, v)), []);
    assert BindAll(start, [p], items, u.pools, ciphers) == BindGroup(start, 0, items, ciphers);
  }

  lemma BatchOfOne(t: Tables, item: Item, v: Vault, nonce: nat, ciphers: map<string, string>)
    requires item.pattern != "" && Ciphers([item], v, nonce) == Some(ciphers)
    requires t == EMPTY || (item.pattern in t.pools && t.pools[item.pattern].id == 0)
    ensures var r := Batch(t, [item], v, nonce);
            && item.pattern in r.tables.pools && r.tables.pools[item.pattern].id == 0 && !r.failed
            && r.tables.rows == t.rows + Bind(Binding(Entries(Indexed(t.rows, {0}, v)), []), 0, item, ciphers).rows
  {
    OneItem(item);
    BatchOfGroup(t, item.pattern, [item], v, nonce, ciphers);
    assert [item][..0] == [];
  }

  lemma CipherOfOne(item: Item, v: Vault, nonce: nat)
    requires item.raw != "" && v.encrypt(nonce, item.raw).Some?
    ensures Ciphers([item], v, nonce) == Some(map[CacheKey(item.provider, item.raw) := v.encrypt(nonce, item.raw).value])
  {
    assert [item][..0] == [];
  }

  /** The first item is stored. */
  lemma FirstIsStored(a: Item, v: Vault, m: nat) returns (row: Row)
    requires Sound(v) && v.encrypt(m, a.raw).Some? && a.pattern != "" && a.raw != "" && a.encrypted == ""
    ensures var t := Batch(EMPTY, [a], v, m).tables;
            t.rows == [row] && a.pattern in t.pools && t.pools[a.pattern].id == 0
    ensures HoldsKeyOf(row, a, v)
  {
    var cipher := v.encrypt(m, a.raw).value;
    assert IsCipherOf(cipher, a.raw, v);
    CipherOfOne(a, v, m);
    BatchOfOne(EMPTY, a, v, m, Ciphers([a], v, m).value);
    row := NewRow(0, a, cipher);
    assert Indexed([], {0}, v) == {};
  }

  /** The row holds the item's key for pool 0. */
  predicate HoldsKeyOf(row: Row, a: Item, v: Vault) {
    row.pool == 0 && v.decrypt(row.encrypted) == Some(a.raw) && TupleOf(row, v) == PlainKey(0, a)
  }

  /** An item with the entry of a stored row is skipped. */
  lemma SecondIsSkipped(t: Tables, row: Row, a: Item, b: Item, v: Vault, n: nat)
    requires t.rows == [row] && HoldsKeyOf(row, a, v) && a.raw != ""
    requires b.pattern in t.pools && t.pools[b.pattern].id == 0
    requires v.encrypt(n, b.raw).Some? && b.pattern != "" && b.raw != ""
    requires Entry(PlainKey(0, a)) == Entry(PlainKey(0, b))
    ensures var second := Batch(t, [b], v, n);
            second.tables.rows == t.rows && !second.failed
            && b.pattern in second.tables.pools && second.tables.pools[b.pattern].id == 0
  {
    CipherOfOne(b, v, n);
    BatchOfOne(t, b, v, n, Ciphers([b], v, n).value);
    assert [row][..0] == [];
    assert Indexed(t.rows, {0}, v) == RowKeys(row, v);
    assert PlainKey(0, a) in RowKeys(row, v);
    assert Entry(PlainKey(0, b)) in Entries(RowKeys(row, v));
  }

  /** From empty tables: after the first item is bound, the second, which differs from it but
      has the same entry, is taken for bound and never stored. */
  lemma CollisionLosesBinding(a: Item, b: Item, v: Vault, m: nat, n: nat)
    requires Sound(v) && v.encrypt(m, a.raw).Some? && v.encrypt(n, b.raw).Some?
    requires a.pattern == b.pattern != "" && a.raw != "" && b.raw != "" && a.encrypted == ""
    requires PlainKey(0, a) != PlainKey(0, b) && Entry(PlainKey(0, a)) == Entry(PlainKey(0, b))
    ensures var first := Batch(EMPTY, [a], v, m);
            var second := Batch(first.tables, [b], v, n);
            && Tuples(first.tables.rows, v) == {PlainKey(0, a)}
            && !second.failed && second.tables.rows == first.tables.rows
            && PlainKey(IdOf(second.tables.pools, b.pattern), b) !in Tuples(second.tables.rows, v)
  {
    var row := FirstIsStored(a, v, m);
    assert [row][..0] == [];
    assert Tuples([row], v) == {PlainKey(0, a)};
    SecondIsSkipped(Batch(EMPTY, [a], v, m).tables, row, a, b, v, n);
  }

  /** Two such items: a key with a bar, and a base URL with one. */
  lemma CollisionHappens() returns (a: Item, b: Item)
    ensures a.pattern == b.pattern != "" && a.raw != "" && b.raw != "" && a.encrypted == ""
    ensures PlainKey(0, a) != PlainKey(0, b) && Entry(PlainKey(0, a)) == Entry(PlainKey(0, b))
  {
    a := Item("m", "p", "u", "k|x", "", 1, "", {});
    b := Item("m", "p", "x|u", "k", "", 1, "", {});
    assert PlainKey(0, a).key != PlainKey(0, b).key;
  }

  // ----- Colons give away the wrong cipher -----

  /** Another key has the same place in the cache exactly when this one or its provider's
      name holds a colon. */
  lemma CachesAlikeIff(provider: string, raw: string)
    ensures (exists q, r :: (q != provider || r != raw) && CacheKey(q, r) == CacheKey(provider, raw))
       <==> ':' in provider || ':' in raw
  {
    var place := CacheKey(provider, raw);
    if ':' in provider {
      var i :| 0 <= i < |provider| && provider[i] == ':';
      assert CacheKey(provider[..i], provider[i + 1..] + ":" + raw) == place;
      assert provider[..i] != provider;
    } else if ':' in raw {
      var i :| 0 <= i < |raw| && raw[i] == ':';
      assert CacheKey(provider + ":" + raw[..i], raw[i + 1..]) == place;
      assert |provider + ":" + raw[..i]| > |provider|;
    } else {
      forall q, r | CacheKey(q, r) == place
        ensures q == provider && r == raw
      {
        assert CacheKey(q, r)[|q|] == ':';
        assert forall i :: 0 <= i < |place| && place[i] == ':' ==> i == |provider|;
        assert q == place[..|q|] && r == place[|q| + 1..];
      }
    }
  }

  lemma CiphersOfTwo(a: Item, b: Item, v: Vault, nonce: nat)
    requires v.encrypt(nonce, a.raw).Some? && a.raw != "" && CacheKey(a.provider, a.raw) == CacheKey(b.provider, b.raw)
    ensures Ciphers([a, b], v, nonce) == Some(map[CacheKey(a.provider, a.raw) := v.encrypt(nonce, a.raw).value])
  {
    CipherOfOne(a, v, nonce);
    assert [a, b][..1] == [a];
  }

  /** The second of two new items whose keys have the same place in the cache is stored with
      the cipher of the first one's key; its own key is bound nowhere. */
  lemma SharedPlaceBindsWrongKey(a: Item, b: Item, v: Vault, nonce: nat)
    requires Sound(v) && v.encrypt(nonce, a.raw).Some?
    requires a.pattern == b.pattern != "" && a.raw != "" && b.raw != "" && a.encrypted == b.encrypted == ""
    requires a.raw != b.raw && CacheKey(a.provider, a.raw) == CacheKey(b.provider, b.raw)
    requires Entry(PlainKey(0, a)) != Entry(PlainKey(0, b))
    ensures var r := Batch(EMPTY, [a, b], v, nonce);
            && !r.failed && Tuples(r.tables.rows, v) == {PlainKey(0, a), PlainKey(0, b).(key := a.raw)}
            && PlainKey(IdOf(r.tables.pools, b.pattern), b) !in Tuples(r.tables.rows, v)
  {
    var cipher := v.encrypt(nonce, a.raw).value;
    var ciphers := map[CacheKey(a.provider, a.raw) := cipher];
    TwoItems(a, b);
    CiphersOfTwo(a, b, v, nonce);
    BatchOfGroup(EMPTY, a.pattern, [a, b], v, nonce, ciphers);
    BindTwo(a, b, ciphers, cipher);
    assert Entries(Indexed([], {0}, v)) == {};
    assert IsCipherOf(cipher, a.raw, v);
    TuplesOfTwo(NewRow(0, a, cipher), NewRow(0, b, cipher), v);
  }

  lemma BindTwo(a: Item, b: Item, ciphers: map<string, string>, cipher: string)
    requires a.raw != "" && b.raw != "" && a.encrypted == b.encrypted == "" && cipher != ""
    requires StoredCipher(a, ciphers) == StoredCipher(b, ciphers) == cipher
    requires Entry(PlainKey(0, a)) != Entry(PlainKey(0, b))
    ensures BindGroup(Binding({}, []), 0, [a, b], ciphers).rows == [NewRow(0, a, cipher), NewRow(0, b, cipher)]
  {
    assert [a, b][..1] == [a] && [a][..0] == [];
    var start := Binding({}, []);
    assert BindGroup(start, 0, [], ciphers) == start;
    var first := Bind(start, 0, a, ciphers);
    assert BindGroup(start, 0, [a], ciphers) == first;
    assert first == Binding(Entries({PlainKey(0, a)}), [NewRow(0, a, cipher)]);
  }

  lemma TuplesOfTwo(x: Row, y: Row, v: Vault)
    ensures Tuples([x, y], v) == {TupleOf(x, v), TupleOf(y, v)}
  {
    assert [x, y][..1] == [x] && [x][..0] == [];
    assert Tuples([x], v) == {TupleOf(x, v)};
  }

  /** Two such items. */
  lemma SharedPlaceHappens() returns (a: Item, b: Item)
    ensures a.pattern == b.pattern != "" && a.raw != "" && b.raw != "" && a.encrypted == b.encrypted == ""
    ensures a.raw != b.raw && CacheKey(a.provider, a.raw) == CacheKey(b.provider, b.raw)
    ensures Entry(PlainKey(0, a)) != Entry(PlainKey(0, b))
  {
    a := Item("m", "p", "u", "q:k", "", 1, "", {});
    b := Item("m", "p:q", "u", "k", "", 1, "", {});
    assert a.raw[1] == ':' && |b.raw| == 1;
    if Entry(PlainKey(0, a)) == Entry(PlainKey(0, b)) {
      EntryInjective(PlainKey(0, a), PlainKey(0, b));
      assert false;
    }
  }

  // ----- The function that does it -----

  datatype Group = Group(capabilities: set<Capability>, credentials: seq<Item>)

  lemma OneMoreItem(items: seq<Item>, item: Item, p: string)
    ensures GroupOf(items + [item], p) == (if item.pattern == p then GroupOf(items, p) + [item] else GroupOf(items, p))
    ensures PatternsOf(items + [item])
         == (if item.pattern == "" || item.pattern in PatternsOf(items) then PatternsOf(items) else PatternsOf(items) + [item.pattern])
  {
    assert (items + [item])[..|items|] == items;
  }

  lemma OneMoreMember(group: seq<Item>, item: Item)
    ensures CapabilitiesOf(group + [item]) == CapabilitiesOf(group) + item.capabilities
  {
    assert (group + [item])[..|group|] == group;
  }

  lemma {:induction false} NoGroup(items: seq<Item>, p: string)
    requires p != "" && p !in PatternsOf(items)
    ensures GroupOf(items, p) == []
  {
    if items != [] {
      NoGroup(items[..|items| - 1], p);
    }
  }

  predicate IsGroup(g: Group, items: seq<Item>, p: string) {
    g.credentials == GroupOf(items, p) && g.capabilities == CapabilitiesOf(GroupOf(items, p))
  }

  ghost predicate Grouped(groups: map<string, Group>, patterns: seq<string>, items: seq<Item>) {
    && patterns == PatternsOf(items)
    && (forall p :: p in groups <==> p in patterns)
    && (forall p :: p in groups ==> IsGroup(groups[p], items, p))
  }

  lemma OtherGroup(g: Group, items: seq<Item>, item: Item, p: string)
    requires IsGroup(g, items, p) && item.pattern != p
    ensures IsGroup(g, items + [item], p)
  {
    OneMoreItem(items, item, p);
  }

  lemma PutPattern(groups: map<string, Group>, patterns: seq<string>, items: seq<Item>, item: Item, g: Group, after: seq<string>)
    requires patterns == PatternsOf(items) && after == PatternsOf(items + [item]) && item.pattern != ""
    requires forall p :: p in groups <==> p in patterns
    ensures forall p :: p in groups[item.pattern := g] <==> p in after
  {
    OneMoreItem(items, item, item.pattern);
    assert after == if item.pattern in patterns then patterns else patterns + [item.pattern];
  }

  /** Replacing the group of the item's pattern. */
  lemma PutGroup(groups: map<string, Group>, patterns: seq<string>, items: seq<Item>, item: Item, g: Group, after: seq<string>)
    requires Grouped(groups, patterns, items) && after == PatternsOf(items + [item]) && item.pattern != ""
    requires IsGroup(g, items + [item], item.pattern)
    ensures Grouped(groups[item.pattern := g], after, items + [item])
  {
    var next := groups[item.pattern := g];
    PutPattern(groups, patterns, items, item, g, after);
    forall p | p in next
      ensures IsGroup(next[p], items + [item], p)
    {
      if p != item.pattern {
        OtherGroup(groups[p], items, item, p);
      }
    }
  }

  lemma JoinGroup(g: Group, items: seq<Item>, item: Item)
    requires IsGroup(g, items, item.pattern)
    ensures IsGroup(Group(g.capabilities + item.capabilities, g.credentials + [item]), items + [item], item.pattern)
  {
    OneMoreItem(items, item, item.pattern);
    OneMoreMember(GroupOf(items, item.pattern), item);
  }

  lemma OpenGroup(items: seq<Item>, item: Item)
    requires item.pattern != "" && item.pattern !in PatternsOf(items)
    ensures IsGroup(Group(item.capabilities, [item]), items + [item], item.pattern)
  {
    OneMoreItem(items, item, item.pattern);
    NoGroup(items, item.pattern);
    OneMoreMember([], item);
    assert [] + [item] == [item];
  }

  lemma SkipItem(groups: map<string, Group>, patterns: seq<string>, items: seq<Item>, item: Item)
    requires Grouped(groups, patterns, items) && item.pattern == ""
    ensures Grouped(groups, patterns, items + [item])
  {
    OneMoreItem(items, item, "");
    forall p | p in groups
      ensures IsGroup(groups[p], items + [item], p)
    {
      OtherGroup(groups[p], items, item, p);
    }
  }

  method GroupItems(items: seq<Item>) returns (groups: map<string, Group>, patterns: seq<string>)
    ensures Grouped(groups, patterns, items)
  {
    groups, patterns := map[], [];
    for i := 0 to |items|
      invariant Grouped(groups, patterns, items[..i])
    {
      var item := items[i];
      assert items[..i + 1] == items[..i] + [item];
      ghost var was, had := groups, patterns;
      if item.pattern == "" {
        SkipItem(was, had, items[..i], item);
      } else if item.pattern !in groups {
        groups := groups[item.pattern := Group(item.capabilities, [item])];
        patterns := patterns + [item.pattern];
        OneMoreItem(items[..i], item, item.pattern);
        OpenGroup(items[..i], item);
        PutGroup(was, had, items[..i], item, groups[item.pattern], patterns);
      } else {
        var g := groups[item.pattern];
        groups := groups[item.pattern := Group(g.capabilities + item.capabilities, g.credentials + [item])];
        OneMoreItem(items[..i], item, item.pattern);
        JoinGroup(g, items[..i], item);
        PutGroup(was, had, items[..i], item, groups[item.pattern], patterns);
      }
    }
    assert items[..|items|] == items;
  }

  lemma CiphersOneMore(items: seq<Item>, i: nat, v: Vault, nonce: nat, cache: map<string, string>)
    requires i < |items| && Ciphers(items[..i], v, nonce) == Some(cache)
    ensures var item := items[i];
            Ciphers(items[..i + 1], v, nonce) ==
            if item.raw == "" || CacheKey(item.provider, item.raw) in cache then Some(cache)
            else
              match v.encrypt(nonce + |cache|, item.raw)
              case None => None
              case Some(cipher) => Some(cache[CacheKey(item.provider, item.raw) := cipher])
  {
    assert items[..i + 1][..i] == items[..i];
  }

  method EncryptKeys(items: seq<Item>, v: Vault, nonce: nat) returns (ciphers: Option<map<string, string>>)
    ensures ciphers == Ciphers(items, v, nonce)
  {
    var cache: map<string, string> := map[];
    for i := 0 to |items|
      invariant Ciphers(items[..i], v, nonce) == Some(cache)
    {
      CiphersOneMore(items, i, v, nonce, cache);
      var item := items[i];
      if item.raw != "" && CacheKey(item.provider, item.raw) !in cache {
        var cipher := v.encrypt(nonce + |cache|, item.raw);
        if cipher.None? {
          CiphersFail(items, v, nonce, i + 1);
          return None;
        }
        cache := cache[CacheKey(item.provider, item.raw) := cipher.value];
      }
    }
    assert items[..|items|] == items;
    ciphers := Some(cache);
  }

  lemma {:induction false} CiphersFail(items: seq<Item>, v: Vault, nonce: nat, i: nat)
    requires i <= |items| && Ciphers(items[..i], v, nonce).None?
    ensures Ciphers(items, v, nonce).None?
    decreases |items|
  {
    if i < |items| {
      assert items[..|items| - 1][..i] == items[..i];
      CiphersFail(items[..|items| - 1], v, nonce, i);
    } else {
      assert items[..i] == items;
    }
  }

  class Database {
    var pools: map<string, PoolRow>
    var nextId: nat
    var rows: seq<Row>
    var notifications: nat

    function State(): Tables
      reads this
    {
      Tables(pools, nextId, rows)
    }

    /** The upserts, in the order of `patterns`. */
    method UpsertPools(patterns: seq<string>, groups: map<string, Group>, ghost items: seq<Item>) returns (created: nat)
      requires forall p :: p in patterns ==> p in groups && groups[p].capabilities == CapabilitiesOf(GroupOf(items, p))
      modifies this`pools, this`nextId
      ensures Upserted(pools, nextId, created) == UpsertAll(old(State()), patterns, items)
    {
      created := 0;
      ghost var t := State();
      for i := 0 to |patterns|
        invariant Upserted(pools, nextId, created) == UpsertAll(t, patterns[..i], items)
      {
        assert patterns[..i + 1][..i] == patterns[..i];
        var pattern := patterns[i];
        if pattern in pools {
          pools := pools[pattern := PoolRow(pools[pattern].id, groups[pattern].capabilities)];
        } else {
          pools := pools[pattern := PoolRow(nextId, groups[pattern].capabilities)];
          nextId, created := nextId + 1, created + 1;
        }
      }
      assert patterns[..|patterns|] == patterns;
    }

    /** The rows of the given pools, by plain key and by cipher. */
    method IndexRows(ids: set<nat>, v: Vault) returns (index: set<string>)
      ensures index == Entries(Indexed(rows, ids, v))
    {
      index := {};
      for i := 0 to |rows|
        invariant index == Entries(Indexed(rows[..i], ids, v))
      {
        assert rows[..i + 1][..i] == rows[..i];
        var row := rows[i];
        if row.pool in ids {
          EntriesUnion(Indexed(rows[..i], ids, v), RowKeys(row, v));
          index := index + Entries(RowKeys(row, v));
        }
      }
      assert rows[..|rows|] == rows;
    }

    /** The inner loop: the items of one pool. */
    method BindItems(start: Binding, pool: nat, group: seq<Item>, ciphers: map<string, string>) returns (b: Binding)
      ensures b == BindGroup(start, pool, group, ciphers)
    {
      var index, queued := start.index, start.rows;
      for i := 0 to |group|
        invariant Binding(index, queued) == BindGroup(start, pool, group[..i], ciphers)
      {
        assert group[..i + 1][..i] == group[..i];
        var item := group[i];
        var cipher := StoredCipher(item, ciphers);
        if !AlreadyBound(index, pool, item) && cipher != "" {
          queued := queued + [NewRow(pool, item, cipher)];
          index := index + Entries(NewKeys(pool, item));
        }
      }
      assert group[..|group|] == group;
      b := Binding(index, queued);
    }

    /** The outer loop: the pools in order. */
    method BindPools(start: Binding, sorted: seq<string>, groups: map<string, Group>, ciphers: map<string, string>, ghost items: seq<Item>)
      returns (b: Binding)
      requires Have(sorted, pools)
      requires forall p :: p in sorted ==> p in groups && IsGroup(groups[p], items, p)
      ensures b == BindAll(start, sorted, items, pools, ciphers)
    {
      b := start;
      for i := 0 to |sorted|
        invariant b == BindAll(start, sorted[..i], items, pools, ciphers)
      {
        assert sorted[..i + 1][..i] == sorted[..i];
        assert sorted[i] in sorted;
        b := BindItems(b, pools[sorted[i]].id, groups[sorted[i]].credentials, ciphers);
      }
      assert sorted[..|sorted|] == sorted;
    }

    /** `BatchInsertDiscoveredModels`. */
    method BatchInsert(items: seq<Item>, v: Vault, nonce: nat) returns (synced: nat, bound: nat, failed: bool)
      modifies this
      ensures var r := Batch(old(State()), items, v, nonce);
              && State() == r.tables && synced == r.synced && bound == r.bound && failed == r.failed
              && notifications == old(notifications) + (if r.notified then 1 else 0)
    {
      synced, bound, failed := 0, 0, false;
      var groups, patterns := GroupItems(items);
      var sorted := Sort(patterns);
      if sorted == [] {
        return;
      }
      var ciphers := EncryptKeys(items, v, nonce);
      if ciphers.None? {
        failed := true;
        return;
      }
      ghost var t := State();
      var created := UpsertPools(sorted, groups, items);
      UpsertAllHas(t, sorted, items);
      var index := IndexRows(Ids(sorted, pools), v);
      var b := BindPools(Binding(index, []), sorted, groups, ciphers.value, items);
      rows := rows + b.rows;
      synced, bound := |sorted|, |b.rows|;
      if created > 0 || bound > 0 {
        notifications := notifications + 1;
      }
    }
  }
}
