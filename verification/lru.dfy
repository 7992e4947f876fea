/** A bounded, insertion-ordered map used as a least-recently-used cache with expiry, over any type of
    keys. The list of entries is the map in iteration order, oldest first. */
module Lru {
  import opened Wrappers

  datatype Entry<+K> = Entry(key: K, value: string, expiresAt: real)
  datatype Stats = Stats(hits: nat, misses: nat, evictions: nat, expirations: nat, size: nat)
  datatype State<+K> = State(cache: seq<Entry<K>>, stats: Stats)

  /** One accepted request: a lookup, a store, or the removal of all keys of a kind. */
  datatype Op<!K> =
    | Read(key: K, now: real)
    | Write(key: K, value: string, expiresAt: real)
    | Drop(gone: K -> bool)

  // ----- The map -----

  function Find<K(==)>(c: seq<Entry<K>>, k: K): Option<Entry<K>> {
    if c == [] then None
    else if c[|c| - 1].key == k then Some(c[|c| - 1])
    else Find(c[..|c| - 1], k)
  }

  /** `Map.delete`. */
  function Without<K(==)>(c: seq<Entry<K>>, k: K): seq<Entry<K>> {
    if c == [] then []
    else if c[|c| - 1].key == k then Without(c[..|c| - 1], k)
    else Without(c[..|c| - 1], k) + [c[|c| - 1]]
  }

  function Kept<K>(c: seq<Entry<K>>, gone: K -> bool): seq<Entry<K>> {
    if c == [] then []
    else if gone(c[|c| - 1].key) then Kept(c[..|c| - 1], gone)
    else Kept(c[..|c| - 1], gone) + [c[|c| - 1]]
  }

  predicate DistinctKeys<K(==)>(c: seq<Entry<K>>) {
    c != [] ==> Find(c[..|c| - 1], c[|c| - 1].key).None? && DistinctKeys(c[..|c| - 1])
  }

  lemma Appended<K>(c: seq<Entry<K>>, e: Entry<K>)
    ensures (c + [e])[..|c + [e]| - 1] == c && (c + [e])[|c + [e]| - 1] == e
  {
  }

  lemma {:induction false} FindInWithout<K>(c: seq<Entry<K>>, k: K, j: K)
    ensures Find(Without(c, k), j) == if j == k then None else Find(c, j)
  {
    if c != [] {
      FindInWithout(c[..|c| - 1], k, j);
      Appended(Without(c[..|c| - 1], k), c[|c| - 1]);
    }
  }

  lemma {:induction false} FindInKept<K>(c: seq<Entry<K>>, gone: K -> bool, j: K)
    ensures Find(Kept(c, gone), j) == if gone(j) then None else Find(c, j)
  {
    if c != [] {
      FindInKept(c[..|c| - 1], gone, j);
      Appended(Kept(c[..|c| - 1], gone), c[|c| - 1]);
    }
  }

  lemma {:induction false} WithoutAbsent<K>(c: seq<Entry<K>>, k: K)
    requires Find(c, k).None?
    ensures Without(c, k) == c
  {
    if c != [] {
      WithoutAbsent(c[..|c| - 1], k);
    }
  }

  lemma {:induction false} WithoutIsDistinct<K>(c: seq<Entry<K>>, k: K)
    requires DistinctKeys(c)
    ensures DistinctKeys(Without(c, k))
    ensures |Without(c, k)| == if Find(c, k).Some? then |c| - 1 else |c|
  {
    if c != [] {
      var init, last := c[..|c| - 1], c[|c| - 1];
      WithoutIsDistinct(init, k);
      Appended(Without(init, k), last);
      FindInWithout(init, k, last.key);
    }
  }

  lemma {:induction false} KeptIsDistinct<K>(c: seq<Entry<K>>, gone: K -> bool)
    requires DistinctKeys(c)
    ensures DistinctKeys(Kept(c, gone)) && |Kept(c, gone)| <= |c|
  {
    if c != [] {
      var init, last := c[..|c| - 1], c[|c| - 1];
      KeptIsDistinct(init, gone);
      Appended(Kept(init, gone), last);
      FindInKept(init, gone, last.key);
    }
  }

  lemma {:induction false} WithoutCommutes<K>(c: seq<Entry<K>>, j: K, k: K)
    ensures Without(Without(c, j), k) == Without(Without(c, k), j)
  {
    if c != [] {
      var init, last := c[..|c| - 1], c[|c| - 1];
      WithoutCommutes(init, j, k);
      Appended(Without(init, j), last);
      Appended(Without(init, k), last);
    }
  }

  lemma {:induction false} KeptCommutes<K>(c: seq<Entry<K>>, gone: K -> bool, k: K)
    ensures Kept(Without(c, k), gone) == Without(Kept(c, gone), k)
  {
    if c != [] {
      var init, last := c[..|c| - 1], c[|c| - 1];
      KeptCommutes(init, gone, k);
      Appended(Without(init, k), last);
      Appended(Kept(init, gone), last);
    }
  }

  lemma {:induction false} FindHead<K>(c: seq<Entry<K>>)
    requires c != [] && DistinctKeys(c)
    ensures Find(c, c[0].key) == Some(c[0])
  {
    if |c| > 1 {
      FindHead(c[..|c| - 1]);
    }
  }

  lemma {:induction false} HeadOfWithout<K>(c: seq<Entry<K>>, k: K)
    requires c != [] && c[0].key != k
    ensures Without(c, k) != [] && Without(c, k)[0] == c[0]
  {
    if |c| > 1 {
      HeadOfWithout(c[..|c| - 1], k);
    }
  }

  lemma {:induction false} WithoutConcat<K>(a: seq<Entry<K>>, b: seq<Entry<K>>, k: K)
    ensures Without(a + b, k) == Without(a, k) + Without(b, k)
  {
    if b == [] {
      assert a + b == a;
    } else {
      var init, last := b[..|b| - 1], b[|b| - 1];
      WithoutConcat(a, init, k);
      assert (a + b)[..|a + b| - 1] == a + init;
    }
  }

  lemma {:induction false} DistinctParts<K>(a: seq<Entry<K>>, b: seq<Entry<K>>)
    requires DistinctKeys(a + b)
    ensures DistinctKeys(a) && DistinctKeys(b)
    ensures forall k :: Find(b, k).Some? ==> Find(a, k).None?
  {
    if b == [] {
      assert a + b == a;
    } else {
      var init, last := b[..|b| - 1], b[|b| - 1];
      assert (a + b)[..|a + b| - 1] == a + init;
      DistinctParts(a, init);
      FindInConcat(a, init, last.key);
    }
  }

  lemma {:induction false} FindInConcat<K>(a: seq<Entry<K>>, b: seq<Entry<K>>, k: K)
    ensures Find(a + b, k) == if Find(b, k).Some? then Find(b, k) else Find(a, k)
  {
    if b == [] {
      assert a + b == a;
    } else {
      assert (a + b)[..|a + b| - 1] == a + b[..|b| - 1];
      FindInConcat(a, b[..|b| - 1], k);
    }
  }

  // ----- Steps and runs -----

  function Step<K(==)>(cap: nat, s: State<K>, op: Op<K>): State<K>
    requires cap >= 1
  {
    match op
    case Read(k, now) =>
      (match Find(s.cache, k)
       case None => s.(stats := s.stats.(misses := s.stats.misses + 1))
       case Some(e) =>
         if e.expiresAt <= now then
           var cache := Without(s.cache, k);
           State(cache, s.stats.(expirations := s.stats.expirations + 1, misses := s.stats.misses + 1, size := |cache|))
         else State(Without(s.cache, k) + [e], s.stats.(hits := s.stats.hits + 1)))
    case Write(k, value, expiresAt) =>
      var evict := Find(s.cache, k).None? && |s.cache| >= cap;
      var room := if evict then Without(s.cache, s.cache[0].key) else Without(s.cache, k);
      var cache := room + [Entry(k, value, expiresAt)];
      State(cache, s.stats.(evictions := s.stats.evictions + (if evict then 1 else 0), size := |cache|))
    case Drop(gone) =>
      var cache := Kept(s.cache, gone);
      State(cache, s.stats.(size := |cache|))
  }

  /** The answer to a lookup. */
  function Answer<K(==)>(s: State<K>, k: K, now: real): Option<string> {
    match Find(s.cache, k)
    case Some(e) => if e.expiresAt <= now then None else Some(e.value)
    case None => None
  }

  function Start<K>(): State<K> {
    State([], Stats(0, 0, 0, 0, 0))
  }

  function Run<K(==)>(cap: nat, ops: seq<Op<K>>): State<K>
    requires cap >= 1
  {
    if ops == [] then Start() else Step(cap, Run(cap, ops[..|ops| - 1]), ops[|ops| - 1])
  }

  // ----- Invariant -----

  predicate Inv<K(==)>(cap: nat, s: State<K>) {
    DistinctKeys(s.cache) && |s.cache| <= cap && s.stats.size == |s.cache|
  }

  lemma RefreshedIsDistinct<K>(c: seq<Entry<K>>, out: K, e: Entry<K>)
    requires DistinctKeys(c) && Find(Without(c, out), e.key).None?
    ensures DistinctKeys(Without(c, out) + [e])
    ensures |Without(c, out) + [e]| == if Find(c, out).Some? then |c| else |c| + 1
  {
    WithoutIsDistinct(c, out);
    Appended(Without(c, out), e);
  }

  lemma ReadKeepsInv<K>(cap: nat, s: State<K>, k: K, now: real)
    requires cap >= 1 && Inv(cap, s)
    ensures Inv(cap, Step(cap, s, Read(k, now)))
  {
    hide DistinctKeys, Find, Without, Kept;
    WithoutIsDistinct(s.cache, k);
    FindInWithout(s.cache, k, k);
    if Find(s.cache, k).Some? {
      FoundKey(s.cache, k);
      RefreshedIsDistinct(s.cache, k, Find(s.cache, k).value);
    }
  }

  lemma WriteKeepsInv<K>(cap: nat, s: State<K>, k: K, value: string, expiresAt: real)
    requires cap >= 1 && Inv(cap, s)
    ensures Inv(cap, Step(cap, s, Write(k, value, expiresAt)))
  {
    hide DistinctKeys, Find, Without, Kept;
    var evict := Find(s.cache, k).None? && |s.cache| >= cap;
    var out := if evict then s.cache[0].key else k;
    if evict {
      FindHead(s.cache);
    }
    FindInWithout(s.cache, out, k);
    RefreshedIsDistinct(s.cache, out, Entry(k, value, expiresAt));
  }

  lemma DropKeepsInv<K>(cap: nat, s: State<K>, gone: K -> bool)
    requires cap >= 1 && Inv(cap, s)
    ensures Inv(cap, Step(cap, s, Drop(gone)))
  {
    hide DistinctKeys, Find, Without, Kept;
    KeptIsDistinct(s.cache, gone);
  }

  lemma StepKeepsInv<K>(cap: nat, s: State<K>, op: Op<K>)
    requires cap >= 1 && Inv(cap, s)
    ensures Inv(cap, Step(cap, s, op))
  {
    hide *;
    match op
    case Read(k, now) => ReadKeepsInv(cap, s, k, now);
    case Write(k, value, expiresAt) => WriteKeepsInv(cap, s, k, value, expiresAt);
    case Drop(gone) => DropKeepsInv(cap, s, gone);
  }

  lemma {:induction false} FoundKey<K>(c: seq<Entry<K>>, k: K)
    requires Find(c, k).Some?
    ensures Find(c, k).value.key == k
  {
    if c[|c| - 1].key != k {
      FoundKey(c[..|c| - 1], k);
    }
  }

  /** After any run no key occurs twice, the capacity is kept and `size` is the number of entries. */
  lemma {:induction false} RunKeepsInv<K>(cap: nat, ops: seq<Op<K>>)
    requires cap >= 1
    ensures Inv(cap, Run(cap, ops))
  {
    if ops != [] {
      RunKeepsInv(cap, ops[..|ops| - 1]);
      StepKeepsInv(cap, Run(cap, ops[..|ops| - 1]), ops[|ops| - 1]);
    }
  }

  /** What one step does to the entry of one key; `out` is the evicted key, if any. */
  lemma FindAfterStep<K>(cap: nat, s: State<K>, op: Op<K>, j: K)
    requires cap >= 1 && Inv(cap, s)
    ensures
      var after := Find(Step(cap, s, op).cache, j);
      match op
      case Read(k, now) =>
        after == if j == k && Find(s.cache, j).Some? && Find(s.cache, j).value.expiresAt <= now then None
          else Find(s.cache, j)
      case Write(k, value, expiresAt) =>
        if j == k then after == Some(Entry(k, value, expiresAt))
        else after == Find(s.cache, j) || (after.None? && Step(cap, s, op).stats.evictions == s.stats.evictions + 1)
      case Drop(gone) => after == if gone(j) then None else Find(s.cache, j)
  {
    match op
    case Read(k, now) =>
      FindInWithout(s.cache, k, j);
      if Find(s.cache, k).Some? {
        FoundKey(s.cache, k);
        Appended(Without(s.cache, k), Find(s.cache, k).value);
      }
    case Write(k, value, expiresAt) =>
      var evict := Find(s.cache, k).None? && |s.cache| >= cap;
      var out := if evict then s.cache[0].key else k;
      FindInWithout(s.cache, out, j);
      Appended(Without(s.cache, out), Entry(k, value, expiresAt));
    case Drop(gone) =>
      FindInKept(s.cache, gone, j);
  }

  // ----- Refinement of "the last write wins" -----

  /** The last write to `k` that was neither dropped nor found expired: no capacity, no recency. */
  function LastWrite<K(==)>(ops: seq<Op<K>>, k: K): Option<Entry<K>> {
    if ops == [] then None else LastWriteStep(LastWrite(ops[..|ops| - 1], k), ops[|ops| - 1], k)
  }

  function LastWriteStep<K(==)>(before: Option<Entry<K>>, op: Op<K>, k: K): Option<Entry<K>> {
    match op
    case Read(j, now) => if j == k && before.Some? && before.value.expiresAt <= now then None else before
    case Write(j, value, expiresAt) => if j == k then Some(Entry(j, value, expiresAt)) else before
    case Drop(gone) => if gone(k) then None else before
  }

  /** Whatever the capacity, an entry is the last write to its key; and while nothing has been evicted,
      the cache holds every last write. */
  lemma {:induction false} CacheHoldsLastWrites<K>(cap: nat, ops: seq<Op<K>>, k: K)
    requires cap >= 1
    ensures Find(Run(cap, ops).cache, k).Some? ==> Find(Run(cap, ops).cache, k) == LastWrite(ops, k)
    ensures Run(cap, ops).stats.evictions == 0 ==> Find(Run(cap, ops).cache, k) == LastWrite(ops, k)
  {
    if ops != [] {
      var init, op := ops[..|ops| - 1], ops[|ops| - 1];
      CacheHoldsLastWrites(cap, init, k);
      RunKeepsInv(cap, init);
      FindAfterStep(cap, Run(cap, init), op, k);
    }
  }

  /** A hit answers with the last write to the key, and only before that write expires. */
  lemma HitIsLastWrite<K>(cap: nat, ops: seq<Op<K>>, k: K, now: real)
    requires cap >= 1 && Answer(Run(cap, ops), k, now).Some?
    ensures LastWrite(ops, k).Some? && now < LastWrite(ops, k).value.expiresAt
    ensures Answer(Run(cap, ops), k, now) == Some(LastWrite(ops, k).value.value)
  {
    CacheHoldsLastWrites(cap, ops, k);
  }

  // ----- Recency -----

  /** The position, from 1, of the last lookup or store that names `k`; 0 if there is none. */
  function LastUse<K(==)>(ops: seq<Op<K>>, k: K): nat {
    if ops == [] then 0
    else if !ops[|ops| - 1].Drop? && ops[|ops| - 1].key == k then |ops|
    else LastUse(ops[..|ops| - 1], k)
  }

  predicate InUseOrder<K(==)>(c: seq<Entry<K>>, ops: seq<Op<K>>) {
    forall i, j :: 0 <= i < j < |c| ==> LastUse(ops, c[i].key) < LastUse(ops, c[j].key)
  }

  lemma {:induction false} LastUseIsBounded<K>(ops: seq<Op<K>>, k: K)
    ensures LastUse(ops, k) <= |ops|
  {
    if ops != [] {
      LastUseIsBounded(ops[..|ops| - 1], k);
    }
  }

  lemma {:induction false} WithoutKeepsUseOrder<K>(c: seq<Entry<K>>, k: K, ops: seq<Op<K>>)
    requires InUseOrder(c, ops)
    ensures InUseOrder(Without(c, k), ops)
    ensures forall i :: 0 <= i < |Without(c, k)| ==> Without(c, k)[i] in c && Without(c, k)[i].key != k
  {
    if c != [] {
      var init, last := c[..|c| - 1], c[|c| - 1];
      assert forall i :: 0 <= i < |init| ==> init[i] == c[i];
      WithoutKeepsUseOrder(init, k, ops);
    }
  }

  lemma {:induction false} KeptKeepsUseOrder<K>(c: seq<Entry<K>>, gone: K -> bool, ops: seq<Op<K>>)
    requires InUseOrder(c, ops)
    ensures InUseOrder(Kept(c, gone), ops)
    ensures forall i :: 0 <= i < |Kept(c, gone)| ==> Kept(c, gone)[i] in c
  {
    if c != [] {
      var init, last := c[..|c| - 1], c[|c| - 1];
      assert forall i :: 0 <= i < |init| ==> init[i] == c[i];
      KeptKeepsUseOrder(init, gone, ops);
    }
  }

  lemma UseOrderAfter<K>(c: seq<Entry<K>>, init: seq<Op<K>>, op: Op<K>)
    requires InUseOrder(c, init)
    requires forall e :: e in c ==> op.Drop? || e.key != op.key
    ensures InUseOrder(c, init + [op])
  {
    assert (init + [op])[..|init + [op]| - 1] == init;
    forall i | 0 <= i < |c|
      ensures LastUse(init + [op], c[i].key) == LastUse(init, c[i].key)
    {
      assert c[i] in c;
    }
  }

  lemma AppendUsed<K>(c: seq<Entry<K>>, e: Entry<K>, init: seq<Op<K>>, op: Op<K>)
    requires InUseOrder(c, init) && !op.Drop? && e.key == op.key
    requires forall x :: x in c ==> x.key != op.key
    ensures InUseOrder(c + [e], init + [op])
  {
    UseOrderAfter(c, init, op);
    assert (init + [op])[..|init + [op]| - 1] == init;
    forall i | 0 <= i < |c|
      ensures LastUse(init + [op], c[i].key) < LastUse(init + [op], e.key)
    {
      assert c[i] in c;
      LastUseIsBounded(init, c[i].key);
    }
  }

  lemma {:induction false} NoneInList<K>(c: seq<Entry<K>>, k: K)
    requires Find(c, k).None?
    ensures forall e :: e in c ==> e.key != k
  {
    if c != [] {
      NoneInList(c[..|c| - 1], k);
    }
  }

  /** After any run the entries stand in the order of their last use. */
  lemma {:induction false} RunKeepsUseOrder<K>(cap: nat, ops: seq<Op<K>>)
    requires cap >= 1
    ensures InUseOrder(Run(cap, ops).cache, ops)
  {
    if ops != [] {
      var init, op := ops[..|ops| - 1], ops[|ops| - 1];
      var s := Run(cap, init);
      RunKeepsInv(cap, init);
      RunKeepsUseOrder(cap, init);
      assert init + [op] == ops;
      StepKeepsUseOrder(cap, s, init, op);
    }
  }

  lemma StepKeepsUseOrder<K>(cap: nat, s: State<K>, init: seq<Op<K>>, op: Op<K>)
    requires cap >= 1 && Inv(cap, s) && InUseOrder(s.cache, init)
    ensures InUseOrder(Step(cap, s, op).cache, init + [op])
  {
    hide InUseOrder;
    match op
    case Read(k, now) =>
      WithoutKeepsUseOrder(s.cache, k, init);
      if Find(s.cache, k).None? {
        NoneInList(s.cache, k);
        UseOrderAfter(s.cache, init, op);
      } else if Find(s.cache, k).value.expiresAt <= now {
        UseOrderAfter(Without(s.cache, k), init, op);
      } else {
        FoundKey(s.cache, k);
        AppendUsed(Without(s.cache, k), Find(s.cache, k).value, init, op);
      }
    case Write(k, value, expiresAt) =>
      var evict := Find(s.cache, k).None? && |s.cache| >= cap;
      var out := if evict then s.cache[0].key else k;
      WithoutKeepsUseOrder(s.cache, out, init);
      FindInWithout(s.cache, out, k);
      NoneInList(Without(s.cache, out), k);
      AppendUsed(Without(s.cache, out), Entry(k, value, expiresAt), init, op);
    case Drop(gone) =>
      KeptKeepsUseOrder(s.cache, gone, init);
      UseOrderAfter(Kept(s.cache, gone), init, op);
  }

  /** A store evicts only for a new key in a full cache, exactly one key, and the one used longest ago. */
  lemma EvictionTakesLeastRecentlyUsed<K>(cap: nat, ops: seq<Op<K>>, k: K, value: string, expiresAt: real, j: K)
    requires cap >= 1
    requires j != k && Find(Run(cap, ops).cache, j).Some?
    ensures
      var after := Step(cap, Run(cap, ops), Write(k, value, expiresAt));
      Find(after.cache, j).None? <==>
        && Find(Run(cap, ops).cache, k).None? && |Run(cap, ops).cache| == cap
        && forall e :: e in Run(cap, ops).cache && e.key != j ==> LastUse(ops, j) < LastUse(ops, e.key)
  {
    var s := Run(cap, ops);
    RunKeepsInv(cap, ops);
    RunKeepsUseOrder(cap, ops);
    FindAfterStep(cap, s, Write(k, value, expiresAt), j);
    var evict := Find(s.cache, k).None? && |s.cache| >= cap;
    var out := if evict then s.cache[0].key else k;
    FindInWithout(s.cache, out, j);
    Appended(Without(s.cache, out), Entry(k, value, expiresAt));
    FoundKey(s.cache, j);
    FoundIsIn(s.cache, j);
    if evict && out != j {
      assert s.cache[0] in s.cache;
    }
  }

  lemma {:induction false} FoundIsIn<K>(c: seq<Entry<K>>, k: K)
    requires Find(c, k).Some?
    ensures exists i :: 0 <= i < |c| && c[i] == Find(c, k).value
  {
    if c[|c| - 1].key != k {
      FoundIsIn(c[..|c| - 1], k);
      var i :| 0 <= i < |c| - 1 && c[..|c| - 1][i] == Find(c[..|c| - 1], k).value;
      assert c[i] == Find(c, k).value;
    }
  }

  // ----- Capacity -----

  /** `small` is `big`, or `big` without one key. */
  predicate Nested<K(==)>(small: seq<Entry<K>>, big: seq<Entry<K>>, extra: Option<K>) {
    match extra
    case None => small == big
    case Some(x) => Find(big, x).Some? && small == Without(big, x)
  }

  /** One step of a cache and of one that has one place more. */
  lemma StepKeepsNested<K>(n: nat, s: State<K>, b: State<K>, op: Op<K>, extra: Option<K>) returns (extra': Option<K>)
    requires n >= 1 && Inv(n, s) && Inv(n + 1, b) && Nested(s.cache, b.cache, extra)
    ensures Nested(Step(n, s, op).cache, Step(n + 1, b, op).cache, extra')
  {
    match op
    case Read(k, now) =>
      extra' := ReadKeepsNested(n, s, b, k, now, extra);
    case Write(k, value, expiresAt) =>
      extra' := WriteKeepsNested(n, s, b, Entry(k, value, expiresAt), extra);
    case Drop(gone) =>
      match extra {
        case None => extra' := None;
        case Some(x) =>
          KeptCommutes(b.cache, gone, x);
          FindInKept(b.cache, gone, x);
          if gone(x) {
            extra' := None;
            WithoutAbsent(Kept(b.cache, gone), x);
          } else {
            extra' := extra;
          }
      }
  }

  lemma ReadKeepsNested<K>(n: nat, s: State<K>, b: State<K>, k: K, now: real, extra: Option<K>)
    returns (extra': Option<K>)
    requires n >= 1 && Inv(n, s) && Inv(n + 1, b) && Nested(s.cache, b.cache, extra)
    ensures Nested(Step(n, s, Read(k, now)).cache, Step(n + 1, b, Read(k, now)).cache, extra')
  {
    extra' := extra;
    if extra.Some? {
      var x := extra.value;
      FindInWithout(b.cache, x, k);
      FindInWithout(b.cache, k, x);
      if Find(b.cache, k).Some? {
        var e := Find(b.cache, k).value;
        FoundKey(b.cache, k);
        Appended(Without(b.cache, k), e);
        if k == x {
          if e.expiresAt <= now {
            extra' := None;
          } else {
            WithoutAbsent(Without(b.cache, k), k);
          }
        } else {
          WithoutCommutes(b.cache, k, x);
        }
      }
    }
  }

  lemma WriteKeepsNested<K>(n: nat, s: State<K>, b: State<K>, e: Entry<K>, extra: Option<K>) returns (extra': Option<K>)
    requires n >= 1 && Inv(n, s) && Inv(n + 1, b) && Nested(s.cache, b.cache, extra)
    ensures var op := Write(e.key, e.value, e.expiresAt);
            Nested(Step(n, s, op).cache, Step(n + 1, b, op).cache, extra')
  {
    match extra {
      case None => extra' := WriteToEqual(n, s, b, e);
      case Some(x) => extra' := WriteToLarger(n, s, b, e, x);
    }
  }

  lemma WriteToEqual<K>(n: nat, s: State<K>, b: State<K>, e: Entry<K>) returns (extra': Option<K>)
    requires n >= 1 && Inv(n, s) && Inv(n + 1, b) && Nested(s.cache, b.cache, None)
    ensures var op := Write(e.key, e.value, e.expiresAt);
            Nested(Step(n, s, op).cache, Step(n + 1, b, op).cache, extra')
  {
    extra' := None;
    if Find(s.cache, e.key).None? && |s.cache| == n {
      WithoutAbsent(b.cache, e.key);
      FindHead(s.cache);
      Appended(b.cache, e);
      extra' := Some(s.cache[0].key);
    }
  }

  lemma WriteToLarger<K>(n: nat, s: State<K>, b: State<K>, e: Entry<K>, x: K) returns (extra': Option<K>)
    requires n >= 1 && Inv(n, s) && Inv(n + 1, b) && Nested(s.cache, b.cache, Some(x))
    ensures var op := Write(e.key, e.value, e.expiresAt);
            Nested(Step(n, s, op).cache, Step(n + 1, b, op).cache, extra')
  {
    var k := e.key;
    extra' := Some(x);
    WithoutIsDistinct(b.cache, x);
    FindInWithout(b.cache, x, k);
    if Find(s.cache, k).Some? {
      WithoutCommutes(b.cache, k, x);
      FindInWithout(b.cache, k, x);
      Appended(Without(b.cache, k), e);
    } else if |s.cache| < n {
      WithoutAbsent(s.cache, k);
      if k == x {
        extra' := None;
      } else {
        WithoutAbsent(b.cache, k);
        Appended(b.cache, e);
      }
    } else {
      extra' := WriteToFullNested(n, s, b, e, x);
    }
  }

  /** The last case of a store: the smaller cache is full and does not know the key. */
  lemma WriteToFullNested<K>(n: nat, s: State<K>, b: State<K>, e: Entry<K>, x: K) returns (extra': Option<K>)
    requires n >= 1 && Inv(n, s) && Inv(n + 1, b) && Nested(s.cache, b.cache, Some(x))
    requires Find(s.cache, e.key).None? && |s.cache| == n
    ensures var op := Write(e.key, e.value, e.expiresAt);
            Nested(Step(n, s, op).cache, Step(n + 1, b, op).cache, extra')
  {
    var k, o := e.key, s.cache[0].key;
    WithoutIsDistinct(b.cache, x);
    FindInWithout(b.cache, x, k);
    FindInWithout(b.cache, x, o);
    FindHead(s.cache);
    if k == x || b.cache[0].key == x {
      extra' := Some(o);
      Appended(Without(b.cache, x), e);
    } else {
      HeadOfWithout(b.cache, x);
      extra' := Some(x);
      WithoutCommutes(b.cache, x, o);
      FindInWithout(b.cache, o, x);
      Appended(Without(b.cache, o), e);
    }
  }

  /** On the same requests, the recency list of a cache is that of a cache with one place more, less at
      most one key. */
  lemma {:induction false} RunsAreNested<K>(n: nat, ops: seq<Op<K>>) returns (extra: Option<K>)
    requires n >= 1
    ensures Nested(Run(n, ops).cache, Run(n + 1, ops).cache, extra)
  {
    if ops == [] {
      extra := None;
    } else {
      var init, op := ops[..|ops| - 1], ops[|ops| - 1];
      extra := RunsAreNested(n, init);
      RunKeepsInv(n, init);
      RunKeepsInv(n + 1, init);
      extra := StepKeepsNested(n, Run(n, init), Run(n + 1, init), op, extra);
    }
  }

  /** More capacity never turns a hit into a miss or changes its answer. */
  lemma {:induction false} MoreCapacityKeepsHits<K>(n: nat, m: nat, ops: seq<Op<K>>, k: K)
    requires 1 <= n <= m
    ensures Find(Run(n, ops).cache, k).Some? ==> Find(Run(m, ops).cache, k) == Find(Run(n, ops).cache, k)
    decreases m
  {
    hide *;
    if n < m {
      MoreCapacityKeepsHits(n, m - 1, ops, k);
      var extra := RunsAreNested(m - 1, ops);
      NestedFind(Run(m - 1, ops).cache, Run(m, ops).cache, extra, k);
    }
  }

  lemma NestedFind<K>(small: seq<Entry<K>>, big: seq<Entry<K>>, extra: Option<K>, k: K)
    requires Nested(small, big, extra)
    ensures Find(small, k).Some? ==> Find(big, k) == Find(small, k)
  {
    if extra.Some? {
      FindInWithout(big, extra.value, k);
    }
  }

  // ----- When nothing is evicted -----

  ghost function KeysOf<K>(c: seq<Entry<K>>): set<K> {
    set e | e in c :: e.key
  }

  lemma {:induction false} AsManyKeys<K>(c: seq<Entry<K>>)
    requires DistinctKeys(c)
    ensures |KeysOf(c)| == |c|
  {
    if c != [] {
      var init, last := c[..|c| - 1], c[|c| - 1];
      AsManyKeys(init);
      NoneInList(init, last.key);
      assert c == init + [last];
      assert KeysOf(c) == KeysOf(init) + {last.key};
    }
  }

  lemma {:induction false} InListIsFound<K>(c: seq<Entry<K>>, e: Entry<K>)
    requires e in c
    ensures Find(c, e.key).Some?
  {
    var init, last := c[..|c| - 1], c[|c| - 1];
    if last.key != e.key {
      assert c == init + [last];
      InListIsFound(init, e);
    }
  }

  /** A full cache that does not know a key holds others only, as many as it has places. */
  lemma FullOfOthers<K>(cap: nat, c: seq<Entry<K>>, keys: set<K>, k: K)
    requires DistinctKeys(c) && Find(c, k).None? && KeysOf(c) <= keys && k in keys && |keys| <= cap
    ensures |c| < cap
  {
    AsManyKeys(c);
    NoneInList(c, k);
    assert KeysOf(c) <= keys - {k};
    Fewer(KeysOf(c), keys - {k});
  }

  lemma {:induction false} Fewer<K>(a: set<K>, b: set<K>)
    requires a <= b
    ensures |a| <= |b|
  {
    if x :| x in a {
      Fewer(a - {x}, b - {x});
    }
  }

  ghost predicate StoresIn<K>(ops: seq<Op<K>>, keys: set<K>) {
    forall i :: 0 <= i < |ops| && ops[i].Write? ==> ops[i].key in keys
  }

  /** As long as stores name no more keys than there are places, nothing is evicted. */
  lemma {:induction false} NothingEvicted<K>(cap: nat, ops: seq<Op<K>>, keys: set<K>)
    requires cap >= 1 && |keys| <= cap
    requires StoresIn(ops, keys)
    ensures Run(cap, ops).stats.evictions == 0
    ensures KeysOf(Run(cap, ops).cache) <= keys
  {
    if ops != [] {
      var init, op := ops[..|ops| - 1], ops[|ops| - 1];
      NothingEvicted(cap, init, keys);
      RunKeepsInv(cap, init);
      var s := Run(cap, init);
      if op.Write? && Find(s.cache, op.key).None? {
        FullOfOthers(cap, s.cache, keys, op.key);
      }
      RunKeepsInv(cap, ops);
      var t := Step(cap, s, op);
      assert Run(cap, ops) == t;
      forall e | e in t.cache
        ensures e.key in keys
      {
        InListIsFound(t.cache, e);
        FindAfterStep(cap, s, op, e.key);
        if Find(s.cache, e.key).Some? {
          FoundIsIn(s.cache, e.key);
          FoundKey(s.cache, e.key);
          assert Find(s.cache, e.key).value in s.cache;
        }
      }
    }
  }

  // ----- Conservation -----

  /** Keys that came in: stores of a key that was not there. */
  function Inserted<K(==)>(cap: nat, ops: seq<Op<K>>): nat
    requires cap >= 1
  {
    if ops == [] then 0
    else
      var init, op := ops[..|ops| - 1], ops[|ops| - 1];
      Inserted(cap, init) + if op.Write? && Find(Run(cap, init).cache, op.key).None? then 1 else 0
  }

  /** Keys that were dropped with their kind. */
  function Dropped<K(==)>(cap: nat, ops: seq<Op<K>>): int
    requires cap >= 1
  {
    if ops == [] then 0
    else
      var init, op := ops[..|ops| - 1], ops[|ops| - 1];
      Dropped(cap, init) + if op.Drop? then |Run(cap, init).cache| - |Run(cap, ops).cache| else 0
  }

  /** How many lookups were answered, and how many were not. */
  function Answered<K(==)>(cap: nat, ops: seq<Op<K>>, yes: bool): nat
    requires cap >= 1
  {
    if ops == [] then 0
    else
      var init, op := ops[..|ops| - 1], ops[|ops| - 1];
      Answered(cap, init, yes) + if op.Read? && Answer(Run(cap, init), op.key, op.now).Some? == yes then 1 else 0
  }

  /** Every key that came in is still there, was evicted, was found expired or was dropped; and a lookup is a
      hit if it was answered and otherwise a miss. */
  lemma {:induction false} EntriesAreConserved<K>(cap: nat, ops: seq<Op<K>>)
    requires cap >= 1
    ensures var s := Run(cap, ops);
            && Inserted(cap, ops) == s.stats.size + s.stats.evictions + s.stats.expirations + Dropped(cap, ops)
            && s.stats.hits == Answered(cap, ops, true) && s.stats.misses == Answered(cap, ops, false)
  {
    if ops != [] {
      var init, op := ops[..|ops| - 1], ops[|ops| - 1];
      var s := Run(cap, init);
      EntriesAreConserved(cap, init);
      RunKeepsInv(cap, init);
      match op
      case Read(k, _) => WithoutIsDistinct(s.cache, k);
      case Write(k, _, _) =>
        WithoutIsDistinct(s.cache, k);
        if s.cache != [] {
          FindHead(s.cache);
          WithoutIsDistinct(s.cache, s.cache[0].key);
        }
      case Drop(_) =>
    }
  }
}
