/** The tool result cache: a class over text keys, proved against the reference that forgets keys and
    capacity and remembers, for each meaning of a call, the last accepted result. */
module ToolResultCache {
  import opened Wrappers
  import opened JsonText
  import opened CacheKey
  import opened Lru

  datatype Config = Config(
    maxEntries: int,
    cacheableToolNames: Option<set<Text>>,
    isCacheableTool: Option<Text -> bool>,
    rules: KeyRules,
    chooseTtlMs: (Fields, real) -> real,
    shouldCacheValue: string -> bool)

  function Capacity(config: Config): (cap: nat)
    ensures cap >= 1
  {
    if config.maxEntries > 1 then config.maxEntries else 1
  }

  predicate IsCacheable(config: Config, tool: Text) {
    if config.isCacheableTool.Some? then config.isCacheableTool.value(tool)
    else if config.cacheableToolNames.Some? then tool in config.cacheableToolNames.value
    else true
  }

  datatype Request =
    | Get(call: Call, now: real)
    | Set(call: Call, value: string, now: real)
    | ClearScope(scope: Text)
    | Clear

  predicate ValidRequest(r: Request) {
    r.Get? || r.Set? ==> ValidCall(r.call)
  }

  predicate ValidRequests(rs: seq<Request>) {
    forall i :: 0 <= i < |rs| ==> ValidRequest(rs[i])
  }

  function ExpiryOf(config: Config, call: Call, now: real): real {
    now + config.chooseTtlMs(call.args, now)
  }

  /** What a request asks of the map, if it is not turned away. */
  function MapOp(config: Config, r: Request): Option<Op<Text>>
    requires ValidRequest(r)
  {
    match r
    case Get(call, now) =>
      if IsCacheable(config, call.tool) then Some(Read(BuildKey(config.rules, call), now)) else None
    case Set(call, value, now) =>
      if IsCacheable(config, call.tool) && config.shouldCacheValue(value)
      then Some(Write(BuildKey(config.rules, call), value, ExpiryOf(config, call, now))) else None
    case ClearScope(scope) => Some(Drop(key => ScopePrefix(scope) <= key))
    case Clear => Some(Drop(key => true))
  }

  function After(config: Config, s: State<Text>, r: Request): State<Text>
    requires ValidRequest(r)
  {
    match MapOp(config, r)
    case None => s
    case Some(op) => Step(Capacity(config), s, op)
  }

  function MapOps(config: Config, rs: seq<Request>): seq<Op<Text>>
    requires ValidRequests(rs)
  {
    if rs == [] then []
    else
      var before := MapOps(config, rs[..|rs| - 1]);
      match MapOp(config, rs[|rs| - 1])
      case None => before
      case Some(op) => before + [op]
  }

  function RunCache(config: Config, rs: seq<Request>): State<Text>
    requires ValidRequests(rs)
  {
    Run(Capacity(config), MapOps(config, rs))
  }

  lemma RunCacheStep(config: Config, rs: seq<Request>, r: Request)
    requires ValidRequests(rs) && ValidRequest(r)
    ensures ValidRequests(rs + [r]) && RunCache(config, rs + [r]) == After(config, RunCache(config, rs), r)
  {
    var all := rs + [r];
    assert all[..|all| - 1] == rs && all[|all| - 1] == r;
    var ops := MapOps(config, rs);
    match MapOp(config, r)
    case None =>
    case Some(op) =>
      assert MapOps(config, all) == ops + [op];
      assert (ops + [op])[..|ops + [op]| - 1] == ops;
  }

  // ----- The reference -----

  datatype Stored = Stored(value: string, expiresAt: real)

  /** What one request makes of the memory of one meaning: an accepted result replaces it, a lookup after it
      expired forgets it, and so does clearing its scope. */
  function Remember(config: Config, before: Option<Stored>, r: Request, m: CallMeaning): Option<Stored> {
    match r
    case Get(call, now) =>
      if IsCacheable(config, call.tool) && MeanCall(config.rules, call) == m && before.Some?
        && before.value.expiresAt <= now
      then None else before
    case Set(call, value, now) =>
      if IsCacheable(config, call.tool) && config.shouldCacheValue(value) && MeanCall(config.rules, call) == m
      then Some(Stored(value, ExpiryOf(config, call, now))) else before
    case ClearScope(scope) => if m.scope == scope then None else before
    case Clear => None
  }

  /** The last accepted result for a meaning that has not been cleared with its scope or looked up after
      it expired. There are no keys, no capacity and no order of use. */
  function Remembered(config: Config, rs: seq<Request>, m: CallMeaning): Option<Stored> {
    if rs == [] then None else Remember(config, Remembered(config, rs[..|rs| - 1], m), rs[|rs| - 1], m)
  }

  /** What the map and the memory hold is the same. */
  predicate Agree(entry: Option<Entry<Text>>, memory: Option<Stored>) {
    memory == if entry.Some? then Some(Stored(entry.value.value, entry.value.expiresAt)) else None
  }

  /** The last write after one more request. */
  function LastWriteAfter(config: Config, ops: seq<Op<Text>>, r: Request, key: Text): Option<Entry<Text>>
    requires ValidRequest(r)
  {
    match MapOp(config, r)
    case None => LastWrite(ops, key)
    case Some(op) => LastWrite(ops + [op], key)
  }

  lemma LastWriteAppended(ops: seq<Op<Text>>, op: Op<Text>, key: Text)
    ensures LastWrite(ops + [op], key) == LastWriteStep(LastWrite(ops, key), op, key)
  {
    var more := ops + [op];
    assert more[..|more| - 1] == ops && more[|more| - 1] == op;
  }

  lemma CallIsRemembered(config: Config, ops: seq<Op<Text>>, before: Option<Stored>, r: Request, call: Call)
    requires ValidRequest(r) && ValidCall(call) && (r.Get? || r.Set?)
    requires Agree(LastWrite(ops, BuildKey(config.rules, call)), before)
    ensures Agree(LastWriteAfter(config, ops, r, BuildKey(config.rules, call)),
                  Remember(config, before, r, MeanCall(config.rules, call)))
  {
    SameKeyIffSameMeaning(config.rules, r.call, call);
    var key, op := BuildKey(config.rules, call), MapOp(config, r);
    if op.Some? {
      LastWriteAppended(ops, op.value, key);
    }
    hide BuildKey, MeanCall, LastWrite;
  }

  lemma ClearIsRemembered(config: Config, ops: seq<Op<Text>>, before: Option<Stored>, r: Request, call: Call)
    requires ValidRequest(r) && ValidCall(call) && (r.ClearScope? || r.Clear?)
    requires Agree(LastWrite(ops, BuildKey(config.rules, call)), before)
    ensures Agree(LastWriteAfter(config, ops, r, BuildKey(config.rules, call)),
                  Remember(config, before, r, MeanCall(config.rules, call)))
  {
    if r.ClearScope? {
      PrefixIffScope(config.rules, r.scope, call);
    }
    MeaningHasScope(config.rules, call);
    LastWriteAppended(ops, MapOp(config, r).value, BuildKey(config.rules, call));
    hide BuildKey, MeanCall, LastWrite, ScopePrefix;
  }

  lemma MeaningHasScope(rules: KeyRules, call: Call)
    requires ValidCall(call)
    ensures MeanCall(rules, call).scope == call.scope
  {
  }

  /** The last write to a key is what the reference remembers for the meaning of any call with that key. */
  lemma {:induction false} LastWriteIsRemembered(config: Config, rs: seq<Request>, call: Call)
    requires ValidRequests(rs) && ValidCall(call)
    ensures Agree(LastWrite(MapOps(config, rs), BuildKey(config.rules, call)),
                  Remembered(config, rs, MeanCall(config.rules, call)))
  {
    hide BuildKey, MeanCall, Remember, LastWrite, MapOp;
    if rs == [] {
      NothingWritten(BuildKey(config.rules, call));
    } else {
      var init, r := rs[..|rs| - 1], rs[|rs| - 1];
      LastWriteIsRemembered(config, init, call);
      assert ValidRequest(r);
      var before := Remembered(config, init, MeanCall(config.rules, call));
      hide Agree, Remembered;
      if r.Get? || r.Set? {
        CallIsRemembered(config, MapOps(config, init), before, r, call);
      } else {
        ClearIsRemembered(config, MapOps(config, init), before, r, call);
      }
    }
  }

  lemma NothingWritten(key: Text)
    ensures LastWrite([], key) == None
  {
  }

  /** The answer of `get` in a given state. */
  function Reply(config: Config, s: State<Text>, call: Call, now: real): Option<string>
    requires ValidCall(call)
  {
    if IsCacheable(config, call.tool) then Answer(s, BuildKey(config.rules, call), now) else None
  }

  /** Over every run: a hit answers with the last accepted result for the meaning of the call, before it
      expires; and as long as nothing was evicted there is a hit whenever there is such a result. */
  lemma CacheAgreesWithReference(config: Config, rs: seq<Request>, call: Call, now: real)
    requires ValidRequests(rs) && ValidCall(call)
    ensures
      var reply := Reply(config, RunCache(config, rs), call, now);
      var memory := Remembered(config, rs, MeanCall(config.rules, call));
      && (reply.Some? ==> memory.Some? && now < memory.value.expiresAt && reply.value == memory.value.value)
      && (RunCache(config, rs).stats.evictions == 0 && IsCacheable(config, call.tool) && memory.Some?
          && now < memory.value.expiresAt
          ==> reply == Some(memory.value.value))
  {
    LastWriteIsRemembered(config, rs, call);
    CacheHoldsLastWrites(Capacity(config), MapOps(config, rs), BuildKey(config.rules, call));
  }

  /** The number of places is the given one, and at least one. */
  lemma CacheFits(config: Config, rs: seq<Request>)
    requires ValidRequests(rs)
    ensures |RunCache(config, rs).cache| <= if config.maxEntries > 1 then config.maxEntries else 1
  {
    RunKeepsInv(Capacity(config), MapOps(config, rs));
  }

  predicate IsAccepted(config: Config, r: Request) {
    r.Set? && IsCacheable(config, r.call.tool) && config.shouldCacheValue(r.value)
  }

  /** The meanings under which results were accepted, and the keys. */
  ghost function AcceptedMeanings(config: Config, rs: seq<Request>): set<CallMeaning> {
    if rs == [] then {}
    else
      var r := rs[|rs| - 1];
      AcceptedMeanings(config, rs[..|rs| - 1]) + if IsAccepted(config, r) then {MeanCall(config.rules, r.call)} else {}
  }

  ghost function AcceptedKeys(config: Config, rs: seq<Request>): set<Text>
    requires ValidRequests(rs)
  {
    if rs == [] then {}
    else
      var r := rs[|rs| - 1];
      assert ValidRequest(r);
      AcceptedKeys(config, rs[..|rs| - 1]) + if IsAccepted(config, r) then {BuildKey(config.rules, r.call)} else {}
  }

  lemma {:induction false} KeyIffMeaning(config: Config, rs: seq<Request>, call: Call)
    requires ValidRequests(rs) && ValidCall(call)
    ensures BuildKey(config.rules, call) in AcceptedKeys(config, rs) <==>
            MeanCall(config.rules, call) in AcceptedMeanings(config, rs)
  {
    hide BuildKey, MeanCall, IsAccepted;
    if rs != [] {
      var r := rs[|rs| - 1];
      assert ValidRequest(r);
      KeyIffMeaning(config, rs[..|rs| - 1], call);
      if r.Set? {
        SameKeyIffSameMeaning(config.rules, r.call, call);
      }
      hide ValidCall;
      assert IsAccepted(config, r) ==> r.Set? by {
        AcceptedIsSet(config, r);
      }
    }
  }

  lemma AcceptedIsSet(config: Config, r: Request)
    ensures IsAccepted(config, r) ==> r.Set?
  {
  }

  lemma {:induction false} AsManyKeysAsMeanings(config: Config, rs: seq<Request>)
    requires ValidRequests(rs)
    ensures |AcceptedKeys(config, rs)| == |AcceptedMeanings(config, rs)|
  {
    if rs != [] {
      var init, r := rs[..|rs| - 1], rs[|rs| - 1];
      assert ValidRequest(r);
      AsManyKeysAsMeanings(config, init);
      hide *;
      OneMoreRequest(config, rs);
      if IsAccepted(config, r) {
        AcceptedIsSet(config, r);
        ValidSet(r);
        KeyIffMeaning(config, init, r.call);
        OneMoreOfBoth(AcceptedKeys(config, init), BuildKey(config.rules, r.call),
                      AcceptedMeanings(config, init), MeanCall(config.rules, r.call));
      }
    }
  }

  lemma ValidSet(r: Request)
    requires ValidRequest(r)
    ensures r.Set? ==> ValidCall(r.call)
  {
  }

  /** What one more request adds. */
  lemma OneMoreRequest(config: Config, rs: seq<Request>)
    requires rs != [] && ValidRequests(rs)
    ensures ValidRequests(rs[..|rs| - 1]) && ValidRequest(rs[|rs| - 1])
    ensures var init, r := rs[..|rs| - 1], rs[|rs| - 1];
            if IsAccepted(config, r) then
              && AcceptedKeys(config, rs) == AcceptedKeys(config, init) + {BuildKey(config.rules, r.call)}
              && AcceptedMeanings(config, rs) == AcceptedMeanings(config, init) + {MeanCall(config.rules, r.call)}
            else
              && AcceptedKeys(config, rs) == AcceptedKeys(config, init)
              && AcceptedMeanings(config, rs) == AcceptedMeanings(config, init)
  {
    var r := rs[|rs| - 1];
    assert ValidRequest(r);
    hide BuildKey, MeanCall, ValidCall;
  }

  lemma OneMoreOfBoth<A, B>(a: set<A>, x: A, b: set<B>, y: B)
    requires |a| == |b| && (x in a <==> y in b)
    ensures |a + {x}| == |b + {y}|
  {
    if x in a {
      assert a + {x} == a && b + {y} == b;
    }
  }

  lemma {:induction false} StoresAreAccepted(config: Config, rs: seq<Request>)
    requires ValidRequests(rs)
    ensures StoresIn(MapOps(config, rs), AcceptedKeys(config, rs))
  {
    if rs != [] {
      var init, r := rs[..|rs| - 1], rs[|rs| - 1];
      assert ValidRequest(r);
      StoresAreAccepted(config, init);
      hide BuildKey, ScopePrefix;
      assert AcceptedKeys(config, init) <= AcceptedKeys(config, rs);
      if MapOp(config, r).Some? {
        assert MapOps(config, rs) == MapOps(config, init) + [MapOp(config, r).value];
      }
    }
  }

  /** As long as results are accepted under no more meanings than there are places, whatever the order of requests,
      nothing is evicted, and every lookup finds the last accepted result for its meaning until that expires. */
  lemma FewMeaningsAreKept(config: Config, rs: seq<Request>, call: Call, now: real)
    requires ValidRequests(rs) && ValidCall(call)
    requires |AcceptedMeanings(config, rs)| <= if config.maxEntries > 1 then config.maxEntries else 1
    ensures RunCache(config, rs).stats.evictions == 0
    ensures var memory := Remembered(config, rs, MeanCall(config.rules, call));
            IsCacheable(config, call.tool) && memory.Some? && now < memory.value.expiresAt ==>
              Reply(config, RunCache(config, rs), call, now) == Some(memory.value.value)
  {
    hide MapOps, AcceptedKeys, AcceptedMeanings, Remembered, MeanCall, Reply, IsCacheable, ValidCall, StoresIn;
    AsManyKeysAsMeanings(config, rs);
    StoresAreAccepted(config, rs);
    NothingEvicted(Capacity(config), MapOps(config, rs), AcceptedKeys(config, rs));
    CacheAgreesWithReference(config, rs, call, now);
  }

  /** A result that is accepted is found under the same call until its time to live is over, and not after. */
  lemma AcceptedIsFound(config: Config, rs: seq<Request>, call: Call, value: string, stored: real, now: real)
    requires ValidRequests(rs) && ValidCall(call) && IsAccepted(config, Request.Set(call, value, stored))
    ensures Reply(config, After(config, RunCache(config, rs), Request.Set(call, value, stored)), call, now) ==
            if now < stored + config.chooseTtlMs(call.args, stored) then Some(value) else None
  {
    var s, key := RunCache(config, rs), BuildKey(config.rules, call);
    RunKeepsInv(Capacity(config), MapOps(config, rs));
    FindAfterStep(Capacity(config), s, MapOp(config, Request.Set(call, value, stored)).value, key);
    hide BuildKey, RunCache, MapOps;
  }

  /** Results of other tools, and values that are not to be cached, change nothing and are not found. */
  lemma UnacceptedIsIgnored(config: Config, s: State<Text>, call: Call, value: string, now: real)
    requires ValidCall(call)
    ensures !IsCacheable(config, call.tool) ==>
      Reply(config, s, call, now) == None && After(config, s, Request.Get(call, now)) == s
    ensures !IsAccepted(config, Request.Set(call, value, now)) ==>
      After(config, s, Request.Set(call, value, now)) == s
  {
  }

  /** Tools are chosen by the predicate, if there is one, and otherwise by the list; without either, all are. */
  lemma CacheableIff(config: Config, tool: Text)
    ensures config.isCacheableTool.Some? ==> IsCacheable(config, tool) == config.isCacheableTool.value(tool)
    ensures config.isCacheableTool.None? && config.cacheableToolNames.Some? ==>
      (IsCacheable(config, tool) <==> tool in config.cacheableToolNames.value)
    ensures config.isCacheableTool.None? && config.cacheableToolNames.None? ==> IsCacheable(config, tool)
  {
  }

  /** Clearing a scope forgets exactly the calls of that scope. */
  lemma ClearScopeIsExact(config: Config, rs: seq<Request>, scope: Text, call: Call, now: real)
    requires ValidRequests(rs) && ValidCall(call)
    ensures Reply(config, After(config, RunCache(config, rs), ClearScope(scope)), call, now) ==
            if call.scope == scope then None else Reply(config, RunCache(config, rs), call, now)
  {
    var s, key := RunCache(config, rs), BuildKey(config.rules, call);
    RunKeepsInv(Capacity(config), MapOps(config, rs));
    FindAfterStep(Capacity(config), s, MapOp(config, ClearScope(scope)).value, key);
    PrefixIffScope(config.rules, scope, call);
  }

  /** On the same requests, a cache with more room answers every lookup that the smaller one answers, and
      in the same way. */
  lemma MoreRoomKeepsAnswers(config: Config, maxEntries: int, rs: seq<Request>, call: Call, now: real)
    requires ValidRequests(rs) && ValidCall(call) && maxEntries >= config.maxEntries
    ensures var bigger := config.(maxEntries := maxEntries);
            var reply := Reply(config, RunCache(config, rs), call, now);
            reply.Some? ==> Reply(bigger, RunCache(bigger, rs), call, now) == reply
  {
    var bigger := config.(maxEntries := maxEntries);
    SameOps(config, bigger, rs);
    MoreCapacityKeepsHits(Capacity(config), Capacity(bigger), MapOps(config, rs), BuildKey(config.rules, call));
  }

  lemma {:induction false} SameOps(config: Config, bigger: Config, rs: seq<Request>)
    requires ValidRequests(rs) && bigger == config.(maxEntries := bigger.maxEntries)
    ensures MapOps(config, rs) == MapOps(bigger, rs)
  {
    if rs != [] {
      SameOps(config, bigger, rs[..|rs| - 1]);
    }
  }

  // ----- The class -----

  class AssistantWorkflowToolResultCache {
    const config: Config
    var cache: seq<Entry<Text>>
    var stats: Stats
    /** Every request so far. */
    ghost var history: seq<Request>

    ghost function View(): State<Text>
      reads this
    {
      State(cache, stats)
    }

    /** The state is the one that the history leads to. */
    ghost predicate Valid()
      reads this
    {
      && ValidRequests(history)
      && View() == RunCache(config, history)
      && Inv(Capacity(config), View())
    }

    constructor (config: Config)
      ensures Valid() && history == [] && this.config == config
    {
      this.config := config;
      cache := [];
      stats := Stats(0, 0, 0, 0, 0);
      history := [];
    }

    method Get(call: Call, now: real) returns (value: Option<string>)
      requires Valid() && ValidCall(call)
      modifies this
      ensures Valid() && history == old(history) + [Request.Get(call, now)]
      ensures View() == After(config, old(View()), Request.Get(call, now))
      ensures value == Reply(config, old(View()), call, now)
      ensures value.Some? ==>
        var memory := Remembered(config, old(history), MeanCall(config.rules, call));
        memory.Some? && now < memory.value.expiresAt && value.value == memory.value.value
    {
      CacheAgreesWithReference(config, history, call, now);
      Recorded(Request.Get(call, now));
      hide *;
      history := history + [Request.Get(call, now)];
      value := GetEntry(call, now);
    }

    /** What `get` does to the map and the counters. */
    method GetEntry(call: Call, now: real) returns (value: Option<string>)
      requires ValidCall(call)
      modifies this`cache, this`stats
      ensures View() == After(config, old(View()), Request.Get(call, now))
      ensures value == Reply(config, old(View()), call, now)
    {
      if !IsCacheable(config, call.tool) {
        return None;
      }
      var key := BuildKey(config.rules, call);
      var found := Find(cache, key);
      if found.None? {
        stats := stats.(misses := stats.misses + 1);
        return None;
      }
      var entry := found.value;
      if entry.expiresAt <= now {
        cache := Without(cache, key);
        stats := stats.(expirations := stats.expirations + 1, misses := stats.misses + 1, size := |cache|);
        return None;
      }
      cache := Without(cache, key);
      cache := cache + [entry];
      stats := stats.(hits := stats.hits + 1);
      return Some(entry.value);
    }

    method Set(call: Call, value: string, now: real)
      requires Valid() && ValidCall(call)
      modifies this
      ensures Valid() && history == old(history) + [Request.Set(call, value, now)]
      ensures View() == After(config, old(View()), Request.Set(call, value, now))
    {
      Recorded(Request.Set(call, value, now));
      hide *;
      history := history + [Request.Set(call, value, now)];
      SetEntry(call, value, now);
    }

    /** What `set` does to the map and the counters. */
    method SetEntry(call: Call, value: string, now: real)
      requires ValidCall(call)
      modifies this`cache, this`stats
      ensures View() == After(config, old(View()), Request.Set(call, value, now))
    {
      if !IsCacheable(config, call.tool) || !config.shouldCacheValue(value) {
        return;
      }
      var key := BuildKey(config.rules, call);
      var ttlMs := config.chooseTtlMs(call.args, now);
      var expiresAt := now + ttlMs;
      if Find(cache, key).Some? {
        cache := Without(cache, key);
      } else if |cache| >= Capacity(config) {
        var oldestKey := cache[0].key;
        cache := Without(cache, oldestKey);
        stats := stats.(evictions := stats.evictions + 1);
      } else {
        WithoutAbsent(cache, key);
      }
      cache := cache + [Entry(key, value, expiresAt)];
      stats := stats.(size := |cache|);
    }

    method ClearScope(scope: Text)
      requires Valid()
      modifies this
      ensures Valid() && history == old(history) + [Request.ClearScope(scope)]
      ensures View() == After(config, old(View()), Request.ClearScope(scope))
      ensures stats == old(stats).(size := |cache|)
    {
      Recorded(Request.ClearScope(scope));
      var prefix := ScopePrefix(scope);
      var gone := key => prefix <= key;
      assert gone == MapOp(config, Request.ClearScope(scope)).value.gone;
      DropKeys(gone);
      stats := stats.(size := |cache|);
      history := history + [Request.ClearScope(scope)];
    }

    /** The loop of `clearScope`, which deletes from the map it walks over. */
    method DropKeys(gone: Text -> bool)
      requires DistinctKeys(cache)
      modifies this`cache
      ensures cache == Kept(old(cache), gone)
    {
      var entries := cache;
      for i := 0 to |entries|
        invariant DistinctKeys(cache) && cache == Kept(entries[..i], gone) + entries[i..]
      {
        DropOne(entries, i, gone);
        if gone(entries[i].key) {
          cache := Without(cache, entries[i].key);
        }
      }
      assert entries[..|entries|] == entries && entries[|entries|..] == [];
    }

    method Clear()
      requires Valid()
      modifies this
      ensures Valid() && history == old(history) + [Request.Clear]
      ensures cache == [] && stats == old(stats).(size := 0)
    {
      Recorded(Request.Clear);
      EverythingGone(cache);
      cache := [];
      stats := stats.(size := 0);
      history := history + [Request.Clear];
    }

    lemma Recorded(r: Request)
      requires Valid() && ValidRequest(r)
      ensures ValidRequests(history + [r])
      ensures RunCache(config, history + [r]) == After(config, View(), r)
      ensures Inv(Capacity(config), After(config, View(), r))
    {
      RunCacheStep(config, history, r);
      RunKeepsInv(Capacity(config), MapOps(config, history + [r]));
    }
  }

  /** One round of the deleting loop. */
  lemma DropOne<K>(c: seq<Entry<K>>, i: nat, gone: K -> bool)
    requires i < |c|
    requires DistinctKeys(Kept(c[..i], gone) + c[i..])
    ensures
      var before, after := Kept(c[..i], gone) + c[i..], Kept(c[..i + 1], gone) + c[i + 1..];
      DistinctKeys(after) && after == if gone(c[i].key) then Without(before, c[i].key) else before
  {
    hide DistinctKeys, Without, Find;
    assert c[..i + 1][..i] == c[..i];
    assert c[i..] == [c[i]] + c[i + 1..];
    if gone(c[i].key) {
      DeleteMiddle(Kept(c[..i], gone), c[i], c[i + 1..]);
      WithoutIsDistinct(Kept(c[..i], gone) + c[i..], c[i].key);
    } else {
      assert Kept(c[..i], gone) + ([c[i]] + c[i + 1..]) == Kept(c[..i], gone) + [c[i]] + c[i + 1..];
    }
  }

  lemma FoundAlone<K>(e: Entry<K>)
    ensures Find([e], e.key) == Some(e) && Without([e], e.key) == []
  {
    Appended([], e);
    assert [] + [e] == [e];
  }

  lemma DeleteMiddle<K>(a: seq<Entry<K>>, e: Entry<K>, b: seq<Entry<K>>)
    requires DistinctKeys(a + ([e] + b))
    ensures Without(a + ([e] + b), e.key) == a + b
  {
    hide *;
    DistinctParts(a, [e] + b);
    DistinctParts([e], b);
    FoundAlone(e);
    FindInConcat([e], b, e.key);
    WithoutConcat(a, [e] + b, e.key);
    WithoutConcat([e], b, e.key);
    WithoutAbsent(a, e.key);
    WithoutAbsent(b, e.key);
  }

  lemma {:induction false} EverythingGone<K>(c: seq<Entry<K>>)
    ensures Kept(c, key => true) == []
  {
    if c != [] {
      EverythingGone(c[..|c| - 1]);
    }
  }
}
