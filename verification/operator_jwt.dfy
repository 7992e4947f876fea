/** The key cache of the operator token verifier: one shared load at a time, at most two fetches per load,
    a deadline per fetch, a cooldown after a failed load and a lifetime for installed keys.

    As in the route registration, each step between two awaits is one event, events come in any order,
    and a transport may ignore its abort and settle as late as it likes. */
module OperatorJwt {
  import opened Wrappers

  const CACHE_TTL_MS: real := 15000.0
  const FAILURE_COOLDOWN_MS: real := 1000.0
  const MAX_FETCH_ATTEMPTS: nat := 2

  /** Keys are known by their ids here. */
  datatype Result = Keys(keys: seq<string>) | Failure(retryable: bool)
  datatype Race = Open | Decided(result: Result)
  datatype Transport = AwaitingResponse | ReadingBody | Settled

  /** One call of `fetchKeys` that reached the network. `released` tells that its `settled` callback ran. */
  datatype Fetch = Fetch(expired: bool, transport: Transport, race: Race, released: bool)

  /** Where a load stands: waiting for a fetch, refused a fetch because a transport is still active, in the
      pause before its second attempt, or over. */
  datatype Phase = Waiting(fetch: nat) | Refused | Pausing | Ended(ok: bool)
  datatype Load = Load(startedAt: real, attempt: nat, fetchCount: nat, phase: Phase, endedAt: real, cleared: bool)

  datatype State = State(
    now: real,
    keys: seq<string>,
    expires: real,
    installedAt: real,
    pending: Option<nat>,
    retryAt: real,
    transportActive: bool,
    loads: seq<Load>,
    fetches: seq<Fetch>)

  datatype Event =
    | Clock(now: real)
    | Verify(kid: string)
    | Response(fetch: nat, ok: bool, worthRetrying: bool)
    | TransportError(fetch: nat)
    | Body(fetch: nat, keys: Option<seq<string>>)
    | Timeout(fetch: nat)
    | Release(fetch: nat)
    | Resume(load: nat)
    | PauseOver(load: nat)
    | ClearPending(load: nat)

  function Init(now: real): State {
    State(now, [], 0.0, 0.0, None, 0.0, false, [], [])
  }

  // ----- Steps -----

  /** `verify` uses the snapshot when this is false. */
  predicate NeedsLoad(s: State, kid: string) {
    s.now >= s.expires || kid !in s.keys
  }

  /** `fetchKeys`, for the attempt that load `id` is about to make. */
  function BeginFetch(s: State, id: nat): State
    requires id < |s.loads|
  {
    var load := s.loads[id];
    if s.transportActive then s.(loads := s.loads[id := load.(phase := Refused)])
    else
      s.(transportActive := true,
         fetches := s.fetches + [Fetch(false, AwaitingResponse, Open, false)],
         loads := s.loads[id := load.(phase := Waiting(|s.fetches|), fetchCount := load.fetchCount + 1)])
  }

  function BeginLoad(s: State): State {
    if s.pending.Some? || s.now < s.retryAt then s
    else BeginFetch(WithLoad(s), |s.loads|)
  }

  /** The state between the two parts of beginning a load: it is pending and about to make its first fetch. */
  function WithLoad(s: State): State {
    s.(pending := Some(|s.loads|), loads := s.loads + [Load(s.now, 0, 0, Pausing, 0.0, false)])
  }

  function SettledFetch(f: Fetch, result: Result): Fetch {
    f.(transport := Settled, race := if f.race.Open? then Decided(result) else f.race)
  }

  /** The transport of a fetch has settled; that decides the fetch, unless its deadline did before. */
  predicate IsOver(before: Fetch, after: Fetch, result: Result) {
    && after.transport.Settled? && after.race == (if before.race.Open? then Decided(result) else before.race)
    && after == before.(transport := after.transport, race := after.race)
  }

  predicate Running(s: State, f: nat) {
    f < |s.fetches| && !s.fetches[f].transport.Settled?
  }

  /** The rest of one round of the attempt loop, once its outcome is known. */
  function Continue(s: State, id: nat, result: Result): State
    requires id < |s.loads|
  {
    var load := s.loads[id];
    match result
    case Keys(keys) =>
      s.(keys := keys, expires := s.now + CACHE_TTL_MS, installedAt := s.now, retryAt := 0.0,
         loads := s.loads[id := load.(phase := Ended(true), endedAt := s.now)])
    case Failure(retryable) =>
      if !retryable || load.attempt + 1 == MAX_FETCH_ATTEMPTS then
        s.(retryAt := s.now + FAILURE_COOLDOWN_MS,
           loads := s.loads[id := load.(phase := Ended(false), endedAt := s.now)])
      else s.(loads := s.loads[id := load.(phase := Pausing, attempt := load.attempt + 1)])
  }

  /** What a load learns when it resumes; nothing if its fetch is still undecided. */
  function Outcome(s: State, id: nat): Option<Result>
    requires id < |s.loads|
  {
    match s.loads[id].phase
    case Waiting(f) => if f < |s.fetches| && s.fetches[f].race.Decided? then Some(s.fetches[f].race.result) else None
    case Refused => Some(Failure(false))
    case _ => None
  }

  function Apply(s: State, e: Event): State {
    match e
    case Clock(now) => s.(now := now)
    case Verify(kid) => if NeedsLoad(s, kid) then BeginLoad(s) else s
    case Response(f, ok, worthRetrying) =>
      if !Running(s, f) || !s.fetches[f].transport.AwaitingResponse? then s
      else if s.fetches[f].expired || !ok then
        s.(fetches := s.fetches[f := SettledFetch(s.fetches[f], Failure(!s.fetches[f].expired && worthRetrying))])
      else s.(fetches := s.fetches[f := s.fetches[f].(transport := ReadingBody)])
    case TransportError(f) =>
      if !Running(s, f) then s else s.(fetches := s.fetches[f := SettledFetch(s.fetches[f], Failure(true))])
    case Body(f, keys) =>
      if !Running(s, f) || !s.fetches[f].transport.ReadingBody? then s
      else if s.fetches[f].expired || keys.None?
        then s.(fetches := s.fetches[f := SettledFetch(s.fetches[f], Failure(false))])
      else s.(fetches := s.fetches[f := SettledFetch(s.fetches[f], Keys(keys.value))])
    case Timeout(f) =>
      if f < |s.fetches| && s.fetches[f].race.Open? then
        s.(fetches := s.fetches[f := s.fetches[f].(expired := true, race := Decided(Failure(true)))])
      else s
    case Release(f) =>
      if f < |s.fetches| && s.fetches[f].transport.Settled? && !s.fetches[f].released then
        s.(transportActive := false, fetches := s.fetches[f := s.fetches[f].(released := true)])
      else s
    case Resume(id) =>
      if id < |s.loads| && Outcome(s, id).Some? then Continue(s, id, Outcome(s, id).value) else s
    case PauseOver(id) =>
      if id < |s.loads| && s.loads[id].phase.Pausing? && s.loads[id].attempt > 0 then BeginFetch(s, id) else s
    case ClearPending(id) =>
      if id < |s.loads| && s.loads[id].phase.Ended? && !s.loads[id].cleared then
        s.(pending := None, loads := s.loads[id := s.loads[id].(cleared := true)])
      else s
  }

  function Run(now: real, events: seq<Event>): State {
    if events == [] then Init(now) else Apply(Run(now, events[..|events| - 1]), events[|events| - 1])
  }

  // ----- The invariant -----

  /** A fetch holds the transport until it is released, is the newest one until then, and reports keys only
      if it settled before its deadline. */
  predicate FetchInv(s: State, f: nat)
    requires f < |s.fetches|
  {
    var fetch := s.fetches[f];
    && (!fetch.released ==> s.transportActive && f == |s.fetches| - 1)
    && (fetch.released ==> fetch.transport.Settled?)
    && (fetch.transport.Settled? ==> fetch.race.Decided?)
    && (fetch.race.Decided? && fetch.race.result.Keys? ==> !fetch.expired && fetch.transport.Settled?)
    && (fetch.race.Open? ==> !fetch.expired)
  }

  /** A load is the pending one until it is cleared, makes at most one fetch per attempt, and after a
      failure the next load, if there is one, started no sooner than the cooldown allows. */
  predicate LoadInv(s: State, id: nat)
    requires id < |s.loads|
  {
    var load := s.loads[id];
    && (!load.cleared ==> s.pending == Some(id) && id == |s.loads| - 1)
    && (load.cleared ==> load.phase.Ended?)
    && load.attempt < MAX_FETCH_ATTEMPTS
    && load.fetchCount <= load.attempt + (if load.phase.Pausing? then 0 else 1)
    && (load.phase == Ended(false) ==>
          if id + 1 < |s.loads| then s.loads[id + 1].startedAt >= load.endedAt + FAILURE_COOLDOWN_MS
          else s.retryAt == load.endedAt + FAILURE_COOLDOWN_MS)
  }

  ghost predicate Inv(s: State) {
    && (forall f :: 0 <= f < |s.fetches| ==> FetchInv(s, f))
    && (s.transportActive ==> s.fetches != [] && !s.fetches[|s.fetches| - 1].released)
    && (forall id :: 0 <= id < |s.loads| ==> LoadInv(s, id))
    && (s.pending.Some? ==> s.pending.value == |s.loads| - 1 && s.loads != [] && !s.loads[|s.loads| - 1].cleared)
    && (s.expires == 0.0 || s.expires == s.installedAt + CACHE_TTL_MS)
  }

  // The events change one fetch, one load, or begin one. Each kind is its own lemma.

  predicate ChangesFetch(e: Event) {
    e.Response? || e.TransportError? || e.Body? || e.Timeout? || e.Release?
  }

  lemma ChangedFetchKeepsInv(s: State, e: Event, f: nat)
    requires Inv(s) && ChangesFetch(e) && f < |Apply(s, e).fetches|
    ensures FetchInv(Apply(s, e), f)
  {
    assert FetchInv(s, f);
    if e.fetch < |s.fetches| {
      assert FetchInv(s, e.fetch);
    }
    hide Inv, LoadInv;
    if f != e.fetch {
      SameFetchKeepsInv(s, Apply(s, e), f);
    }
  }

  /** A fetch that keeps its place, while no transport is begun, and none released but the newest. */
  lemma SameFetchKeepsInv(s: State, t: State, f: nat)
    requires f < |s.fetches| == |t.fetches| && FetchInv(s, f) && t.fetches[f] == s.fetches[f]
    requires s.fetches[f].released || t.transportActive == s.transportActive
    ensures FetchInv(t, f)
  {
  }

  lemma BegunFetchKeepsInv(s: State, id: nat, f: nat)
    requires Inv(s) && id < |s.loads| && f < |BeginFetch(s, id).fetches|
    ensures FetchInv(BeginFetch(s, id), f)
  {
    if f < |s.fetches| {
      assert FetchInv(s, f);
    }
    hide Inv, LoadInv;
  }

  lemma SameFetchesKeepInv(s: State, t: State, f: nat)
    requires Inv(s) && t.fetches == s.fetches && t.transportActive == s.transportActive && f < |s.fetches|
    ensures FetchInv(t, f)
  {
    assert FetchInv(s, f);
    hide Inv, LoadInv;
  }

  /** A load that keeps its place and stays as it was; if it failed last of all, the cooldown is kept too. */
  lemma SameLoadKeepsInv(s: State, t: State, id: nat)
    requires id < |s.loads| == |t.loads| && LoadInv(s, id) && t.loads[id] == s.loads[id]
    requires s.loads[id].cleared || t.pending == s.pending
    requires id + 1 < |s.loads| ==> t.loads[id + 1].startedAt == s.loads[id + 1].startedAt
    requires id + 1 == |s.loads| && s.loads[id].phase == Ended(false) ==> t.retryAt == s.retryAt
    ensures LoadInv(t, id)
  {
  }

  lemma BegunFetchKeepsLoad(s: State, id: nat, g: nat)
    requires Inv(s) && id < |s.loads| && g < |s.loads| && s.loads[id].phase.Pausing?
    ensures LoadInv(BeginFetch(s, id), g)
  {
    assert LoadInv(s, g) && LoadInv(s, id);
    hide Inv, FetchInv;
    if g != id {
      SameLoadKeepsInv(s, BeginFetch(s, id), g);
    }
  }

  lemma ContinuedKeepsLoad(s: State, id: nat, result: Result, g: nat)
    requires Inv(s) && id < |s.loads| && g < |s.loads| && !s.loads[id].phase.Pausing? && !s.loads[id].phase.Ended?
    ensures LoadInv(Continue(s, id, result), g)
  {
    assert LoadInv(s, g) && LoadInv(s, id);
    hide Inv, FetchInv;
    if g != id {
      SameLoadKeepsInv(s, Continue(s, id, result), g);
    }
  }

  lemma ClearedKeepsLoad(s: State, id: nat, g: nat)
    requires Inv(s) && g < |s.loads|
    ensures LoadInv(Apply(s, ClearPending(id)), g)
  {
    assert LoadInv(s, g);
    if id < |s.loads| {
      assert LoadInv(s, id);
    }
    hide Inv, FetchInv;
    if g != id {
      SameLoadKeepsInv(s, Apply(s, ClearPending(id)), g);
    }
  }

  lemma WithLoadKeepsInv(s: State)
    requires Inv(s) && s.pending.None? && s.now >= s.retryAt
    ensures Inv(WithLoad(s))
  {
    var t := WithLoad(s);
    forall f | 0 <= f < |t.fetches|
      ensures FetchInv(t, f)
    {
      SameFetchesKeepInv(s, t, f);
    }
    forall id | 0 <= id < |t.loads|
      ensures LoadInv(t, id)
    {
      if id < |s.loads| {
        assert LoadInv(s, id);
      }
    }
    hide FetchInv, LoadInv;
  }

  lemma BeginFetchKeepsInv(s: State, id: nat)
    requires Inv(s) && id < |s.loads| && s.loads[id].phase.Pausing?
    ensures Inv(BeginFetch(s, id))
  {
    var t := BeginFetch(s, id);
    forall f | 0 <= f < |t.fetches|
      ensures FetchInv(t, f)
    {
      BegunFetchKeepsInv(s, id, f);
    }
    forall g | 0 <= g < |t.loads|
      ensures LoadInv(t, g)
    {
      BegunFetchKeepsLoad(s, id, g);
    }
    hide FetchInv, LoadInv;
  }

  lemma BeginLoadKeepsInv(s: State)
    requires Inv(s)
    ensures Inv(BeginLoad(s))
  {
    hide Inv, BeginFetch;
    if s.pending.None? && s.now >= s.retryAt {
      WithLoadKeepsInv(s);
      BeginFetchKeepsInv(WithLoad(s), |s.loads|);
    }
  }

  lemma ContinueKeepsInv(s: State, id: nat)
    requires Inv(s) && id < |s.loads| && Outcome(s, id).Some?
    ensures Inv(Continue(s, id, Outcome(s, id).value))
  {
    var t := Continue(s, id, Outcome(s, id).value);
    forall f | 0 <= f < |t.fetches|
      ensures FetchInv(t, f)
    {
      SameFetchesKeepInv(s, t, f);
    }
    forall g | 0 <= g < |t.loads|
      ensures LoadInv(t, g)
    {
      ContinuedKeepsLoad(s, id, Outcome(s, id).value, g);
    }
    assert LoadInv(s, id);
    hide FetchInv, LoadInv;
  }

  lemma ClearPendingKeepsInv(s: State, id: nat)
    requires Inv(s)
    ensures Inv(Apply(s, ClearPending(id)))
  {
    var t := Apply(s, ClearPending(id));
    forall f | 0 <= f < |t.fetches|
      ensures FetchInv(t, f)
    {
      SameFetchesKeepInv(s, t, f);
    }
    forall g | 0 <= g < |t.loads|
      ensures LoadInv(t, g)
    {
      ClearedKeepsLoad(s, id, g);
    }
    hide FetchInv, LoadInv;
  }

  lemma ChangeKeepsInv(s: State, e: Event)
    requires Inv(s) && (ChangesFetch(e) || e.Clock?)
    ensures Inv(Apply(s, e))
  {
    var t := Apply(s, e);
    forall f | 0 <= f < |t.fetches|
      ensures FetchInv(t, f)
    {
      if e.Clock? {
        SameFetchesKeepInv(s, t, f);
      } else {
        ChangedFetchKeepsInv(s, e, f);
      }
    }
    forall id | 0 <= id < |t.loads|
      ensures LoadInv(t, id)
    {
      assert LoadInv(s, id);
      SameLoadKeepsInv(s, t, id);
    }
    if ChangesFetch(e) && e.fetch < |s.fetches| {
      ReleasedIsNewest(s, e);
    }
    hide FetchInv, LoadInv;
  }

  /** Only the newest fetch can still be released. */
  lemma ReleasedIsNewest(s: State, e: Event)
    requires Inv(s) && ChangesFetch(e) && e.fetch < |s.fetches|
    ensures !s.fetches[e.fetch].released ==> s.transportActive && e.fetch == |s.fetches| - 1
  {
    assert FetchInv(s, e.fetch);
  }

  lemma ApplyKeepsInv(s: State, e: Event)
    requires Inv(s)
    ensures Inv(Apply(s, e))
  {
    hide Inv, BeginLoad, BeginFetch, Continue, Outcome;
    match e
    case Verify(_) => BeginLoadKeepsInv(s);
    case Resume(id) =>
      if id < |s.loads| && Outcome(s, id).Some? {
        ContinueKeepsInv(s, id);
      }
    case PauseOver(id) =>
      if id < |s.loads| && s.loads[id].phase.Pausing? {
        BeginFetchKeepsInv(s, id);
      }
    case ClearPending(id) => ClearPendingKeepsInv(s, id);
    case _ => ChangeKeepsInv(s, e);
  }

  /** After every sequence of events. */
  lemma {:induction false} RunKeepsInv(now: real, events: seq<Event>)
    ensures Inv(Run(now, events))
  {
    if events != [] {
      RunKeepsInv(now, events[..|events| - 1]);
      ApplyKeepsInv(Run(now, events[..|events| - 1]), events[|events| - 1]);
    }
  }

  // ----- Results -----

  /** The flag holds exactly while one transport has not been released, and no two are ever under way. */
  lemma TransportActiveIff(s: State)
    requires Inv(s)
    ensures s.transportActive <==> exists f :: 0 <= f < |s.fetches| && !s.fetches[f].released
    ensures forall f, g | 0 <= f < |s.fetches| && 0 <= g < |s.fetches| ::
              !s.fetches[f].released && !s.fetches[g].released ==> f == g
    ensures forall f :: 0 <= f < |s.fetches| && !s.fetches[f].transport.Settled? ==> !s.fetches[f].released
  {
    forall f | 0 <= f < |s.fetches|
      ensures !s.fetches[f].released ==> s.transportActive && f == |s.fetches| - 1
      ensures s.fetches[f].released ==> s.fetches[f].transport.Settled?
    {
      assert FetchInv(s, f);
    }
  }

  /** All verifications share one load, which fetches at most twice. */
  lemma LoadsAreBounded(s: State, id: nat)
    requires Inv(s) && id < |s.loads|
    ensures s.loads[id].fetchCount <= 2 && s.loads[id].attempt < 2
    ensures !s.loads[id].cleared ==> s.pending == Some(id)
  {
    assert LoadInv(s, id);
  }

  /** Keys and their expiry change only together, on the success of the load that resumes, for a fetch that
      settled before its deadline. */
  lemma OnlySuccessInstalls(s: State, e: Event)
    requires Inv(s) && (Apply(s, e).keys != s.keys || Apply(s, e).expires != s.expires)
    ensures e.Resume? && e.load < |s.loads| && s.loads[e.load].phase.Waiting?
    ensures var f := s.loads[e.load].phase.fetch;
            && f < |s.fetches| && !s.fetches[f].expired
            && s.fetches[f].race == Decided(Keys(Apply(s, e).keys))
            && Apply(s, e).expires == s.now + CACHE_TTL_MS
            && Apply(s, e).retryAt == 0.0
  {
    assert e.Resume? && e.load < |s.loads|;
    var f := s.loads[e.load].phase.fetch;
    assert FetchInv(s, f);
  }

  function ApplyAll(s: State, events: seq<Event>): State
    decreases |events|
  {
    if events == [] then s else ApplyAll(Apply(s, events[0]), events[1..])
  }

  lemma DecidedStays(s: State, e: Event, f: nat)
    requires f < |s.fetches| && s.fetches[f].race.Decided?
    ensures f < |Apply(s, e).fetches| && Apply(s, e).fetches[f].race == s.fetches[f].race
  {
  }

  /** A fetch that ran into its deadline never delivers keys, however late its transport answers. */
  lemma {:induction false} TimedOutNeverDelivers(s: State, f: nat, events: seq<Event>)
    requires Inv(s) && f < |s.fetches| && s.fetches[f].expired
    ensures f < |ApplyAll(s, events).fetches|
    ensures ApplyAll(s, events).fetches[f].race.Decided? && ApplyAll(s, events).fetches[f].race.result.Failure?
    decreases |events|
  {
    assert FetchInv(s, f);
    RaceStays(s, f, events);
  }

  lemma {:induction false} RaceStays(s: State, f: nat, events: seq<Event>)
    requires f < |s.fetches| && s.fetches[f].race.Decided?
    ensures f < |ApplyAll(s, events).fetches| && ApplyAll(s, events).fetches[f].race == s.fetches[f].race
    decreases |events|
  {
    if events != [] {
      DecidedStays(s, events[0], f);
      RaceStays(Apply(s, events[0]), f, events[1..]);
    }
  }

  /** Between the failure of a load and the start of the next lies at least the cooldown. */
  lemma FailedLoadCoolsDown(s: State, id: nat)
    requires Inv(s) && id + 1 < |s.loads| && s.loads[id].phase == Ended(false)
    ensures s.loads[id + 1].startedAt >= s.loads[id].endedAt + 1000.0
  {
    assert LoadInv(s, id);
  }

  // ----- What a load comes to -----

  /** A fetch that is waited for, open, and whose transport stands where given. */
  predicate WaitsFor(s: State, id: nat, f: nat, transport: Transport) {
    && id < |s.loads| && s.loads[id].phase == Waiting(f)
    && f < |s.fetches| && s.fetches[f].race.Open? && s.fetches[f].transport == transport
  }

  /** The result that an event gives an open fetch. A complete document gives its keys. The deadline, an error of
      the transport and some answers are worth a retry; other answers and a bad document are not. */
  function ResultOf(s: State, e: Event): Option<Result>
    requires ChangesFetch(e) && e.fetch < |s.fetches|
  {
    var transport := s.fetches[e.fetch].transport;
    match e
    case Body(_, Some(keys)) => if transport.ReadingBody? then Some(Keys(keys)) else None
    case Body(_, None) => if transport.ReadingBody? then Some(Failure(false)) else None
    case Response(_, ok, worthRetrying) =>
      if transport.AwaitingResponse? && !ok then Some(Failure(worthRetrying)) else None
    case TransportError(_) => if transport.Settled? then None else Some(Failure(true))
    case Timeout(_) => Some(Failure(true))
    case Release(_) => None
  }

  /** What decides an open fetch, and what does not. */
  lemma FetchIsDecidedBy(s: State, e: Event)
    requires Inv(s) && ChangesFetch(e) && e.fetch < |s.fetches| && s.fetches[e.fetch].race.Open?
    ensures var fetch := Apply(s, e).fetches[e.fetch];
            fetch.race == match ResultOf(s, e) { case Some(result) => Decided(result) case None => Open }
  {
    assert FetchInv(s, e.fetch);
  }

  /** A load that resumes with keys has them, for one lifetime from now. One that resumes with a failure makes its
      second attempt if that failure is worth it and was the first, and otherwise is over, with a cooldown. */
  lemma LoadResumes(s: State, id: nat)
    requires id < |s.loads| && Outcome(s, id).Some? && s.loads[id].attempt < 2
    ensures var t, attempt := Apply(s, Resume(id)), s.loads[id].attempt;
            match Outcome(s, id).value
            case Keys(keys) =>
              && t.keys == keys && t.expires == s.now + 15000.0 && t.retryAt == 0.0
              && t.loads[id].phase == Ended(true) && t.loads[id].endedAt == s.now
            case Failure(retryable) =>
              && t.keys == s.keys && t.expires == s.expires
              && if retryable && attempt == 0 then
                   t.loads[id].phase == Pausing && t.loads[id].attempt == 1 && t.retryAt == s.retryAt
                 else
                   && t.loads[id].phase == Ended(false) && t.loads[id].endedAt == s.now
                   && t.retryAt == s.now + 1000.0
  {
  }

  /** No load ends during `events`. */
  ghost predicate NothingResumes(events: seq<Event>) {
    forall i :: 0 <= i < |events| ==> !events[i].Resume?
  }

  lemma {:induction false} WaitingStays(s: State, id: nat, events: seq<Event>)
    requires id < |s.loads| && s.loads[id].phase.Waiting? && NothingResumes(events)
    ensures var t := ApplyAll(s, events); id < |t.loads| && t.loads[id] == s.loads[id]
    decreases |events|
  {
    if events != [] {
      assert !events[0].Resume?;
      assert NothingResumes(events[1..]) by {
        assert forall i :: 0 <= i < |events| - 1 ==> events[1..][i] == events[i + 1];
      }
      WaitingStaysOnce(s, id, events[0]);
      hide Apply, NothingResumes;
      WaitingStays(Apply(s, events[0]), id, events[1..]);
    }
  }

  lemma WaitingStaysOnce(s: State, id: nat, e: Event)
    requires id < |s.loads| && s.loads[id].phase.Waiting? && !e.Resume?
    ensures id < |Apply(s, e).loads| && Apply(s, e).loads[id] == s.loads[id]
  {
  }

  /** From a fetch that is waited for, what decides it decides its load, whatever happens before that resumes:
      keys are then held for one lifetime from that moment, and a failure leads to the one retry or to a cooldown. */
  lemma DecidedLoad(s: State, id: nat, e: Event, between: seq<Event>)
    requires Inv(s) && ChangesFetch(e) && e.fetch < |s.fetches|
    requires WaitsFor(s, id, e.fetch, s.fetches[e.fetch].transport)
    requires ResultOf(s, e).Some? && NothingResumes(between)
    ensures var r := ApplyAll(Apply(s, e), between);
            id < |r.loads| && Outcome(r, id) == ResultOf(s, e) && r.loads[id].attempt == s.loads[id].attempt < 2
  {
    FetchIsDecidedBy(s, e);
    assert LoadInv(s, id);
    hide Inv;
    var t := Apply(s, e);
    assert t.loads == s.loads;
    WaitingStays(t, id, between);
    RaceStays(t, e.fetch, between);
    hide Apply, ResultOf;
  }

  /** During `events` no load resumes with keys. */
  ghost predicate NothingInstalled(s: State, events: seq<Event>)
    decreases |events|
  {
    events != [] ==>
      && !(events[0].Resume? && events[0].load < |s.loads| && Outcome(s, events[0].load).Some?
           && Outcome(s, events[0].load).value.Keys?)
      && NothingInstalled(Apply(s, events[0]), events[1..])
  }

  lemma {:induction false} KeysAreKept(s: State, events: seq<Event>)
    requires NothingInstalled(s, events)
    ensures ApplyAll(s, events).keys == s.keys && ApplyAll(s, events).expires == s.expires
    decreases |events|
  {
    if events != [] {
      KeysAreKeptOnce(s, events[0]);
      hide Apply, Outcome;
      KeysAreKept(Apply(s, events[0]), events[1..]);
    }
  }

  lemma KeysAreKeptOnce(s: State, e: Event)
    requires !(e.Resume? && e.load < |s.loads| && Outcome(s, e.load).Some? && Outcome(s, e.load).value.Keys?)
    ensures Apply(s, e).keys == s.keys && Apply(s, e).expires == s.expires
  {
  }

  /** A complete document that arrives before the deadline of a fetch that is waited for ends its load as
      successful. Its keys are installed when the load resumes, and until one lifetime later, or until other keys
      are installed, a verification of one of their ids, and of no other, needs no load. */
  lemma GoodDocumentServes(s: State, id: nat, f: nat, keys: seq<string>, between: seq<Event>, after: seq<Event>,
                           kid: string)
    requires Inv(s) && WaitsFor(s, id, f, ReadingBody) && NothingResumes(between)
    requires NothingInstalled(Apply(ApplyAll(Apply(s, Body(f, Some(keys))), between), Resume(id)), after)
    ensures var r := ApplyAll(Apply(s, Body(f, Some(keys))), between);
            var t := Apply(r, Resume(id));
            var u := ApplyAll(t, after);
            && id < |t.loads| && t.loads[id].phase == Ended(true) && t.keys == keys && t.retryAt == 0.0
            && (NeedsLoad(u, kid) <==> kid !in keys || u.now >= r.now + 15000.0)
  {
    var e := Body(f, Some(keys));
    assert ResultOf(s, e) == Some(Keys(keys));
    DecidedLoad(s, id, e, between);
    var r := ApplyAll(Apply(s, e), between);
    LoadResumes(r, id);
    var t := Apply(r, Resume(id));
    assert id < |t.loads|;
    hide Inv, Apply, Outcome, ResultOf, WaitsFor;
    KeysAreKept(t, after);
  }

  /** The second attempt begins, after the pause, a fetch of its own, unless a transport is still active. */
  lemma RetryFetches(s: State, id: nat)
    requires id < |s.loads| && s.loads[id].phase.Pausing? && s.loads[id].attempt > 0
    ensures var t := Apply(s, PauseOver(id));
            if s.transportActive then Outcome(t, id) == Some(Failure(false)) && t.fetches == s.fetches
            else WaitsFor(t, id, |s.fetches|, AwaitingResponse) && |t.fetches| == |s.fetches| + 1
  {
  }

  /** A verification that uses the snapshot without a load finds keys that were installed less than one
      lifetime ago. Failed loads in between have not extended it. */
  lemma SnapshotIsFresh(s: State, kid: string)
    requires Inv(s) && s.now >= 0.0 && !NeedsLoad(s, kid)
    ensures kid in s.keys && s.now - s.installedAt < CACHE_TTL_MS
  {
  }

  lemma KnownFetch(s: State, f: nat)
    requires Inv(s) && f < |s.fetches|
    ensures FetchInv(s, f)
  {
  }

  // ----- The class -----

  class OperatorJwtVerifier {
    var now: real
    var keys: seq<string>
    var expires: real
    ghost var installedAt: real
    var pending: Option<nat>
    var retryAt: real
    var transportActive: bool
    var loads: seq<Load>
    var fetches: seq<Fetch>

    ghost function View(): State
      reads this
    {
      State(now, keys, expires, installedAt, pending, retryAt, transportActive, loads, fetches)
    }

    constructor (now: real)
      ensures View() == Init(now) && Inv(View())
    {
      this.now := now;
      keys, expires, installedAt := [], 0.0, 0.0;
      pending, retryAt, transportActive := None, 0.0, false;
      loads, fetches := [], [];
    }

    /** The part of `verify` before its keys are used: a load, unless the snapshot serves. */
    method StartVerify(kid: string)
      requires Inv(View())
      modifies this
      ensures View() == Apply(old(View()), Verify(kid)) && Inv(View())
      ensures |loads| == |old(loads)| + 1 <==>
        (now >= expires || kid !in keys) && old(pending).None? && now >= retryAt
      ensures |loads| == |old(loads)| ==> View() == old(View())
    {
      ApplyKeepsInv(View(), Verify(kid));
      if now >= expires || kid !in keys {
        StartLoad();
      }
    }

    /** `load`. While a load is pending it is shared, and in the cooldown it is refused: both change nothing.
        Otherwise one load begins, now, which is the pending one; it has made one fetch, or none if a
        transport is still active. */
    method StartLoad()
      requires Inv(View())
      modifies this`pending, this`loads, this`transportActive, this`fetches
      ensures Inv(View()) && View() == BeginLoad(old(View()))
      ensures old(pending).Some? || now < retryAt ==> View() == old(View())
      ensures old(pending).None? && now >= retryAt ==>
        && |loads| == |old(loads)| + 1 && loads[..|loads| - 1] == old(loads) && pending == Some(|loads| - 1)
        && loads[|loads| - 1].startedAt == now && loads[|loads| - 1].attempt == 0
        && (if old(transportActive) then loads[|loads| - 1].phase == Refused && fetches == old(fetches)
            else loads[|loads| - 1].phase == Waiting(|old(fetches)|) && |fetches| == |old(fetches)| + 1)
    {
      BeginLoadKeepsInv(View());
      if pending.Some? || now < retryAt {
        return;
      }
      var id := |loads|;
      pending := Some(id);
      loads := loads + [Load(now, 0, 0, Pausing, 0.0, false)];
      FetchKeys(id);
    }

    /** The synchronous part of `fetchKeys`. While a transport is active, no second one is begun and the load
        is refused. Otherwise exactly one transport is begun, which the load waits for and counts. No other
        load and no earlier fetch changes. */
    method FetchKeys(id: nat)
      requires id < |loads|
      modifies this`loads, this`transportActive, this`fetches
      ensures View() == BeginFetch(old(View()), id) && transportActive
      ensures |loads| == |old(loads)| && forall g :: 0 <= g < |loads| && g != id ==> loads[g] == old(loads)[g]
      ensures old(transportActive) ==>
        fetches == old(fetches) && loads[id].phase == Refused && loads[id].fetchCount == old(loads)[id].fetchCount
      ensures !old(transportActive) ==>
        && |fetches| == |old(fetches)| + 1 && fetches[..|fetches| - 1] == old(fetches)
        && fetches[|fetches| - 1].race.Open? && !fetches[|fetches| - 1].expired
        && loads[id].phase == Waiting(|fetches| - 1) && loads[id].fetchCount == old(loads)[id].fetchCount + 1
    {
      if transportActive {
        loads := loads[id := loads[id].(phase := Refused)];
        return;
      }
      transportActive := true;
      loads := loads[id := loads[id].(phase := Waiting(|fetches|), fetchCount := loads[id].fetchCount + 1)];
      fetches := fetches + [Fetch(false, AwaitingResponse, Open, false)];
    }

    method SettleFetch(f: nat, result: Result)
      requires f < |fetches|
      modifies this`fetches
      ensures fetches == old(fetches)[f := SettledFetch(old(fetches)[f], result)]
    {
      fetches := fetches[f := fetches[f].(transport := Settled)];
      if fetches[f].race.Open? {
        fetches := fetches[f := fetches[f].(race := Decided(result))];
      }
    }

    method OnResponse(f: nat, ok: bool, worthRetrying: bool)
      requires Inv(View()) && f < |fetches| && fetches[f].transport.AwaitingResponse?
      modifies this
      ensures View() == Apply(old(View()), Response(f, ok, worthRetrying)) && Inv(View())
      ensures if ok && !old(fetches)[f].expired then fetches[f] == old(fetches)[f].(transport := ReadingBody)
              else IsOver(old(fetches)[f], fetches[f], Failure(worthRetrying))
    {
      ApplyKeepsInv(View(), Response(f, ok, worthRetrying));
      KnownFetch(View(), f);
      if fetches[f].expired || !ok {
        SettleFetch(f, Failure(!fetches[f].expired && worthRetrying));
        return;
      }
      fetches := fetches[f := fetches[f].(transport := ReadingBody)];
    }

    method OnBody(f: nat, document: Option<seq<string>>)
      requires Inv(View()) && f < |fetches| && fetches[f].transport.ReadingBody?
      modifies this
      ensures View() == Apply(old(View()), Body(f, document)) && Inv(View())
      ensures IsOver(old(fetches)[f], fetches[f],
                     match document { case Some(keys) => Keys(keys) case None => Failure(false) })
    {
      ApplyKeepsInv(View(), Body(f, document));
      KnownFetch(View(), f);
      if fetches[f].expired || document.None? {
        SettleFetch(f, Failure(false));
        return;
      }
      SettleFetch(f, Keys(document.value));
    }

    /** The request or the stream failed by itself. */
    method OnTransportError(f: nat)
      requires Inv(View()) && Running(View(), f)
      modifies this
      ensures View() == Apply(old(View()), TransportError(f)) && Inv(View())
      ensures IsOver(old(fetches)[f], fetches[f], Failure(true))
    {
      ApplyKeepsInv(View(), TransportError(f));
      SettleFetch(f, Failure(true));
    }

    method OnTimeout(f: nat)
      requires Inv(View()) && f < |fetches| && fetches[f].race.Open?
      modifies this
      ensures View() == Apply(old(View()), Timeout(f)) && Inv(View())
      ensures fetches[f] == old(fetches)[f].(expired := true, race := Decided(Failure(true)))
    {
      ApplyKeepsInv(View(), Timeout(f));
      fetches := fetches[f := fetches[f].(expired := true)];
      fetches := fetches[f := fetches[f].(race := Decided(Failure(true)))];
    }

    method OnTransportSettled(f: nat)
      requires Inv(View()) && f < |fetches| && fetches[f].transport.Settled? && !fetches[f].released
      modifies this
      ensures View() == Apply(old(View()), Release(f)) && Inv(View())
      ensures !transportActive && fetches[f] == old(fetches)[f].(released := true)
    {
      ApplyKeepsInv(View(), Release(f));
      transportActive := false;
      fetches := fetches[f := fetches[f].(released := true)];
    }

    /** The attempt loop goes on after `fetchKeys` has returned or thrown. */
    method OnFetchKeysDone(id: nat)
      requires Inv(View()) && id < |loads| && Outcome(View(), id).Some?
      modifies this
      ensures View() == Apply(old(View()), Resume(id)) && Inv(View())
      ensures match Outcome(old(View()), id).value
              case Keys(newKeys) =>
                keys == newKeys && expires == now + 15000.0 && retryAt == 0.0 && loads[id].phase == Ended(true)
              case Failure(retryable) =>
                && keys == old(keys) && expires == old(expires)
                && if retryable && old(loads)[id].attempt == 0
                   then loads[id].phase == Pausing && loads[id].attempt == 1 && retryAt == old(retryAt)
                   else loads[id].phase == Ended(false) && retryAt == now + 1000.0
    {
      ApplyKeepsInv(View(), Resume(id));
      LoadsAreBounded(View(), id);
      hide Inv;
      var result := if loads[id].phase.Waiting? then fetches[loads[id].phase.fetch].race.result else Failure(false);
      match result
      case Keys(newKeys) =>
        keys := newKeys;
        expires := now + CACHE_TTL_MS;
        installedAt := now;
        retryAt := 0.0;
        loads := loads[id := loads[id].(phase := Ended(true), endedAt := now)];
      case Failure(retryable) =>
        if !retryable || loads[id].attempt + 1 == MAX_FETCH_ATTEMPTS {
          retryAt := now + FAILURE_COOLDOWN_MS;
          loads := loads[id := loads[id].(phase := Ended(false), endedAt := now)];
        } else {
          loads := loads[id := loads[id].(phase := Pausing, attempt := loads[id].attempt + 1)];
        }
    }

    method OnPauseOver(id: nat)
      requires Inv(View()) && id < |loads| && loads[id].phase.Pausing? && loads[id].attempt > 0
      modifies this
      ensures View() == Apply(old(View()), PauseOver(id)) && Inv(View())
      ensures if old(transportActive) then loads[id].phase == Refused && fetches == old(fetches)
              else WaitsFor(View(), id, |old(fetches)|, AwaitingResponse)
    {
      ApplyKeepsInv(View(), PauseOver(id));
      FetchKeys(id);
    }

    method OnLoadSettled(id: nat)
      requires Inv(View()) && id < |loads| && loads[id].phase.Ended? && !loads[id].cleared
      modifies this
      ensures View() == Apply(old(View()), ClearPending(id)) && Inv(View()) && pending == None
    {
      ApplyKeepsInv(View(), ClearPending(id));
      pending := None;
      loads := loads[id := loads[id].(cleared := true)];
    }
  }
}
