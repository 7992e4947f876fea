/** The renewal of a runtime route lease as a protocol.

    A renewal is a chain of asynchronous steps (credential, response, body) that runs beside a deadline
    timer, the clock, further renewals and `stop`. Every step between two awaits is one event, and the
    events may come in any order: timers late, transports that ignore their abort, reports and clean-ups
    delayed. The results hold after every sequence of events. */
module RouteRegistration {
  import opened Wrappers

  const LEASE_MS: real := 30000.0

  datatype Phase = ReadingToken | AwaitingResponse | ReadingBody | Settled

  /** The race between the work and its deadline: undecided, decided, or decided and reported. */
  datatype Race = Open | Decided(ready: bool) | Reported(ready: bool)

  /** One call of `renew` and the variables of its closure. */
  datatype Work = Work(
    startedAt: real,
    expired: bool,
    phase: Phase,
    race: Race,
    deadlineOn: bool,
    cleared: bool,
    granted: bool)

  /** The fields of a registration, the requests it has sent, and what its observer has been told. */
  datatype State = State(
    now: real,
    timer: bool,
    pending: Option<nat>,
    cancel: Option<nat>,
    stopped: bool,
    expiresAt: real,
    reported: Option<bool>,
    works: seq<Work>,
    requestsSent: nat,
    notified: seq<bool>)

  datatype Event =
    | Clock(now: real)
    | Start
    | Renew
    | Token(id: nat, ok: bool)
    | Response(id: nat, ok: bool)
    | Body(id: nat, ok: bool)
    | Deadline(id: nat)
    | Report(id: nat)
    | Clear(id: nat)
    | Stop

  /** Where a registration starts. The host clock is never negative. */
  function Init(now: real): State {
    State(now, false, None, None, false, 0.0, None, [], 0, [])
  }

  predicate ValidEvent(e: Event) {
    e.Clock? ==> e.now >= 0.0
  }

  predicate Ready(s: State) {
    !s.stopped && s.expiresAt > s.now
  }

  // ----- Steps -----

  function Decide(race: Race, ready: bool): Race {
    if race.Open? then Decided(ready) else race
  }

  function SettledWork(w: Work, ready: bool): Work {
    w.(phase := Settled, race := Decide(w.race, ready))
  }

  function CancelledWork(w: Work): Work {
    w.(expired := true, race := Decide(w.race, false))
  }

  /** `this.cancel?.()` */
  function CancelCurrent(s: State): State {
    if s.cancel.Some? && s.cancel.value < |s.works|
    then s.(works := s.works[s.cancel.value := CancelledWork(s.works[s.cancel.value])])
    else s
  }

  function AfterRenew(s: State): State {
    if s.stopped || s.pending.Some? then s
    else
      s.(works := s.works + [Work(s.now, false, ReadingToken, Open, true, false, false)],
         pending := Some(|s.works|), cancel := Some(|s.works|))
  }

  /** A renewal has settled: it is answered, unless it was before. */
  predicate IsOver(before: Work, after: Work, ready: bool) {
    && after.phase.Settled? && after.race == (if before.race.Open? then Decided(ready) else before.race)
    && after == before.(phase := after.phase, race := after.race, granted := after.granted)
  }

  predicate Enabled(s: State, id: nat, phase: Phase) {
    id < |s.works| && s.works[id].phase == phase
  }

  function Apply(s: State, e: Event): State {
    match e
    case Clock(now) => s.(now := now)
    case Start => if s.stopped || s.timer then s else AfterRenew(s.(timer := true))
    case Renew => AfterRenew(s)
    case Token(id, ok) =>
      if !Enabled(s, id, ReadingToken) then s
      else if !ok || s.works[id].expired || s.stopped then s.(works := s.works[id := SettledWork(s.works[id], false)])
      else s.(works := s.works[id := s.works[id].(phase := AwaitingResponse)], requestsSent := s.requestsSent + 1)
    case Response(id, ok) =>
      if !Enabled(s, id, AwaitingResponse) then s
      else if !ok || s.works[id].expired || s.stopped then s.(works := s.works[id := SettledWork(s.works[id], false)])
      else s.(works := s.works[id := s.works[id].(phase := ReadingBody)])
    case Body(id, ok) =>
      if !Enabled(s, id, ReadingBody) then s
      else if !ok || s.works[id].expired || s.stopped then s.(works := s.works[id := SettledWork(s.works[id], false)])
      else s.(works := s.works[id := SettledWork(s.works[id], true).(granted := true)],
              expiresAt := s.works[id].startedAt + LEASE_MS)
    case Deadline(id) =>
      if id < |s.works| && s.works[id].deadlineOn
      then CancelCurrent(s.(works := s.works[id := s.works[id].(deadlineOn := false)])) else s
    case Report(id) =>
      if id < |s.works| && s.works[id].race.Decided? then
        var ready := s.works[id].race.ready;
        var t := s.(works := s.works[id := s.works[id].(race := Reported(ready))],
                    expiresAt := if ready then s.expiresAt else 0.0);
        if Some(ready) == s.reported then t else t.(reported := Some(ready), notified := s.notified + [ready])
      else s
    case Clear(id) =>
      if Enabled(s, id, Settled) && !s.works[id].cleared then
        var t := s.(works := s.works[id := s.works[id].(deadlineOn := false, cleared := true)]);
        if s.pending == Some(id) then t.(pending := None, cancel := None) else t
      else s
    case Stop => CancelCurrent(s.(stopped := true, expiresAt := 0.0, timer := false))
  }

  function Run(now: real, events: seq<Event>): State {
    if events == [] then Init(now) else Apply(Run(now, events[..|events| - 1]), events[|events| - 1])
  }

  // ----- The invariant -----

  /** A work that has not been cleaned up is the pending one and the current `cancel` is its own, so its
      deadline can only cancel itself. Its race is open only while it runs and nothing was stopped. */
  predicate WorkInv(s: State, id: nat)
    requires id < |s.works|
  {
    var w := s.works[id];
    && (!w.cleared ==> s.pending == Some(id))
    && (w.cleared ==> w.phase.Settled? && !w.deadlineOn)
    && (w.race.Open? ==> !w.phase.Settled? && !w.expired && !s.stopped)
    && (!w.phase.Settled? && !w.expired ==> w.race.Open?)
    && (w.granted ==> w.phase.Settled? && !w.race.Open? && w.race.ready)
    && (w.race == Decided(true) ==> w.granted)
  }

  /** The expiry time is that of a granted renewal, or none. */
  predicate IsLeaseOf(s: State, g: nat) {
    g < |s.works| && s.works[g].granted && s.expiresAt == s.works[g].startedAt + LEASE_MS
  }

  /** The observer has been told each change of what was last reported, and nothing else. */
  predicate ObserverInv(s: State) {
    && s.reported == (if s.notified == [] then None else Some(s.notified[|s.notified| - 1]))
    && forall i, j | 0 <= i && j == i + 1 < |s.notified| :: s.notified[i] != s.notified[j]
  }

  ghost predicate Inv(s: State) {
    && s.now >= 0.0
    && ObserverInv(s)
    && s.pending == s.cancel
    && (s.pending.Some? ==> s.pending.value < |s.works|)
    && (forall id :: 0 <= id < |s.works| ==> WorkInv(s, id))
    && (s.expiresAt == 0.0 || exists g: nat :: IsLeaseOf(s, g))
    && (s.stopped ==> s.expiresAt == 0.0 && !s.timer)
  }

  /** The parts of a state that `WorkInv` speaks of, for a work that an event leaves alone. */
  lemma UntouchedWorkKeepsInv(s: State, t: State, id: nat)
    requires id < |s.works| && id < |t.works| && WorkInv(s, id) && t.works[id] == s.works[id]
    requires s.works[id].cleared || t.pending == s.pending
    requires t.stopped ==> s.stopped || !s.works[id].race.Open?
    ensures WorkInv(t, id)
  {
  }

  /** The three steps of the work that renews: each goes on, or settles. */
  lemma WorkingKeepsInv(s: State, e: Event, id: nat)
    requires Inv(s) && (e.Token? || e.Response? || e.Body?) && id < |Apply(s, e).works|
    ensures WorkInv(Apply(s, e), id)
  {
    assert WorkInv(s, id);
    hide IsLeaseOf, Inv;
    if id != e.id {
      UntouchedWorkKeepsInv(s, Apply(s, e), id);
    }
  }

  /** A deadline or a stop cancels the current work. */
  lemma CancellingKeepsInv(s: State, e: Event, id: nat)
    requires Inv(s) && (e.Deadline? || e.Stop?) && id < |Apply(s, e).works|
    ensures WorkInv(Apply(s, e), id)
  {
    assert WorkInv(s, id);
    hide IsLeaseOf, Inv;
  }

  /** A new renewal comes last and is pending. */
  lemma RenewingKeepsInv(s: State, id: nat)
    requires Inv(s) && id < |AfterRenew(s).works|
    ensures WorkInv(AfterRenew(s), id)
  {
    hide IsLeaseOf;
    if id < |s.works| {
      assert WorkInv(s, id);
    }
  }

  lemma ReportingKeepsInv(s: State, e: Event, id: nat)
    requires Inv(s) && (e.Clock? || e.Report? || e.Clear?) && id < |Apply(s, e).works|
    ensures WorkInv(Apply(s, e), id)
  {
    assert WorkInv(s, id);
    hide IsLeaseOf, Inv;
  }

  lemma StartingKeepsInv(s: State)
    requires Inv(s) && !s.stopped
    ensures Inv(s.(timer := true))
  {
    forall id | 0 <= id < |s.works|
      ensures WorkInv(s.(timer := true), id)
    {
      assert WorkInv(s, id);
    }
    if s.expiresAt != 0.0 {
      var g: nat :| IsLeaseOf(s, g);
      assert IsLeaseOf(s.(timer := true), g);
    }
    hide WorkInv, IsLeaseOf;
  }

  lemma ApplyKeepsWorks(s: State, e: Event, id: nat)
    requires Inv(s) && ValidEvent(e) && id < |Apply(s, e).works|
    ensures WorkInv(Apply(s, e), id)
  {
    hide Inv, WorkInv, AfterRenew, CancelCurrent;
    match e
    case Token(_, _) => WorkingKeepsInv(s, e, id);
    case Response(_, _) => WorkingKeepsInv(s, e, id);
    case Body(_, _) => WorkingKeepsInv(s, e, id);
    case Deadline(_) => CancellingKeepsInv(s, e, id);
    case Stop => CancellingKeepsInv(s, e, id);
    case Renew => RenewingKeepsInv(s, id);
    case Start =>
      if s.stopped || s.timer {
        KnownWork(s, id);
      } else {
        StartingKeepsInv(s);
        RenewingKeepsInv(s.(timer := true), id);
      }
    case _ => ReportingKeepsInv(s, e, id);
  }

  lemma KnownWork(s: State, id: nat)
    requires Inv(s) && id < |s.works|
    ensures WorkInv(s, id)
  {
  }

  lemma ApplyKeepsLease(s: State, e: Event)
    requires Inv(s) && Apply(s, e).expiresAt != 0.0
    ensures exists g: nat :: IsLeaseOf(Apply(s, e), g)
  {
    var t := Apply(s, e);
    if t.expiresAt == s.expiresAt {
      var g: nat :| IsLeaseOf(s, g);
      assert WorkInv(s, g);
      hide Inv, WorkInv;
      assert IsLeaseOf(t, g);
    } else {
      assert IsLeaseOf(t, e.id);
    }
  }

  lemma ApplyKeepsInv(s: State, e: Event)
    requires Inv(s) && ValidEvent(e)
    ensures Inv(Apply(s, e))
  {
    hide WorkInv, IsLeaseOf, ObserverInv;
    var t := Apply(s, e);
    forall id | 0 <= id < |t.works|
      ensures WorkInv(t, id)
    {
      ApplyKeepsWorks(s, e, id);
    }
    if t.expiresAt != 0.0 {
      ApplyKeepsLease(s, e);
    }
    ReportTellsChanges(s, e);
  }

  lemma ReportTellsChanges(s: State, e: Event)
    requires ObserverInv(s)
    ensures ObserverInv(Apply(s, e))
  {
  }

  /** After every sequence of events. */
  lemma {:induction false} RunKeepsInv(now: real, events: seq<Event>)
    requires now >= 0.0 && forall i :: 0 <= i < |events| ==> ValidEvent(events[i])
    ensures Inv(Run(now, events))
  {
    if events != [] {
      RunKeepsInv(now, events[..|events| - 1]);
      ApplyKeepsInv(Run(now, events[..|events| - 1]), events[|events| - 1]);
    }
  }

  // ----- Results -----

  /** At most one renewal is under way, and it is the pending one. */
  lemma AtMostOneOutstanding(s: State, a: nat, b: nat)
    requires Inv(s) && a < |s.works| && b < |s.works|
    requires !s.works[a].phase.Settled? && !s.works[b].phase.Settled?
    ensures a == b && s.pending == Some(a)
  {
    assert WorkInv(s, a) && WorkInv(s, b);
  }

  /** Ready means that some renewal was granted that started less than one lease ago. A lease that the
      controller granted at any time after that start is still live. */
  lemma ReadyMeansLiveLease(s: State, grantedAt: real) returns (g: nat)
    requires Inv(s) && Ready(s)
    ensures g < |s.works| && s.works[g].granted && s.works[g].phase.Settled?
    ensures s.now - s.works[g].startedAt < LEASE_MS
    ensures s.works[g].startedAt <= grantedAt ==> s.now < grantedAt + LEASE_MS
  {
    g :| IsLeaseOf(s, g);
    assert WorkInv(s, g);
  }

  /** How each event moves the expiry time: a stop and a negative report end the lease, the valid body of an
      uncancelled renewal of a running registration sets it to one lease after the start of that renewal, and
      nothing else changes it. */
  lemma ExpiryAfter(s: State, e: Event)
    ensures Apply(s, e).expiresAt ==
            if e.Stop? || (e.Report? && AnswersUnready(s, e.id)) then 0.0
            else if e.Body? && e.ok && GoesOn(s, e.id, ReadingBody) then s.works[e.id].startedAt + 30000.0
            else s.expiresAt
  {
  }

  /** Renewal `id` is in the given phase and has been neither cancelled nor stopped. */
  predicate GoesOn(s: State, id: nat, phase: Phase) {
    Enabled(s, id, phase) && !s.works[id].expired && !s.stopped
  }

  /** Only the valid body of an uncancelled renewal of a running registration grants it. */
  lemma OnlyLiveRenewalsGrant(s: State, e: Event, g: nat)
    requires g < |s.works| && !s.works[g].granted
    ensures g < |Apply(s, e).works|
    ensures Apply(s, e).works[g].granted <==> e == Body(g, true) && GoesOn(s, g, ReadingBody)
  {
    HowWorksChange(s, e, g);
    hide Apply;
  }

 lemma CancelledStaysCancelled(s: State, e: Event, id: nat)
    requires id < |s.works| && s.works[id].expired && !s.works[id].granted
    ensures id < |Apply(s, e).works| && Apply(s, e).works[id].expired && !Apply(s, e).works[id].granted
  {
    HowWorksChange(s, e, id);
    hide Apply;
  }

  /** Once a renewal has been cancelled, by its deadline or by a stop, it is never granted. */
  lemma {:induction false} CancelledIsNeverGranted(s: State, events: seq<Event>, id: nat)
    requires Inv(s) && id < |s.works| && s.works[id].expired && !s.works[id].granted
    requires forall i :: 0 <= i < |events| ==> ValidEvent(events[i])
    ensures id < |Continue(s, events).works| && !Continue(s, events).works[id].granted
    decreases |events|
  {
    if events != [] {
      ApplyKeepsInv(s, events[0]);
      CancelledStaysCancelled(s, events[0], id);
      hide Apply, Inv, ValidEvent;
      CancelledIsNeverGranted(Apply(s, events[0]), events[1..], id);
    }
  }

  function Continue(s: State, events: seq<Event>): State
    decreases |events|
  {
    if events == [] then s else Continue(Apply(s, events[0]), events[1..])
  }

  /** After `stop` the registration is never ready again, sends no request and begins no renewal, and
      everyone waiting for a renewal has an answer, even if its transport never settles. */
  lemma {:induction false} StopIsFinal(s: State, events: seq<Event>)
    requires Inv(s) && s.stopped && forall i :: 0 <= i < |events| ==> ValidEvent(events[i])
    ensures var t := Continue(s, events);
            && t.stopped && !Ready(t)
            && t.requestsSent == s.requestsSent
            && |t.works| == |s.works|
            && forall id :: 0 <= id < |t.works| ==> !t.works[id].race.Open?
    decreases |events|
  {
    if events == [] {
      forall id | 0 <= id < |s.works|
        ensures !s.works[id].race.Open?
      {
        assert WorkInv(s, id);
      }
    } else {
      ApplyKeepsInv(s, events[0]);
      StopIsFinal(Apply(s, events[0]), events[1..]);
    }
  }

  /** A renewal that was granted but whose answer has not been reported. */
  ghost predicate AnswersReady(s: State, id: nat) {
    id < |s.works| && s.works[id].race == Decided(true)
  }

  /** While `events` happen, some renewal is reported to be ready. */
  ghost predicate ReportsReady(s: State, events: seq<Event>)
    decreases |events|
  {
    events != [] && ((events[0].Report? && AnswersReady(s, events[0].id))
                     || ReportsReady(Apply(s, events[0]), events[1..]))
  }

  ghost predicate AllValid(events: seq<Event>) {
    forall i :: 0 <= i < |events| ==> ValidEvent(events[i])
  }

  /** No event after a stop makes an answer ready. */
  lemma NoNewReadyAnswer(s: State, e: Event, id: nat)
    requires Inv(s) && s.stopped && AnswersReady(Apply(s, e), id)
    ensures AnswersReady(s, id)
  {
    if id < |s.works| {
      assert WorkInv(s, id);
    }
    hide Inv, WorkInv, IsLeaseOf;
  }

  lemma {:induction false} ReadyReportWasDecided(s: State, events: seq<Event>) returns (id: nat)
    requires Inv(s) && s.stopped && AllValid(events) && ReportsReady(s, events)
    ensures AnswersReady(s, id)
    decreases |events|
  {
    if events[0].Report? && AnswersReady(s, events[0].id) {
      id := events[0].id;
    } else {
      assert AllValid(events[1..]);
      ApplyKeepsInv(s, events[0]);
      assert Apply(s, events[0]).stopped;
      hide Apply, Inv, AnswersReady;
      id := ReadyReportWasDecided(Apply(s, events[0]), events[1..]);
      NoNewReadyAnswer(s, events[0], id);
    }
  }

  /** A stopped registration can still report that a renewal is ready exactly when the answer of some renewal
      had been decided and not yet reported. */
  lemma StoppedMayReportReadyIff(s: State)
    requires Inv(s) && s.stopped
    ensures (exists events :: AllValid(events) && ReportsReady(s, events)) <==> exists id: nat :: AnswersReady(s, id)
  {
    if events :| AllValid(events) && ReportsReady(s, events) {
      var id := ReadyReportWasDecided(s, events);
    }
    if id: nat :| AnswersReady(s, id) {
      assert ReportsReady(s, [Report(id)]) && AllValid([Report(id)]);
    }
  }

  /** A stop is silent exactly when at that moment every granted renewal has been reported: then, and only
      then, nothing ready is reported after it, whatever happens. */
  lemma StopIsSilentIff(s: State)
    requires Inv(s)
    ensures (forall events :: AllValid(events) ==> !ReportsReady(Apply(s, Stop), events)) <==>
            forall id :: 0 <= id < |s.works| && s.works[id].granted ==> s.works[id].race.Reported?
  {
    var t := Apply(s, Stop);
    ApplyKeepsInv(s, Stop);
    StoppedMayReportReadyIff(t);
    forall id: nat | id < |s.works|
      ensures AnswersReady(t, id) <==> s.works[id].granted && !s.works[id].race.Reported?
    {
      assert WorkInv(s, id);
    }
    hide Inv, WorkInv, ReportsReady, AllValid;
    assert |t.works| == |s.works|;
    assert forall id: nat :: AnswersReady(t, id) ==> id < |s.works|;
  }

  // ----- The observer -----

  /** A renewal whose answer is negative and has not been reported. */
  ghost predicate AnswersUnready(s: State, id: nat) {
    id < |s.works| && s.works[id].race == Decided(false)
  }

  /** While `events` happen, the observer is told that the registration is ready. */
  ghost predicate TellsReady(s: State, events: seq<Event>) {
    exists k :: |s.notified| <= k < |Continue(s, events).notified| && Continue(s, events).notified[k]
  }

  /** A ready answer is still to be reported, and it will differ from the last report, or may after another. */
  ghost predicate MayTellReady(s: State) {
    && (exists id: nat :: AnswersReady(s, id))
    && (s.reported != Some(true) || exists id: nat :: AnswersUnready(s, id))
  }

  lemma {:induction false} NotifiedGrows(s: State, events: seq<Event>)
    ensures s.notified <= Continue(s, events).notified
    decreases |events|
  {
    if events != [] {
      NotifiedGrows(Apply(s, events[0]), events[1..]);
    }
  }

  /** No event after a stop makes an answer negative that was none. */
  lemma NoNewUnreadyAnswer(s: State, e: Event, id: nat)
    requires Inv(s) && s.stopped && AnswersUnready(Apply(s, e), id)
    ensures AnswersUnready(s, id)
  {
    if id < |s.works| {
      assert WorkInv(s, id);
    }
    hide Inv, WorkInv, IsLeaseOf, ObserverInv;
  }

  /** After a stop, an observer that need not expect to be told of readiness is told at most the opposite, and
      still need not expect it. */
  lemma QuietStep(s: State, e: Event)
    requires Inv(s) && s.stopped && !MayTellReady(s)
    ensures Apply(s, e).stopped && !MayTellReady(Apply(s, e))
    ensures Apply(s, e).notified == s.notified || Apply(s, e).notified == s.notified + [false]
  {
    var t := Apply(s, e);
    if id: nat :| AnswersReady(t, id) {
      NoNewReadyAnswer(s, e, id);
      if other: nat :| AnswersUnready(t, other) {
        NoNewUnreadyAnswer(s, e, other);
      }
    }
    hide Inv;
    if e.Report? && e.id < |s.works| && s.works[e.id].race.Decided? {
      assert AnswersReady(s, e.id) || AnswersUnready(s, e.id);
    }
  }

  lemma {:induction false} QuietRun(s: State, events: seq<Event>)
    requires Inv(s) && s.stopped && AllValid(events) && !MayTellReady(s)
    ensures !TellsReady(s, events)
    decreases |events|
  {
    if events != [] {
      var t := Apply(s, events[0]);
      assert AllValid(events[1..]);
      ApplyKeepsInv(s, events[0]);
      QuietStep(s, events[0]);
      hide Apply, Inv, MayTellReady;
      QuietRun(t, events[1..]);
      NotifiedGrows(t, events[1..]);
      assert forall k :: |s.notified| <= k < |t.notified| ==> !t.notified[k];
    }
  }

  lemma ReportsTellReady(s: State) returns (events: seq<Event>)
    requires MayTellReady(s)
    ensures AllValid(events) && TellsReady(s, events)
  {
    var id: nat :| AnswersReady(s, id);
    if s.reported != Some(true) {
      events := [Report(id)];
      assert Continue(s, events) == Apply(s, Report(id));
    } else {
      var other: nat :| AnswersUnready(s, other);
      events := [Report(other), Report(id)];
      var t := Apply(s, Report(other));
      assert t.notified == s.notified + [false] && AnswersReady(t, id);
      assert events[1..] == [Report(id)];
      assert Continue(t, [Report(id)]) == Apply(t, Report(id));
    }
    TellsLast(s, events);
  }

  lemma TellsLast(s: State, events: seq<Event>)
    requires var t := Continue(s, events); |t.notified| > |s.notified| && t.notified[|t.notified| - 1]
    ensures TellsReady(s, events)
  {
  }

  /** The observer of a stopped registration can still be told that it is ready exactly when a ready answer is
      still to be reported and either the last report was not ready or a negative answer is still to be
      reported, too. */
  lemma StoppedMayTellReadyIff(s: State)
    requires Inv(s) && s.stopped
    ensures (exists events :: AllValid(events) && TellsReady(s, events)) <==> MayTellReady(s)
  {
    if MayTellReady(s) {
      var events := ReportsTellReady(s);
    } else {
      forall events | AllValid(events)
        ensures !TellsReady(s, events)
      {
        QuietRun(s, events);
      }
    }
  }

  /** A stop is quiet for the observer, so that it is not told of readiness afterwards, exactly when every granted
      renewal has been reported, or the last report was ready and every renewal has been reported or granted. */
  lemma StopIsQuietIff(s: State)
    requires Inv(s)
    ensures (forall events :: AllValid(events) ==> !TellsReady(Apply(s, Stop), events)) <==>
            || (forall id :: 0 <= id < |s.works| && s.works[id].granted ==> s.works[id].race.Reported?)
            || (&& s.reported == Some(true)
                && forall id :: 0 <= id < |s.works| ==> s.works[id].race.Reported? || s.works[id].granted)
  {
    var t := Apply(s, Stop);
    ApplyKeepsInv(s, Stop);
    StoppedMayTellReadyIff(t);
    forall id: nat | id < |s.works|
      ensures AnswersReady(t, id) <==> s.works[id].granted && !s.works[id].race.Reported?
      ensures AnswersUnready(t, id) <==> !s.works[id].granted && !s.works[id].race.Reported?
    {
      StopAnswers(s, id);
    }
    hide Inv, WorkInv, TellsReady, AllValid;
    assert |t.works| == |s.works| && t.reported == s.reported;
    assert forall id: nat :: AnswersReady(t, id) || AnswersUnready(t, id) ==> id < |s.works|;
  }

  /** A stop answers the pending renewal, if nothing has, and no other. */
  lemma StopAnswers(s: State, id: nat)
    requires Inv(s) && id < |s.works|
    ensures var t := Apply(s, Stop);
            && (AnswersReady(t, id) <==> s.works[id].granted && !s.works[id].race.Reported?)
            && (AnswersUnready(t, id) <==> !s.works[id].granted && !s.works[id].race.Reported?)
  {
    assert WorkInv(s, id);
  }

  /** The state in which the first renewal of a registration has just been granted. */
  function JustGranted(now: real): State {
    Apply(Apply(Apply(Apply(Init(now), Renew), Token(0, true)), Response(0, true)), Body(0, true))
  }

  /** A stop between a grant and its report is not silent: the renewal is reported to be ready although the
      registration no longer is. */
  lemma StoppedMayReportReady(now: real)
    requires now >= 0.0
    ensures var s := Apply(JustGranted(now), Stop);
            && Inv(s) && s.stopped && !Ready(s) && AnswersReady(s, 0)
            && s.notified == [] && Apply(s, Report(0)).notified == [true]
  {
    JustGrantedIsKept(now);
    var s := JustGranted(now);
    assert s.works == [Work(now, false, Settled, Decided(true), true, false, true)];
    ApplyKeepsInv(s, Stop);
    hide Inv, WorkInv, IsLeaseOf;
  }

  lemma JustGrantedIsKept(now: real)
    requires now >= 0.0
    ensures Inv(JustGranted(now))
  {
    hide Apply, WorkInv, IsLeaseOf;
    ApplyKeepsInv(Init(now), Renew);
    var s := Apply(Init(now), Renew);
    ApplyKeepsInv(s, Token(0, true));
    ApplyKeepsInv(Apply(s, Token(0, true)), Response(0, true));
    ApplyKeepsInv(Apply(Apply(s, Token(0, true)), Response(0, true)), Body(0, true));
  }

  // ----- How long a lease lasts -----

  /** During `events` nothing ends a lease: no stop, and no report of a negative answer. */
  ghost predicate NothingEndsLease(s: State, events: seq<Event>)
    decreases |events|
  {
    events != [] ==>
      && !events[0].Stop? && !(events[0].Report? && AnswersUnready(s, events[0].id))
      && NothingEndsLease(Apply(s, events[0]), events[1..])
  }

  /** The clock never goes back. */
  ghost predicate ClockRuns(now: real, events: seq<Event>)
    decreases |events|
  {
    events != [] ==>
      if events[0].Clock? then now <= events[0].now && ClockRuns(events[0].now, events[1..])
      else ClockRuns(now, events[1..])
  }

  /** A running registration whose lease, and whose renewals under way, are no older than `start`. */
  ghost predicate LeasedSince(s: State, start: real) {
    && Inv(s) && !s.stopped && start <= s.now && start + 30000.0 <= s.expiresAt
    && forall id | 0 <= id < |s.works| && !s.works[id].phase.Settled? :: start <= s.works[id].startedAt
  }

  lemma StepKeepsLease(s: State, e: Event, start: real)
    requires LeasedSince(s, start) && ValidEvent(e) && (e.Clock? ==> s.now <= e.now)
    requires !e.Stop? && !(e.Report? && AnswersUnready(s, e.id))
    ensures LeasedSince(Apply(s, e), start)
  {
    ApplyKeepsInv(s, e);
    ExpiryAfter(s, e);
    hide Inv;
    forall id | 0 <= id < |Apply(s, e).works| && !Apply(s, e).works[id].phase.Settled?
      ensures start <= Apply(s, e).works[id].startedAt
    {
      StartedEarlier(s, e, id);
    }
    RunsUnlessStopped(s, e);
    hide Apply, AnswersUnready;
  }

  lemma RunsUnlessStopped(s: State, e: Event)
    ensures Apply(s, e).stopped <==> s.stopped || e.Stop?
    ensures Apply(s, e).now == if e.Clock? then e.now else s.now
  {
  }

  lemma StartedEarlier(s: State, e: Event, id: nat)
    requires id < |Apply(s, e).works|
    ensures if id < |s.works| then
              && Apply(s, e).works[id].startedAt == s.works[id].startedAt
              && (s.works[id].phase.Settled? ==> Apply(s, e).works[id].phase.Settled?)
            else Apply(s, e).works[id].startedAt == s.now
  {
    HowWorksChange(s, e, id);
    hide Apply;
  }

  /** What an event can do to a renewal. */
  ghost predicate MayBecome(s: State, e: Event, id: nat, before: Work, after: Work) {
    && after.startedAt == before.startedAt
    && (before.phase.Settled? ==> after.phase.Settled?) && (before.expired ==> after.expired)
    && (before.granted ==> after.granted)
    && (!before.granted ==> (after.granted <==> e == Body(id, true) && GoesOn(s, id, ReadingBody)))
  }

  lemma HowWorksChange(s: State, e: Event, id: nat)
    ensures |s.works| <= |Apply(s, e).works|
    ensures id < |s.works| ==> MayBecome(s, e, id, s.works[id], Apply(s, e).works[id])
    ensures |s.works| <= id < |Apply(s, e).works| ==> Apply(s, e).works[id].startedAt == s.now
  {
    hide *;
    if e.Token? || e.Response? || e.Body? {
      HowWorkGoesOn(s, e, id);
    } else if e.Deadline? || e.Stop? {
      HowWorkIsCancelled(s, e, id);
    } else {
      HowOthersChange(s, e, id);
    }
  }

  lemma HowWorkIsCancelled(s: State, e: Event, id: nat)
    requires e.Deadline? || e.Stop?
    ensures |s.works| == |Apply(s, e).works|
    ensures id < |s.works| ==> MayBecome(s, e, id, s.works[id], Apply(s, e).works[id])
  {
  }

  lemma HowOthersChange(s: State, e: Event, id: nat)
    requires !e.Token? && !e.Response? && !e.Body? && !e.Deadline? && !e.Stop?
    ensures |s.works| <= |Apply(s, e).works|
    ensures id < |s.works| ==> MayBecome(s, e, id, s.works[id], Apply(s, e).works[id])
    ensures |s.works| <= id < |Apply(s, e).works| ==> Apply(s, e).works[id].startedAt == s.now
  {
  }

  lemma HowWorkGoesOn(s: State, e: Event, id: nat)
    requires e.Token? || e.Response? || e.Body?
    ensures |s.works| == |Apply(s, e).works|
    ensures id < |s.works| ==> MayBecome(s, e, id, s.works[id], Apply(s, e).works[id])
  {
  }

  lemma {:induction false} RunKeepsLease(s: State, events: seq<Event>, start: real)
    requires LeasedSince(s, start) && AllValid(events) && ClockRuns(s.now, events) && NothingEndsLease(s, events)
    ensures LeasedSince(Continue(s, events), start)
    decreases |events|
  {
    if events != [] {
      assert ValidEvent(events[0]) && AllValid(events[1..]);
      hide LeasedSince, ValidEvent, AllValid;
      StepKeepsLease(s, events[0], start);
      RunsUnlessStopped(s, events[0]);
      hide Apply;
      RunKeepsLease(Apply(s, events[0]), events[1..], start);
    }
  }

  /** After the valid body of a live renewal, the registration is ready for one lease from the start of that
      renewal, unless a stop or the report of a negative answer ends it: whatever else happens, as long as the
      clock does not go back. */
  lemma GrantedIsReady(s: State, id: nat, events: seq<Event>)
    requires Inv(s) && GoesOn(s, id, ReadingBody) && s.works[id].startedAt <= s.now
    requires AllValid(events) && ClockRuns(s.now, events) && NothingEndsLease(Apply(s, Body(id, true)), events)
    ensures var t := Continue(Apply(s, Body(id, true)), events);
            t.now < s.works[id].startedAt + 30000.0 ==> Ready(t)
  {
    var t := Apply(s, Body(id, true));
    ApplyKeepsInv(s, Body(id, true));
    forall g | 0 <= g < |t.works| && !t.works[g].phase.Settled?
      ensures false
    {
      assert g < |s.works|;
      AtMostOneOutstanding(s, id, g);
      assert false;
    }
    RunKeepsLease(t, events, s.works[id].startedAt);
    hide Inv, Apply;
  }

  /** A negative report ends readiness, and a ready one leaves it as it was. */
  lemma ReportDecidesReadiness(s: State, id: nat)
    requires Inv(s) && id < |s.works| && s.works[id].race.Decided?
    ensures Ready(Apply(s, Report(id))) <==> s.works[id].race.ready && Ready(s)
  {
    hide WorkInv, IsLeaseOf, ObserverInv;
  }

  /** A deadline that fires cancels its own renewal and no other. */
  lemma DeadlineCancelsItsOwn(s: State, id: nat, other: nat)
    requires Inv(s) && id < |s.works| && other < |s.works| && s.works[id].deadlineOn
    ensures Apply(s, Deadline(id)).works[id].expired && !Apply(s, Deadline(id)).works[id].race.Open?
    ensures other != id ==> Apply(s, Deadline(id)).works[other] == s.works[other]
  {
    assert WorkInv(s, id);
  }

  // ----- The class -----

  class RuntimeRouteRegistration {
    var now: real
    var timer: bool
    var pending: Option<nat>
    var cancel: Option<nat>
    var stopped: bool
    var expiresAt: real
    var reported: Option<bool>
    var works: seq<Work>
    var requestsSent: nat
    var notified: seq<bool>

    ghost function View(): State
      reads this
    {
      State(now, timer, pending, cancel, stopped, expiresAt, reported, works, requestsSent, notified)
    }

    constructor (now: real)
      requires now >= 0.0
      ensures View() == Init(now) && Inv(View())
    {
      this.now := now;
      timer, pending, cancel, stopped := false, None, None, false;
      expiresAt, reported, works, requestsSent, notified := 0.0, None, [], 0, [];
    }

    method IsReady() returns (ready: bool)
      ensures ready == Ready(View())
      ensures ready && Inv(View()) ==> exists g: nat :: IsLeaseOf(View(), g) && now < works[g].startedAt + LEASE_MS
    {
      ready := !stopped && expiresAt > now;
    }

    method StartTimer()
      requires Inv(View())
      modifies this
      ensures View() == Apply(old(View()), Start) && Inv(View())
      ensures timer == !stopped
      ensures old(timer) || stopped ==> View() == old(View())
      ensures !old(timer) && !stopped && old(pending).None? ==> |works| == |old(works)| + 1 && pending.Some?
    {
      ApplyKeepsInv(View(), Start);
      if stopped || timer {
        return;
      }
      StartingKeepsInv(View());
      timer := true;
      BeginRenewal();
    }

    /** The synchronous part of `renew`. A call when stopped, or while a renewal is pending, changes nothing.
        Otherwise exactly one renewal is begun, now, with its deadline on; it is the pending one, and the
        current `cancel` is its own. */
    method BeginRenewal()
      requires Inv(View())
      modifies this`works, this`pending, this`cancel
      ensures Inv(View()) && View() == Apply(old(View()), Renew)
      ensures stopped || old(pending).Some? ==> View() == old(View())
      ensures !stopped && old(pending).None? ==>
        && |works| == |old(works)| + 1 && works[..|works| - 1] == old(works)
        && pending == cancel == Some(|works| - 1)
        && works[|works| - 1].startedAt == now && works[|works| - 1].deadlineOn
        && works[|works| - 1].race.Open? && !works[|works| - 1].granted
    {
      ApplyKeepsInv(View(), Renew);
      if stopped || pending.Some? {
        return;
      }
      var id := |works|;
      works := works + [Work(now, false, ReadingToken, Open, true, false, false)];
      cancel := Some(id);
      pending := Some(id);
    }

    /** The work resolves; the race takes its value if it is still open. */
    method Settle(id: nat, ready: bool)
      requires id < |works|
      modifies this`works
      ensures works == old(works)[id := SettledWork(old(works)[id], ready)]
    {
      works := works[id := works[id].(phase := Settled)];
      if works[id].race.Open? {
        works := works[id := works[id].(race := Decided(ready))];
      }
    }

    method OnToken(id: nat, ok: bool)
      requires Inv(View()) && Enabled(View(), id, ReadingToken)
      modifies this
      ensures View() == Apply(old(View()), Token(id, ok)) && Inv(View())
      ensures if ok && GoesOn(old(View()), id, ReadingToken) then
                requestsSent == old(requestsSent) + 1 && works[id] == old(works)[id].(phase := AwaitingResponse)
              else requestsSent == old(requestsSent) && IsOver(old(works)[id], works[id], false)
    {
      ApplyKeepsInv(View(), Token(id, ok));
      if !ok || works[id].expired || stopped {
        Settle(id, false);
        return;
      }
      requestsSent := requestsSent + 1;
      works := works[id := works[id].(phase := AwaitingResponse)];
    }

    method OnResponse(id: nat, ok: bool)
      requires Inv(View()) && Enabled(View(), id, AwaitingResponse)
      modifies this
      ensures View() == Apply(old(View()), Response(id, ok)) && Inv(View())
      ensures if ok && GoesOn(old(View()), id, AwaitingResponse) then
                works[id] == old(works)[id].(phase := ReadingBody)
              else IsOver(old(works)[id], works[id], false)
    {
      ApplyKeepsInv(View(), Response(id, ok));
      if works[id].expired || stopped || !ok {
        Settle(id, false);
        return;
      }
      works := works[id := works[id].(phase := ReadingBody)];
    }

    method OnBody(id: nat, ok: bool)
      requires Inv(View()) && Enabled(View(), id, ReadingBody)
      modifies this
      ensures View() == Apply(old(View()), Body(id, ok)) && Inv(View())
      ensures if ok && GoesOn(old(View()), id, ReadingBody) then
                && expiresAt == works[id].startedAt + 30000.0 && works[id].granted
                && IsOver(old(works)[id], works[id], true)
              else expiresAt == old(expiresAt) && !works[id].granted && IsOver(old(works)[id], works[id], false)
    {
      ApplyKeepsInv(View(), Body(id, ok));
      KnownWork(View(), id);
      if !ok || works[id].expired || stopped {
        Settle(id, false);
        return;
      }
      expiresAt := works[id].startedAt + LEASE_MS;
      Settle(id, true);
      works := works[id := works[id].(granted := true)];
    }

    /** The current `cancel` closure, if there is one. The work it belongs to is cancelled for good and its
        callers have an answer, the earlier one if there was one and otherwise `false`. No other work, and
        nothing else of that one, changes. */
    method Cancel()
      requires cancel.Some? ==> cancel.value < |works|
      modifies this`works
      ensures View() == CancelCurrent(old(View()))
      ensures |works| == |old(works)|
      ensures forall id :: 0 <= id < |works| && Some(id) != cancel ==> works[id] == old(works)[id]
      ensures cancel.Some? ==>
        var before, after := old(works)[cancel.value], works[cancel.value];
        && after.expired && (after.race == if before.race.Open? then Decided(false) else before.race)
        && after == before.(expired := after.expired, race := after.race)
    {
      if cancel.Some? {
        var id := cancel.value;
        works := works[id := works[id].(expired := true)];
        if works[id].race.Open? {
          works := works[id := works[id].(race := Decided(false))];
        }
      }
    }

    method OnDeadline(id: nat)
      requires Inv(View()) && id < |works| && works[id].deadlineOn
      modifies this
      ensures View() == Apply(old(View()), Deadline(id)) && Inv(View())
      ensures works[id].expired && !works[id].deadlineOn && !works[id].race.Open?
      ensures old(works)[id].race.Open? ==> works[id].race == Decided(false)
      ensures expiresAt == old(expiresAt)
    {
      ApplyKeepsInv(View(), Deadline(id));
      KnownWork(View(), id);
      works := works[id := works[id].(deadlineOn := false)];
      Cancel();
    }

    /** `report` and the answer of `renew`. The observer is told only what differs from what it was told last. */
    method OnRaceDecided(id: nat)
      requires Inv(View()) && id < |works| && works[id].race.Decided?
      modifies this
      ensures View() == Apply(old(View()), Report(id)) && Inv(View())
      ensures var ready := old(works)[id].race.ready;
              && works[id].race == Reported(ready) && reported == Some(ready)
              && (if ready then expiresAt == old(expiresAt) else !Ready(View()) && expiresAt == 0.0)
              && notified == old(notified) + if old(reported) == Some(ready) then [] else [ready]
    {
      ApplyKeepsInv(View(), Report(id));
      hide Inv;
      var ready := works[id].race.ready;
      works := works[id := works[id].(race := Reported(ready))];
      if !ready {
        expiresAt := 0.0;
      }
      if Some(ready) != reported {
        reported := Some(ready);
        notified := notified + [ready];
      }
    }

    method OnSettled(id: nat)
      requires Inv(View()) && Enabled(View(), id, Settled) && !works[id].cleared
      modifies this
      ensures View() == Apply(old(View()), Clear(id)) && Inv(View())
      ensures works[id] == old(works)[id].(deadlineOn := false, cleared := true)
      ensures pending.None? && cancel.None? && expiresAt == old(expiresAt)
    {
      ApplyKeepsInv(View(), Clear(id));
      KnownWork(View(), id);
      works := works[id := works[id].(deadlineOn := false, cleared := true)];
      if pending == Some(id) {
        pending := None;
        cancel := None;
      }
    }

    method StopRegistration()
      requires Inv(View())
      modifies this
      ensures View() == Apply(old(View()), Stop) && Inv(View()) && !Ready(View())
      ensures stopped && !timer && expiresAt == 0.0 && |works| == |old(works)|
      ensures forall id :: 0 <= id < |works| ==>
        works[id].race == if old(works)[id].race.Open? then Decided(false) else old(works)[id].race
    {
      ApplyKeepsInv(View(), Stop);
      forall id | 0 <= id < |works|
        ensures works[id].race.Open? ==> cancel == Some(id)
      {
        KnownWork(View(), id);
      }
      stopped := true;
      expiresAt := 0.0;
      timer := false;
      Cancel();
    }
  }
}
