/** Admission and draining of HTTP requests around a hand-over of ownership.

    Requests arrive, end and settle in any order relative to each other and to release, drain and
    activation. The accepted set is kept by callbacks of single requests; the results say what an empty
    set and a normal return of the drain mean. */
module RequestDrain {
  import opened Wrappers

  /** One admitted request. `written` is the response's `writableFinished`. `lost` records that its
      transport ended before that without its work having been declared read-only. */
  datatype Request = Request(
    transportEnded: bool,
    readOnly: bool,
    workSettled: bool,
    written: bool,
    finishSeen: bool,
    closeSeen: bool,
    lost: bool)

  /** `drainRequests`: not called, waiting for the requests that it found, or returned. */
  datatype Drain = Idle | Waiting(snapshot: set<nat>) | Returned(normally: bool)

  datatype State = State(
    owned: bool,
    accepted: set<nat>,
    requests: seq<Request>,
    requestFailed: bool,
    drain: Drain)

  datatype Event =
    | Arrive
    | Written(id: nat)
    | Finish(id: nat)
    | Close(id: nat)
    | Declare(id: nat)
    | WorkSettles(id: nat)
    | Release
    | Activate
    | DrainStart
    | DrainResume

  function Init(owned: bool): State {
    State(owned, {}, [], false, Idle)
  }

  // ----- Steps -----

  predicate Done(r: Request) {
    r.transportEnded && r.workSettled
  }

  /** `complete` of a request, if it is done now. */
  function Completed(s: State, id: nat): State
    requires id < |s.requests|
  {
    if Done(s.requests[id]) then s.(accepted := s.accepted - {id}) else s
  }

  /** `endTransport`, for the first `finish` or the first `close` of a response. */
  function EndTransport(s: State, id: nat, r: Request): State
    requires id < |s.requests|
  {
    var lost := !r.written && !r.readOnly;
    Completed(s.(requests := s.requests[id := r.(transportEnded := true, lost := r.lost || lost)],
                 requestFailed := s.requestFailed || lost), id)
  }

  /** The test at the head of the drain loop. */
  function DrainRound(s: State): State {
    if s.accepted == {} then s.(drain := Returned(!s.requestFailed)) else s.(drain := Waiting(s.accepted))
  }

  function Apply(s: State, e: Event): State {
    match e
    case Arrive =>
      if !s.owned then s
      else s.(accepted := s.accepted + {|s.requests|},
              requests := s.requests + [Request(false, false, true, false, false, false, false)])
    case Written(id) =>
      if id < |s.requests| then s.(requests := s.requests[id := s.requests[id].(written := true)]) else s
    case Finish(id) =>
      if id < |s.requests| && !s.requests[id].finishSeen
      then EndTransport(s, id, s.requests[id].(finishSeen := true)) else s
    case Close(id) =>
      if id < |s.requests| && !s.requests[id].closeSeen
      then EndTransport(s, id, s.requests[id].(closeSeen := true)) else s
    case Declare(id) =>
      if id < |s.requests| && !s.requests[id].transportEnded && !s.requests[id].readOnly
      then s.(requests := s.requests[id := s.requests[id].(readOnly := true, workSettled := false)]) else s
    case WorkSettles(id) =>
      if id < |s.requests| && !s.requests[id].workSettled
      then Completed(s.(requests := s.requests[id := s.requests[id].(workSettled := true)]), id) else s
    case Release => s.(owned := false)
    case Activate => s.(owned := true)
    case DrainStart => if s.drain.Waiting? then s else DrainRound(s)
    case DrainResume => if s.drain.Waiting? && s.drain.snapshot !! s.accepted then DrainRound(s) else s
  }

  function ApplyAll(s: State, events: seq<Event>): State
    decreases |events|
  {
    if events == [] then s else ApplyAll(Apply(s, events[0]), events[1..])
  }

  // ----- The invariant -----

  ghost predicate RequestInv(s: State, id: nat)
    requires id < |s.requests|
  {
    var r := s.requests[id];
    && (id in s.accepted <==> !Done(r))
    && (r.transportEnded ==> r.lost || r.written || r.readOnly)
    && (r.lost ==> s.requestFailed && r.transportEnded && !r.readOnly)
    && (!r.readOnly ==> r.workSettled)
  }

  ghost predicate Inv(s: State) {
    && (forall id :: 0 <= id < |s.requests| ==> RequestInv(s, id))
    && (forall id :: id in s.accepted ==> id < |s.requests|)
    && (s.requestFailed ==> exists id :: 0 <= id < |s.requests| && s.requests[id].lost)
  }

  /** A request that an event leaves alone. */
  lemma SameRequestKeepsInv(s: State, t: State, id: nat)
    requires id < |s.requests| && id < |t.requests| && RequestInv(s, id) && t.requests[id] == s.requests[id]
    requires (id in t.accepted <==> id in s.accepted) && (s.requestFailed ==> t.requestFailed)
    ensures RequestInv(t, id)
  {
  }

  lemma EndedRequestKeepsInv(s: State, id: nat, r: Request)
    requires id < |s.requests| && RequestInv(s, id)
      && r == s.requests[id].(finishSeen := r.finishSeen, closeSeen := r.closeSeen)
    ensures RequestInv(EndTransport(s, id, r), id)
  {
  }

  /** Whether an event is about request `id`. */
  predicate About(e: Event, id: nat) {
    (e.Written? || e.Finish? || e.Close? || e.Declare? || e.WorkSettles?) && e.id == id
  }

  /** The request that an event is about. */
  lemma ChangedRequestKeepsInv(s: State, e: Event, id: nat)
    requires About(e, id) && id < |s.requests| && RequestInv(s, id)
    ensures id < |Apply(s, e).requests| && RequestInv(Apply(s, e), id)
  {
    if e.Finish? && !s.requests[e.id].finishSeen {
      EndedRequestKeepsInv(s, e.id, s.requests[e.id].(finishSeen := true));
    } else if e.Close? && !s.requests[e.id].closeSeen {
      EndedRequestKeepsInv(s, e.id, s.requests[e.id].(closeSeen := true));
    }
    hide EndTransport;
  }

  lemma OthersStay(s: State, e: Event, id: nat)
    requires id < |s.requests| && !About(e, id)
    ensures var t := Apply(s, e);
            && id < |t.requests| && t.requests[id] == s.requests[id]
            && (id in t.accepted <==> id in s.accepted) && (s.requestFailed ==> t.requestFailed)
  {
  }

  lemma OnlyArrivalAdds(s: State, e: Event)
    ensures |Apply(s, e).requests| >= |s.requests|
    ensures |Apply(s, e).requests| > |s.requests| ==>
      e == Arrive && s.owned && |Apply(s, e).requests| == |s.requests| + 1
  {
  }

  lemma KnownRequest(s: State, id: nat)
    requires Inv(s)
    ensures id < |s.requests| ==> RequestInv(s, id)
  {
  }

  lemma ApplyKeepsRequest(s: State, e: Event, id: nat)
    requires Inv(s) && id < |Apply(s, e).requests|
    ensures RequestInv(Apply(s, e), id)
  {
    hide *;
    KnownRequest(s, id);
    if id >= |s.requests| {
      OnlyArrivalAdds(s, e);
      ArrivedRequestKeepsInv(s);
    } else if About(e, id) {
      ChangedRequestKeepsInv(s, e, id);
    } else {
      OthersStay(s, e, id);
      SameRequestKeepsInv(s, Apply(s, e), id);
    }
  }

  lemma ArrivedRequestKeepsInv(s: State)
    requires s.owned
    ensures |Apply(s, Arrive).requests| > |s.requests| && RequestInv(Apply(s, Arrive), |s.requests|)
  {
  }

  lemma ApplyKeepsInv(s: State, e: Event)
    requires Inv(s)
    ensures Inv(Apply(s, e))
  {
    var t := Apply(s, e);
    forall id | 0 <= id < |t.requests|
      ensures RequestInv(t, id)
    {
      ApplyKeepsRequest(s, e, id);
    }
    if t.requestFailed {
      if s.requestFailed {
        var id :| 0 <= id < |s.requests| && s.requests[id].lost;
        assert t.requests[id].lost;
      } else {
        assert t.requests[e.id].lost;
      }
    }
  }

  lemma {:induction false} RunKeepsInv(s: State, events: seq<Event>)
    requires Inv(s)
    ensures Inv(ApplyAll(s, events))
    decreases |events|
  {
    if events != [] {
      ApplyKeepsInv(s, events[0]);
      RunKeepsInv(Apply(s, events[0]), events[1..]);
    }
  }

  // ----- Results -----

  /** Whatever the order of finish, close and work, a request is in the accepted set exactly until its
      transport has ended and its work has settled. */
  lemma AcceptedIff(owned: bool, events: seq<Event>, id: nat)
    requires id < |ApplyAll(Init(owned), events).requests|
    ensures var s := ApplyAll(Init(owned), events);
            id in s.accepted <==> !(s.requests[id].transportEnded && s.requests[id].workSettled)
  {
    RunKeepsInv(Init(owned), events);
    assert RequestInv(ApplyAll(Init(owned), events), id);
  }

  /** The failure flag is raised exactly by a request whose transport ended before its response was written
      and that had not been declared read-only. */
  lemma FailedIffLost(s: State)
    requires Inv(s)
    ensures s.requestFailed <==> exists id :: 0 <= id < |s.requests| && s.requests[id].lost
  {
    forall id | 0 <= id < |s.requests| && s.requests[id].lost
      ensures s.requestFailed
    {
      assert RequestInv(s, id);
    }
  }

  ghost predicate CleanlyEnded(s: State) {
    forall id :: 0 <= id < |s.requests| ==>
      s.requests[id].transportEnded && s.requests[id].workSettled && (s.requests[id].written || s.requests[id].readOnly)
  }

  /** A drain returns normally exactly at a moment when every admitted request has ended, with its response
      fully written or its work declared read-only and settled, and none was ever lost. */
  lemma DrainReturnsCleanly(s: State, e: Event)
    requires Inv(s) && (if s.drain.Waiting? then e == DrainResume && s.drain.snapshot !! s.accepted
                        else e == DrainStart)
    ensures Apply(s, e).drain.Returned? <==> s.accepted == {}
    ensures Apply(s, e).drain == Returned(true) ==> CleanlyEnded(s)
    ensures Apply(s, e).drain == Returned(true) <==>
      s.accepted == {} && forall id :: 0 <= id < |s.requests| ==> !s.requests[id].lost
  {
    if s.accepted != {} {
      return;
    }
    forall id | 0 <= id < |s.requests|
      ensures Done(s.requests[id]) && (s.requests[id].lost ==> s.requestFailed)
      ensures s.requests[id].lost || s.requests[id].written || s.requests[id].readOnly
    {
      assert RequestInv(s, id);
    }
  }

  /** A drain that waits goes on waiting until every request that it found is done, whatever arrives in between. */
  lemma DrainWaits(s: State, e: Event)
    requires s.drain.Waiting?
    ensures Apply(s, e).drain == s.drain || (e == DrainResume && s.drain.snapshot !! s.accepted)
    ensures e == DrainResume && s.drain.snapshot !! s.accepted ==>
      Apply(s, e).drain == if s.accepted == {} then Returned(!s.requestFailed) else Waiting(s.accepted)
  {
  }

  ghost predicate NoActivation(events: seq<Event>) {
    forall i :: 0 <= i < |events| ==> !events[i].Activate?
  }

  /** Until the next activation a released runtime admits nothing: the accepted set only shrinks and the
      list of requests does not grow. */
  lemma {:induction false} ReleasedOnlyShrinks(s: State, events: seq<Event>)
    requires !s.owned && NoActivation(events)
    ensures !ApplyAll(s, events).owned
    ensures ApplyAll(s, events).accepted <= s.accepted
    ensures |ApplyAll(s, events).requests| == |s.requests|
    decreases |events|
  {
    if events != [] {
      assert !events[0].Activate?;
      assert NoActivation(events[1..]) by {
        assert forall i :: 0 <= i < |events| - 1 ==> events[1..][i] == events[i + 1];
      }
      ReleasedOnlyShrinks(Apply(s, events[0]), events[1..]);
    }
  }

  /** After a release and a completed drain the set stays empty until activation. */
  lemma DrainedStaysEmpty(s: State, events: seq<Event>)
    requires !s.owned && s.accepted == {} && NoActivation(events)
    ensures ApplyAll(s, events).accepted == {}
  {
    ReleasedOnlyShrinks(s, events);
  }

  /** A drain that begins after the release waits once: when the requests that it found are done, so is
      everything. */
  lemma ReleasedDrainTakesOneRound(s: State, events: seq<Event>)
    requires !s.owned && s.accepted != {} && !s.drain.Waiting? && NoActivation(events)
    ensures var started := Apply(s, DrainStart);
            var t := ApplyAll(started, events);
            started.drain == Waiting(s.accepted)
            && (s.accepted !! t.accepted ==> t.accepted == {} && DrainRound(t).drain.Returned?)
  {
    ReleasedOnlyShrinks(Apply(s, DrainStart), events);
  }

  // ----- Hand-overs -----

  ghost predicate NoRelease(events: seq<Event>) {
    forall i :: 0 <= i < |events| ==> !events[i].Release?
  }

  lemma {:induction false} ApplyAllConcat(s: State, a: seq<Event>, b: seq<Event>)
    ensures ApplyAll(s, a + b) == ApplyAll(ApplyAll(s, a), b)
    decreases |a|
  {
    if a == [] {
      assert a + b == b;
    } else {
      assert (a + b)[0] == a[0] && (a + b)[1..] == a[1..] + b;
      hide Apply;
      ApplyAllConcat(Apply(s, a[0]), a[1..], b);
    }
  }

  lemma OwnershipChanges(s: State)
    ensures Apply(s, Release) == s.(owned := false) && Apply(s, Activate) == s.(owned := true)
  {
  }

  /** After a release, and until the next activation, nothing is admitted, whoever owned before and whatever had
      happened: the accepted requests are among those at the release. */
  lemma ReleaseClosesGate(s: State, before: seq<Event>, after: seq<Event>)
    requires NoActivation(after)
    ensures var u, t := ApplyAll(s, before), ApplyAll(s, before + [Release] + after);
            !t.owned && t.accepted <= u.accepted && |t.requests| == |u.requests|
            && Apply(t, Arrive) == t
  {
    var u := ApplyAll(s, before);
    ApplyAllConcat(s, before + [Release], after);
    ApplyAllConcat(s, before, [Release]);
    OwnershipChanges(u);
    assert ApplyAll(u, [Release]) == Apply(u, Release);
    ReleasedOnlyShrinks(Apply(u, Release), after);
    hide ApplyAll;
  }

  /** After a release, a set that is empty once stays empty until the next activation. */
  lemma ReleasedStaysEmpty(s: State, before: seq<Event>, middle: seq<Event>, after: seq<Event>)
    requires NoActivation(middle + after)
    requires ApplyAll(s, before + [Release] + middle).accepted == {}
    ensures ApplyAll(s, before + [Release] + middle + after).accepted == {}
  {
    assert NoActivation(middle) && NoActivation(after) by {
      assert forall i :: 0 <= i < |middle| ==> middle[i] == (middle + after)[i];
      assert forall i :: 0 <= i < |after| ==> after[i] == (middle + after)[|middle| + i];
    }
    ReleaseClosesGate(s, before, middle);
    ApplyAllConcat(s, before + [Release] + middle, after);
    DrainedStaysEmpty(ApplyAll(s, before + [Release] + middle), after);
  }

  /** A drain that begins after a release waits once, unless there is an activation: when the requests that it
      found are done, so is everything. */
  lemma ReleasedDrainIsShort(s: State, before: seq<Event>, middle: seq<Event>, after: seq<Event>)
    requires NoActivation(middle) && NoActivation(after)
    requires var u := ApplyAll(s, before + [Release] + middle); u.accepted != {} && !u.drain.Waiting?
    ensures var u := ApplyAll(s, before + [Release] + middle);
            var t := ApplyAll(s, before + [Release] + middle + [DrainStart] + after);
            Apply(u, DrainStart).drain == Waiting(u.accepted)
            && (u.accepted !! t.accepted ==> t.accepted == {} && DrainRound(t).drain.Returned?)
  {
    var u := ApplyAll(s, before + [Release] + middle);
    ReleaseClosesGate(s, before, middle);
    ApplyAllConcat(s, before + [Release] + middle + [DrainStart], after);
    ApplyAllConcat(s, before + [Release] + middle, [DrainStart]);
    assert ApplyAll(u, [DrainStart]) == Apply(u, DrainStart);
    ReleasedDrainTakesOneRound(u, after);
  }

  /** After an activation, and until the next release, every arriving request is admitted, under a new id. */
  lemma ActivationOpensGate(s: State, before: seq<Event>, after: seq<Event>)
    requires NoRelease(after)
    ensures var t := ApplyAll(s, before + [Activate] + after);
            var admitted := Apply(t, Arrive);
            && t.owned && |admitted.requests| == |t.requests| + 1 && |t.requests| in admitted.accepted
            && !admitted.requests[|t.requests|].transportEnded && !admitted.requests[|t.requests|].readOnly
  {
    var u := ApplyAll(s, before);
    ApplyAllConcat(s, before + [Activate], after);
    ApplyAllConcat(s, before, [Activate]);
    OwnershipChanges(u);
    assert ApplyAll(u, [Activate]) == Apply(u, Activate);
    OwnedUntilRelease(Apply(u, Activate), after);
    hide ApplyAll;
  }

  lemma {:induction false} OwnedUntilRelease(s: State, events: seq<Event>)
    requires s.owned && NoRelease(events)
    ensures ApplyAll(s, events).owned
    decreases |events|
  {
    if events != [] {
      assert !events[0].Release?;
      assert NoRelease(events[1..]) by {
        assert forall i :: 0 <= i < |events| - 1 ==> events[1..][i] == events[i + 1];
      }
      OwnedUntilRelease(Apply(s, events[0]), events[1..]);
    }
  }

  // ----- The class -----

  /** The request bookkeeping of `App`, with the ownership flag of the plugin that gates it. */
  class App {
    var owned: bool
    var acceptedRequests: set<nat>
    var requestWork: seq<Request>
    var requestFailed: bool
    var drain: Drain

    ghost function View(): State
      reads this
    {
      State(owned, acceptedRequests, requestWork, requestFailed, drain)
    }

    constructor (owned: bool)
      ensures View() == Init(owned) && Inv(View())
    {
      this.owned := owned;
      acceptedRequests, requestWork, requestFailed, drain := {}, [], false, Idle;
    }

    /** The admission middleware. No id means the passive answer 503. */
    method Admit() returns (id: Option<nat>)
      requires Inv(View())
      modifies this
      ensures View() == Apply(old(View()), Arrive) && Inv(View())
      ensures id.Some? <==> owned
      ensures id.Some? ==>
        && id.value == |old(requestWork)| && id.value !in old(acceptedRequests)
        && acceptedRequests == old(acceptedRequests) + {id.value}
        && requestWork == old(requestWork) + [Request(false, false, true, false, false, false, false)]
      ensures id.None? ==> View() == old(View())
    {
      ApplyKeepsInv(View(), Arrive);
      if !owned {
        return None;
      }
      var accepted := |requestWork|;
      acceptedRequests := acceptedRequests + {accepted};
      requestWork := requestWork + [Request(false, false, true, false, false, false, false)];
      return Some(accepted);
    }

    /** `endTransport`. The request leaves the accepted set exactly if its work has settled, and is lost, which
        fails the drain for good, exactly if its response was not written and its work not declared read-only.
        Every other request stays as it was. */
    method EndTransportOf(id: nat)
      requires id < |requestWork|
      modifies this`acceptedRequests, this`requestWork, this`requestFailed
      ensures View() == EndTransport(old(View()), id, old(requestWork)[id])
      ensures |requestWork| == |old(requestWork)|
      ensures forall g :: 0 <= g < |requestWork| && g != id ==>
        requestWork[g] == old(requestWork)[g] && (g in acceptedRequests <==> g in old(acceptedRequests))
      ensures requestWork[id].transportEnded
      ensures id in acceptedRequests <==> id in old(acceptedRequests) && !requestWork[id].workSettled
      ensures requestFailed <==> old(requestFailed) || !(requestWork[id].written || requestWork[id].readOnly)
      ensures requestWork[id] == old(requestWork)[id].(transportEnded := true, lost := requestWork[id].lost)
      ensures requestWork[id].lost <==>
        old(requestWork)[id].lost || !(requestWork[id].written || requestWork[id].readOnly)
    {
      requestWork := requestWork[id := requestWork[id].(transportEnded := true)];
      if !requestWork[id].written && !requestWork[id].readOnly {
        requestFailed := true;
        requestWork := requestWork[id := requestWork[id].(lost := true)];
      }
      if requestWork[id].workSettled {
        acceptedRequests := acceptedRequests - {id};
      }
    }

    /** The transport of a request has ended. That fails the drain exactly if its response was not written and its
        work not declared read-only. */
    ghost predicate EndedAsOf(before: Request, after: Request, failedBefore: bool)
      reads this
    {
      && after.transportEnded && after.workSettled == before.workSettled
      && after.readOnly == before.readOnly && after.written == before.written
      && (after.lost <==> before.lost || !(before.written || before.readOnly))
      && (requestFailed <==> failedBefore || !(before.written || before.readOnly))
    }

    method OnFinish(id: nat)
      requires Inv(View()) && id < |requestWork| && !requestWork[id].finishSeen
      modifies this
      ensures View() == Apply(old(View()), Finish(id)) && Inv(View())
      ensures requestWork[id].finishSeen && EndedAsOf(old(requestWork)[id], requestWork[id], old(requestFailed))
      ensures id in acceptedRequests <==> !requestWork[id].workSettled
    {
      ApplyKeepsInv(View(), Finish(id));
      KnownRequest(View(), id);
      requestWork := requestWork[id := requestWork[id].(finishSeen := true)];
      EndTransportOf(id);
    }

    method OnClose(id: nat)
      requires Inv(View()) && id < |requestWork| && !requestWork[id].closeSeen
      modifies this
      ensures View() == Apply(old(View()), Close(id)) && Inv(View())
      ensures requestWork[id].closeSeen && EndedAsOf(old(requestWork)[id], requestWork[id], old(requestFailed))
      ensures id in acceptedRequests <==> !requestWork[id].workSettled
    {
      ApplyKeepsInv(View(), Close(id));
      KnownRequest(View(), id);
      requestWork := requestWork[id := requestWork[id].(closeSeen := true)];
      EndTransportOf(id);
    }

    /** `runReadOnlyRequest` up to its operation; it throws when the work comes too late or twice. */
    method DeclareReadOnly(id: nat) returns (thrown: bool)
      requires Inv(View()) && id < |requestWork|
      modifies this
      ensures View() == Apply(old(View()), Declare(id)) && Inv(View())
      ensures thrown <==> old(requestWork)[id].transportEnded || old(requestWork)[id].readOnly
      ensures if thrown then View() == old(View())
              else requestWork[id] == old(requestWork)[id].(readOnly := true, workSettled := false)
                   && id in acceptedRequests
    {
      ApplyKeepsInv(View(), Declare(id));
      KnownRequest(View(), id);
      if requestWork[id].transportEnded || requestWork[id].readOnly {
        return true;
      }
      requestWork := requestWork[id := requestWork[id].(readOnly := true)];
      requestWork := requestWork[id := requestWork[id].(workSettled := false)];
      return false;
    }

    /** The `finally` of `runReadOnlyRequest`. */
    method OnWorkSettled(id: nat)
      requires Inv(View()) && id < |requestWork| && !requestWork[id].workSettled
      modifies this
      ensures View() == Apply(old(View()), WorkSettles(id)) && Inv(View())
      ensures requestWork[id] == old(requestWork)[id].(workSettled := true)
      ensures id in acceptedRequests <==> !requestWork[id].transportEnded
    {
      ApplyKeepsInv(View(), WorkSettles(id));
      KnownRequest(View(), id);
      requestWork := requestWork[id := requestWork[id].(workSettled := true)];
      if requestWork[id].transportEnded {
        acceptedRequests := acceptedRequests - {id};
      }
    }

    /** `drainRequests` is called, or all requests that it waited for are done: the loop test decides
        whether to wait again, to return or to throw. */
    method DrainStep(e: Event)
      requires Inv(View()) && (if drain.Waiting? then e == DrainResume && drain.snapshot !! acceptedRequests
                               else e == DrainStart)
      modifies this
      ensures View() == Apply(old(View()), e) && Inv(View())
      ensures acceptedRequests == old(acceptedRequests) && requestWork == old(requestWork)
      ensures if acceptedRequests != {} then drain == Waiting(acceptedRequests) else drain == Returned(!requestFailed)
      ensures drain == Returned(true) ==> CleanlyEnded(View())
    {
      ApplyKeepsInv(View(), e);
      DrainReturnsCleanly(View(), e);
      if acceptedRequests != {} {
        drain := Waiting(acceptedRequests);
      } else {
        drain := Returned(!requestFailed);
      }
    }

    method OnRelease()
      requires Inv(View())
      modifies this
      ensures View() == Apply(old(View()), Release) && Inv(View())
      ensures !owned && acceptedRequests == old(acceptedRequests) && requestWork == old(requestWork)
    {
      ApplyKeepsInv(View(), Release);
      owned := false;
    }

    method OnActivate()
      requires Inv(View())
      modifies this
      ensures View() == Apply(old(View()), Activate) && Inv(View())
      ensures owned && acceptedRequests == old(acceptedRequests) && requestWork == old(requestWork)
    {
      ApplyKeepsInv(View(), Activate);
      owned := true;
    }
  }
}
