/** The permits of the public demo: who holds one, and when it comes back (public_demo_api.py). */
module Admission {

  /**
    Where an admitted request stands: its handler awaits the inner task, or has gone and left a callback on
    that task, or has given its permit back; Lost means that no inner task could be created at all.
   */
  datatype Phase = Waiting | Watched | Closed | Lost

  /** A cancelled task is done although the thread that it started may still run. */
  datatype Request = Request(phase: Phase, taskDone: bool, runDone: bool, releases: nat)

  datatype Desk = Desk(bound: nat, permits: nat, requests: map<nat, Request>)

  /** How the handler's wait ends. */
  datatype Ending = Answered | Failed | Cancelled | TimedOut

  datatype Event =
    | Arrive(id: nat, created: bool)
    | FinishTask(id: nat)
    | CancelTask(id: nat)
    | FinishRun(id: nat)
    | Resume(id: nat, ending: Ending)
    | CallBack(id: nat)

  function Opened(bound: nat): Desk {
    Desk(bound, bound, map[])
  }

  /** What the event loop and the thread pool may do next. */
  predicate CanHappen(d: Desk, e: Event) {
    match e
    case Arrive(id, _) => id !in d.requests
    case FinishTask(id) => id in d.requests && !d.requests[id].taskDone && d.requests[id].phase != Lost
    case CancelTask(id) => id in d.requests && !d.requests[id].taskDone && d.requests[id].phase != Lost
    case FinishRun(id) => id in d.requests && d.requests[id].taskDone && !d.requests[id].runDone
    case Resume(id, ending) =>
      && id in d.requests && d.requests[id].phase == Waiting
      && (ending.Answered? ==> d.requests[id].taskDone && d.requests[id].runDone)
      && (ending.Failed? ==> d.requests[id].taskDone)
    case CallBack(id) => id in d.requests && d.requests[id].phase == Watched && d.requests[id].taskDone
  }

  function Released(d: Desk, id: nat): Desk
    requires id in d.requests
  {
    var r := d.requests[id];
    d.(permits := d.permits + 1, requests := d.requests[id := r.(phase := Closed, releases := r.releases + 1)])
  }

  function After(d: Desk, e: Event): Desk
    requires CanHappen(d, e)
  {
    match e
    case Arrive(id, created) =>
      if d.permits == 0 then d
      else
        var r := if created then Request(Waiting, false, false, 0) else Request(Lost, false, true, 0);
        d.(permits := d.permits - 1, requests := d.requests[id := r])
    case FinishTask(id) => d.(requests := d.requests[id := d.requests[id].(taskDone := true, runDone := true)])
    case CancelTask(id) => d.(requests := d.requests[id := d.requests[id].(taskDone := true)])
    case FinishRun(id) => d.(requests := d.requests[id := d.requests[id].(runDone := true)])
    case Resume(id, ending) =>
      if ending.TimedOut? || (ending.Cancelled? && !d.requests[id].taskDone)
      then d.(requests := d.requests[id := d.requests[id].(phase := Watched)])
      else Released(d, id)
    case CallBack(id) => Released(d, id)
  }

  // ----- conservation

  function Holders(d: Desk): set<nat> {
    set id | id in d.requests && d.requests[id].phase != Closed
  }

  function Unfinished(d: Desk): set<nat> {
    set id | id in d.requests && !d.requests[id].runDone
  }

  predicate IsConsistent(r: Request) {
    && r.releases == (if r.phase == Closed then 1 else 0)
    && (r.phase == Closed ==> r.taskDone)
    && (r.phase == Lost ==> r.runDone && !r.taskDone)
    && (r.phase != Lost && r.runDone ==> r.taskDone)
  }

  /** Every permit is either free or held by one request; a request gives its permit back once. */
  predicate IsBalanced(d: Desk) {
    && d.permits + |Holders(d)| == d.bound
    && forall id :: id in d.requests ==> IsConsistent(d.requests[id])
  }

  /** Permits and holders change together. */
  lemma HoldersFollowPermits(d: Desk, e: Event)
    requires CanHappen(d, e)
    ensures var next := After(d, e);
            && (next.permits == d.permits ==> Holders(next) == Holders(d))
            && (next.permits < d.permits ==>
                  next.permits == d.permits - 1 && e.id !in Holders(d) && Holders(next) == Holders(d) + {e.id})
            && (next.permits > d.permits ==>
                  next.permits == d.permits + 1 && e.id in Holders(d) && Holders(next) == Holders(d) - {e.id})
  {
  }

  lemma EventKeepsBalance(d: Desk, e: Event)
    requires IsBalanced(d) && CanHappen(d, e)
    ensures IsBalanced(After(d, e)) && After(d, e).bound == d.bound
  {
    HoldersFollowPermits(d, e);
    RequestsStayConsistent(d, e);
    hide CanHappen, IsConsistent, Holders;
  }

  lemma RequestsStayConsistent(d: Desk, e: Event)
    requires IsBalanced(d) && CanHappen(d, e)
    ensures forall id :: id in After(d, e).requests ==> IsConsistent(After(d, e).requests[id])
    ensures After(d, e).bound == d.bound
  {
    hide Holders;
  }

  /** A run of the route: the events in the order in which they happened. */
  ghost predicate IsRun(bound: nat, states: seq<Desk>, events: seq<Event>) {
    && |states| == |events| + 1
    && states[0] == Opened(bound)
    && forall i :: 0 <= i < |events| ==> CanHappen(states[i], events[i]) && states[i + 1] == After(states[i], events[i])
  }

  lemma {:induction false} RunsAreBalanced(bound: nat, states: seq<Desk>, events: seq<Event>, i: nat)
    requires IsRun(bound, states, events) && i < |states|
    ensures IsBalanced(states[i]) && states[i].bound == bound
  {
    if i == 0 {
      assert Holders(states[0]) == {};
    } else {
      RunsAreBalanced(bound, states, events, i - 1);
      EventKeepsBalance(states[i - 1], events[i - 1]);
    }
  }

  /** Whatever way its handler ends, a request gives its permit back exactly once, and never one too many. */
  lemma PermitsAreReleasedOnce(bound: nat, states: seq<Desk>, events: seq<Event>, i: nat, id: nat)
    requires IsRun(bound, states, events) && i < |events|
    requires id in states[i].requests
    ensures id in states[i + 1].requests && states[i + 1].requests[id].releases <= 1
    ensures states[i + 1].requests[id].releases > states[i].requests[id].releases ==> states[i].permits < bound
    ensures states[i].requests[id].phase == Closed ==> states[i + 1].requests[id].releases == 1
  {
    RunsAreBalanced(bound, states, events, i);
    RunsAreBalanced(bound, states, events, i + 1);
    if states[i].requests[id].phase != Closed {
      assert id in Holders(states[i]);
    }
  }

  /** Once no handler and no callback is pending, all permits are back exactly if no task failed to be created. */
  lemma PermitsComeBackExactly(bound: nat, states: seq<Desk>, events: seq<Event>, i: nat)
    requires IsRun(bound, states, events) && i < |states|
    requires forall id :: id in states[i].requests ==>
               states[i].requests[id].phase == Closed || states[i].requests[id].phase == Lost
    ensures states[i].permits == bound <==> forall id :: id in states[i].requests ==> states[i].requests[id].phase != Lost
  {
    RunsAreBalanced(bound, states, events, i);
    if id :| id in states[i].requests && states[i].requests[id].phase == Lost {
      assert id in Holders(states[i]);
    } else {
      assert Holders(states[i]) == {};
    }
  }

  // ----- the bound on what runs

  predicate RunsWithItsTask(r: Request) {
    r.taskDone ==> r.runDone
  }

  lemma {:induction false} UncancelledRunsEndWithTheirTasks(bound: nat, states: seq<Desk>, events: seq<Event>, i: nat)
    requires IsRun(bound, states, events) && i < |states|
    requires forall j :: 0 <= j < i ==> !events[j].CancelTask?
    ensures forall id :: id in states[i].requests ==> RunsWithItsTask(states[i].requests[id])
  {
    if i > 0 {
      UncancelledRunsEndWithTheirTasks(bound, states, events, i - 1);
      assert states[i] == After(states[i - 1], events[i - 1]);
    }
  }

  lemma SubsetIsSmaller(a: set<nat>, b: set<nat>)
    requires a <= b
    ensures |a| <= |b|
  {
    assert b == a + (b - a);
  }

  /** As long as no inner task is itself cancelled, the runs that are still going never exceed the bound. */
  lemma UnfinishedRunsStayBounded(bound: nat, states: seq<Desk>, events: seq<Event>, i: nat)
    requires IsRun(bound, states, events) && i < |states|
    requires forall j :: 0 <= j < i ==> !events[j].CancelTask?
    ensures |Unfinished(states[i])| <= bound
  {
    RunsAreBalanced(bound, states, events, i);
    UncancelledRunsEndWithTheirTasks(bound, states, events, i);
    SubsetIsSmaller(Unfinished(states[i]), Holders(states[i]));
  }

  /** The condition is needed: a cancelled task gives its permit back while its thread still runs. */
  lemma CancelledTasksOverrun()
    ensures exists states, events :: IsRun(1, states, events) && |Unfinished(states[|events|])| > 1
  {
    var s0 := Opened(1);
    var events := [Arrive(0, true), CancelTask(0), Resume(0, Cancelled), Arrive(1, true)];
    var s1 := After(s0, events[0]);
    var s2 := After(s1, events[1]);
    var s3 := After(s2, events[2]);
    var s4 := After(s3, events[3]);
    var states := [s0, s1, s2, s3, s4];
    assert IsRun(1, states, events);
    assert Unfinished(s4) == {0, 1};
  }

  // ----- exactly when the bound can be exceeded

  /** Runs that go on although their task is done: what a cancelled inner task leaves behind. */
  function Orphans(d: Desk): set<nat> {
    set id | id in d.requests && d.requests[id].taskDone && !d.requests[id].runDone
  }

  /** Permits that never come back. */
  function LostOnes(d: Desk): set<nat> {
    set id | id in d.requests && d.requests[id].phase == Lost
  }

  /** Runs whose task is not done; each of them holds a permit. */
  function Running(d: Desk): set<nat> {
    set id | id in d.requests && d.requests[id].phase != Lost && !d.requests[id].taskDone
  }

  /** Requests that could give their permit back now. */
  function Releasable(d: Desk): set<nat> {
    set id | id in d.requests && d.requests[id].phase != Closed && d.requests[id].taskDone
  }

  /** The events lead from one desk to another, and none of them cancels an inner task. */
  ghost predicate Leads(d: Desk, events: seq<Event>, t: Desk)
    decreases |events|
  {
    if events == [] then t == d
    else !events[0].CancelTask? && CanHappen(d, events[0]) && Leads(After(d, events[0]), events[1..], t)
  }

  lemma PartsOfDesk(d: Desk)
    requires IsBalanced(d)
    ensures |Unfinished(d)| == |Orphans(d)| + |Running(d)|
    ensures |Running(d)| + |LostOnes(d)| + |Releasable(d)| == |Holders(d)| == d.bound - d.permits
  {
    assert Unfinished(d) == Orphans(d) + Running(d) && Orphans(d) !! Running(d);
    assert Holders(d) == Running(d) + LostOnes(d) + Releasable(d);
    assert Running(d) !! LostOnes(d) && (Running(d) + LostOnes(d)) !! Releasable(d);
  }

  lemma EventsOnlySettle(d: Desk, e: Event)
    requires IsBalanced(d) && CanHappen(d, e) && !e.CancelTask?
    ensures Orphans(After(d, e)) <= Orphans(d) && LostOnes(d) <= LostOnes(After(d, e))
  {
  }

  lemma {:induction false} SettledForGood(d: Desk, events: seq<Event>, t: Desk)
    requires IsBalanced(d) && Leads(d, events, t)
    ensures IsBalanced(t) && t.bound == d.bound && |Orphans(t)| <= |Orphans(d)| && |LostOnes(d)| <= |LostOnes(t)|
    decreases |events|
  {
    hide IsBalanced, CanHappen, After, Orphans, LostOnes;
    if events != [] {
      var next := After(d, events[0]);
      EventKeepsBalance(d, events[0]);
      EventsOnlySettle(d, events[0]);
      SubsetIsSmaller(Orphans(next), Orphans(d));
      SubsetIsSmaller(LostOnes(d), LostOnes(next));
      SettledForGood(next, events[1..], t);
    }
  }

  lemma UnusedId(ids: set<nat>) returns (n: nat)
    ensures forall id :: id in ids ==> id < n
  {
    if id :| id in ids {
      var m := UnusedId(ids - {id});
      n := if m <= id then id + 1 else m;
      forall other | other in ids ensures other < n {
        assert other == id || other in ids - {id};
      }
    } else {
      n := 0;
    }
  }

  /** A request whose task is done gives its permit back. */
  lemma ReleaseHelps(d: Desk, id: nat) returns (e: Event)
    requires IsBalanced(d) && id in Releasable(d)
    ensures CanHappen(d, e) && !e.CancelTask?
    ensures var t := After(d, e);
            Releasable(t) == Releasable(d) - {id} && Orphans(t) == Orphans(d) && LostOnes(t) == LostOnes(d)
  {
    e := if d.requests[id].phase == Waiting then Resume(id, Failed) else CallBack(id);
  }

  /** A new request takes a free permit. */
  lemma ArrivalHelps(d: Desk) returns (e: Event)
    requires d.permits > 0
    ensures CanHappen(d, e) && !e.CancelTask? && After(d, e).permits == d.permits - 1
    ensures var t := After(d, e);
            Releasable(t) == Releasable(d) && Orphans(t) == Orphans(d) && LostOnes(t) == LostOnes(d)
  {
    var id := UnusedId(d.requests.Keys);
    e := Arrive(id, true);
  }

  lemma LeadsFurther(d: Desk, e: Event, rest: seq<Event>, t: Desk)
    requires CanHappen(d, e) && !e.CancelTask? && Leads(After(d, e), rest, t)
    ensures Leads(d, [e] + rest, t)
  {
    assert ([e] + rest)[1..] == rest;
  }

  /** Every held permit that can come back does, and new requests take all of them. */
  lemma {:induction false} FillsUp(d: Desk) returns (events: seq<Event>, t: Desk)
    requires IsBalanced(d)
    ensures Leads(d, events, t)
    ensures |Unfinished(t)| == |Orphans(d)| + d.bound - |LostOnes(d)|
    decreases |Releasable(d)|, d.permits
  {
    PartsOfDesk(d);
    hide IsBalanced, CanHappen, After, Orphans, LostOnes, Unfinished, Running, Releasable, Holders;
    if Releasable(d) == {} && d.permits == 0 {
      events, t := [], d;
    } else {
      var e;
      if id :| id in Releasable(d) {
        e := ReleaseHelps(d, id);
      } else {
        e := ArrivalHelps(d);
      }
      EventKeepsBalance(d, e);
      var rest;
      rest, t := FillsUp(After(d, e));
      events := [e] + rest;
      LeadsFurther(d, e, rest, t);
    }
  }

  /**
    From any desk that a run reaches, and if no further inner task is cancelled, the runs that are still going
    can exceed the bound exactly if more orphans are running than permits are lost.
   */
  lemma BoundIsExceededExactly(bound: nat, states: seq<Desk>, events: seq<Event>, i: nat)
    requires IsRun(bound, states, events) && i < |states|
    ensures (exists more, t :: Leads(states[i], more, t) && |Unfinished(t)| > bound)
            <==> |Orphans(states[i])| > |LostOnes(states[i])|
  {
    hide IsBalanced, Leads, Orphans, LostOnes, Unfinished, Running, Releasable, Holders;
    var d := states[i];
    RunsAreBalanced(bound, states, events, i);
    var filling, full := FillsUp(d);
    assert Leads(states[i], filling, full) && |Unfinished(full)| == |Orphans(d)| + bound - |LostOnes(d)|;
    forall more, t | Leads(states[i], more, t)
      ensures |Unfinished(t)| <= |Orphans(d)| + bound - |LostOnes(d)|
    {
      SettledForGood(d, more, t);
      PartsOfDesk(t);
    }
  }

  // ----- the route's own code

  /** threading.BoundedSemaphore, without blocking. */
  class BoundedSemaphore {
    const bound: nat
    var value: nat

    constructor (bound: nat)
      ensures this.bound == bound && value == bound
    {
      this.bound := bound;
      value := bound;
    }

    method Acquire() returns (ok: bool)
      modifies this
      ensures ok <==> old(value) > 0
      ensures value == if ok then old(value) - 1 else old(value)
    {
      if value == 0 {
        return false;
      }
      value := value - 1;
      return true;
    }

    /** False stands for the ValueError of a release too many. */
    method Release() returns (ok: bool)
      modifies this
      ensures ok <==> old(value) < bound
      ensures value == if ok then old(value) + 1 else old(value)
    {
      if value >= bound {
        return false;
      }
      value := value + 1;
      return true;
    }
  }

  /** What the closures of the route share: the semaphore, and the requests that were admitted. */
  class DemoRoute {
    const admission: BoundedSemaphore
    var requests: map<nat, Request>

    constructor (bound: nat)
      ensures State() == Opened(bound) && fresh(admission)
    {
      admission := new BoundedSemaphore(bound);
      requests := map[];
    }

    function State(): Desk
      reads this, admission
    {
      Desk(admission.bound, admission.value, requests)
    }

    /** Up to the first await: takes a permit without waiting, or answers that the demo is busy. */
    method RunPublicDemo(id: nat, created: bool) returns (admitted: bool)
      requires CanHappen(State(), Arrive(id, created))
      modifies this, admission
      ensures State() == After(old(State()), Arrive(id, created))
      ensures admitted <==> old(admission.value) > 0
    {
      admitted := admission.Acquire();
      if admitted {
        requests := requests[id := if created then Request(Waiting, false, false, 0) else Request(Lost, false, true, 0)];
      }
    }

    /** After the await, however it ended. */
    method ResumeHandler(id: nat, ending: Ending) returns (ok: bool)
      requires IsBalanced(State()) && CanHappen(State(), Resume(id, ending))
      modifies this, admission
      ensures ok && State() == After(old(State()), Resume(id, ending))
    {
      match ending {
        case Cancelled =>
          if requests[id].taskDone {
            ok := ReleaseAfterCompletion(id);
          } else {
            requests := requests[id := requests[id].(phase := Watched)];
            ok := true;
          }
        case TimedOut =>
          requests := requests[id := requests[id].(phase := Watched)];
          ok := true;
        case _ =>
          ok := ReleaseAfterCompletion(id);
      }
    }

    /** The done callback, and every other release. */
    method ReleaseAfterCompletion(id: nat) returns (ok: bool)
      requires IsBalanced(State()) && id in requests && requests[id].phase != Closed
      modifies this, admission
      ensures ok && State() == Released(old(State()), id)
    {
      assert id in Holders(State());
      ok := admission.Release();
      requests := requests[id := requests[id].(phase := Closed, releases := requests[id].releases + 1)];
    }
  }
}
