/** Deduplication of concurrent calls (packages/cache/src/single-flight.ts).

    A flight is one run of the work; its promise is shared by every call that joins it. A call runs
    up to its `await` in one step, and so do the end of the work and the resumption of a caller. */
module SingleFlight {
  import opened Collections

  type Outcome<V> = Result<V, string>

  datatype Status<V> = Running | Ended(outcome: Outcome<V>)

  datatype Flight<V> = Flight(key: string, status: Status<V>)

  /** A call of `run`: the flight it awaits, whether it joined it, and what it got. */
  datatype Caller<V> = Caller(key: string, flight: nat, deduplicated: bool, got: Option<Outcome<V>>)

  datatype World<V> = World(inFlight: map<string, nat>, flights: seq<Flight<V>>, callers: seq<Caller<V>>)

  datatype Event<V> =
    | Enter(key: string, thrown: Option<string>) // `thrown`: the work throws before it returns a promise
    | Settle(flight: nat, outcome: Outcome<V>)
    | Resume(caller: nat)
    | Clear

  function Initial<V>(): World<V> {
    World(map[], [], [])
  }

  predicate Enabled<V>(w: World<V>, e: Event<V>) {
    match e
    case Enter(_, _) => true
    case Settle(f, _) => f < |w.flights| && w.flights[f].status.Running?
    case Resume(c) => c < |w.callers| && w.callers[c].got.None? && w.callers[c].flight < |w.flights|
                      && w.flights[w.callers[c].flight].status.Ended?
    case Clear => true
  }

  /** The end of the work deletes whatever is stored under its key. Work that throws at once is
      deleted before it is stored. */
  function Step<V>(w: World<V>, e: Event<V>): World<V>
    requires Enabled(w, e)
  {
    match e
    case Enter(k, thrown) =>
      if k in w.inFlight then w.(callers := w.callers + [Caller(k, w.inFlight[k], true, None)])
      else
        var f := |w.flights|;
        World(w.inFlight[k := f],
              w.flights + [Flight(k, if thrown.Some? then Ended(Failure(thrown.value)) else Running)],
              w.callers + [Caller(k, f, false, None)])
    case Settle(f, outcome) =>
      World(w.inFlight - {w.flights[f].key}, w.flights[f := Flight(w.flights[f].key, Ended(outcome))], w.callers)
    case Resume(c) =>
      var caller := w.callers[c];
      w.(callers := w.callers[c := caller.(got := Some(w.flights[caller.flight].status.outcome))])
    case Clear => w.(inFlight := map[])
  }

  predicate Schedule<V>(w: World<V>, events: seq<Event<V>>)
    decreases events, 0
  {
    events == [] ||
    (Schedule(w, events[..|events| - 1]) && Enabled(Run(w, events[..|events| - 1]), events[|events| - 1]))
  }

  function Run<V>(w: World<V>, events: seq<Event<V>>): World<V>
    requires Schedule(w, events)
    decreases events, 1
  {
    if events == [] then w else Step(Run(w, events[..|events| - 1]), events[|events| - 1])
  }

  // ---------------------------------------------------------------- what holds whatever happens

  /** Each call awaits a flight of its own key, got nothing but that flight's outcome, and each
      flight has exactly one call that was not deduplicated. */
  ghost predicate Sound<V>(w: World<V>) {
    && (forall c :: 0 <= c < |w.callers| ==>
          var x := w.callers[c];
          && x.flight < |w.flights| && w.flights[x.flight].key == x.key
          && (x.got.Some? ==> w.flights[x.flight].status == Ended(x.got.value)))
    && (forall k :: k in w.inFlight ==> w.inFlight[k] < |w.flights| && w.flights[w.inFlight[k]].key == k)
    && (forall f :: 0 <= f < |w.flights| ==> OneStarter(w, f))
  }

  ghost predicate OneStarter<V>(w: World<V>, f: nat) {
    exists c :: StarterOf(w, f, c) && forall d :: StarterOf(w, f, d) ==> d == c
  }

  predicate StarterOf<V>(w: World<V>, f: nat, c: int) {
    0 <= c < |w.callers| && w.callers[c].flight == f && !w.callers[c].deduplicated
  }

  lemma StepSound<V>(w: World<V>, e: Event<V>)
    requires Enabled(w, e) && Sound(w)
    ensures Sound(Step(w, e))
  {
    var n := Step(w, e);
    forall f | 0 <= f < |n.flights| ensures OneStarter(n, f) {
      if f < |w.flights| {
        assert OneStarter(w, f);
        var c :| StarterOf(w, f, c) && forall d :: StarterOf(w, f, d) ==> d == c;
        assert StarterOf(n, f, c);
        forall d | StarterOf(n, f, d) ensures d == c {
          assert d < |w.callers| ==> StarterOf(w, f, d);
        }
      } else {
        assert StarterOf(n, f, |w.callers|);
        assert forall d :: 0 <= d < |w.callers| ==> n.callers[d].flight < f;
      }
    }
  }

  lemma {:induction false} RunSound<V>(events: seq<Event<V>>)
    requires Schedule(Initial(), events)
    ensures Sound(Run(Initial(), events))
  {
    hide Step, Sound, Enabled;
    if events == [] {
      InitialSound<V>();
    } else {
      RunSound(events[..|events| - 1]);
      StepSound(Run(Initial(), events[..|events| - 1]), events[|events| - 1]);
    }
  }

  lemma InitialSound<V>()
    ensures Sound(Initial<V>()) && Exact(Initial<V>())
  {
  }

  /** In every interleaving, every call gets the outcome of the one flight it awaited, a flight for
      its own key that one call, and only one, started. */
  lemma CallersShareOneOutcome<V>(events: seq<Event<V>>, a: nat, b: nat)
    requires Schedule(Initial(), events)
    ensures var w := Run(Initial(), events);
            a < |w.callers| && b < |w.callers| && w.callers[a].flight == w.callers[b].flight ==>
              && w.callers[a].key == w.callers[b].key
              && (w.callers[a].got.Some? && w.callers[b].got.Some? ==> w.callers[a].got == w.callers[b].got)
              && (!w.callers[a].deduplicated && !w.callers[b].deduplicated ==> a == b)
  {
    RunSound(events);
    var w := Run(Initial(), events);
    if a < |w.callers| && b < |w.callers| && w.callers[a].flight == w.callers[b].flight {
      var f := w.callers[a].flight;
      assert OneStarter(w, f);
      assert StarterOf(w, f, a) <==> !w.callers[a].deduplicated;
      assert StarterOf(w, f, b) <==> !w.callers[b].deduplicated;
    }
  }

  // ---------------------------------------------------------------- the map and the running flights

  /** The map holds exactly the running flights, each under its own key: so no key has two. */
  ghost predicate Exact<V>(w: World<V>) {
    && (forall k :: k in w.inFlight ==> Flying(w, k, w.inFlight[k]))
    && (forall k, f :: Flying(w, k, f) ==> k in w.inFlight && w.inFlight[k] == f)
  }

  predicate Flying<V>(w: World<V>, k: string, f: nat) {
    f < |w.flights| && w.flights[f] == Flight(k, Running)
  }

  /** Clearing while nothing runs, and work that does not throw before it returns. */
  predicate Harmless<V>(w: World<V>, e: Event<V>) {
    match e
    case Enter(k, thrown) => thrown.None? || k in w.inFlight
    case Clear => w.inFlight == map[]
    case _ => true
  }

  /** A step keeps the map exact precisely when it is harmless. */
  lemma StepExact<V>(w: World<V>, e: Event<V>)
    requires Enabled(w, e) && Exact(w)
    ensures Exact(Step(w, e)) <==> Harmless(w, e)
  {
    var n := Step(w, e);
    match e
    case Enter(k, thrown) =>
      if k !in w.inFlight {
        var f := |w.flights|;
        assert n.inFlight[k] == f;
        assert Flying(n, k, f) <==> thrown.None?;
        forall j, g: nat | Flying(n, j, g) ensures j in n.inFlight && n.inFlight[j] == g {
          assert g < f ==> Flying(w, j, g);
        }
        forall j | j in w.inFlight ensures Flying(n, j, n.inFlight[j]) {
          assert Flying(w, j, w.inFlight[j]);
        }
      } else {
        forall j, g ensures Flying(n, j, g) <==> Flying(w, j, g) {
        }
      }
    case Settle(f, outcome) =>
      var k := w.flights[f].key;
      assert Flying(w, k, f);
      forall j, g ensures Flying(n, j, g) <==> Flying(w, j, g) && g != f {
      }
      forall j | j in n.inFlight ensures Flying(n, j, n.inFlight[j]) {
        assert Flying(w, j, w.inFlight[j]);
      }
    case Resume(c) =>
      forall j, g ensures Flying(n, j, g) <==> Flying(w, j, g) {
      }
    case Clear =>
      forall j, g ensures Flying(n, j, g) <==> Flying(w, j, g) {
      }
      if k :| k in w.inFlight {
        assert Flying(n, k, w.inFlight[k]);
      }
  }

  /** The events of a schedule, each harmless when its turn comes. */
  predicate AllHarmless<V>(w: World<V>, events: seq<Event<V>>)
    requires Schedule(w, events)
  {
    events == [] ||
    (AllHarmless(w, events[..|events| - 1])
     && Harmless(Run(w, events[..|events| - 1]), events[|events| - 1]))
  }

  ghost predicate AlwaysExact<V>(w: World<V>, events: seq<Event<V>>)
    requires Schedule(w, events)
  {
    Exact(Run(w, events)) && (events == [] || AlwaysExact(w, events[..|events| - 1]))
  }

  /** Throughout a run a key is in the map exactly while one flight for it is running, if and only
      if the map was never cleared under a running flight and no work threw before returning. */
  lemma {:induction false} MapIsTheRunningFlights<V>(events: seq<Event<V>>)
    requires Schedule(Initial(), events)
    ensures AlwaysExact(Initial(), events) <==> AllHarmless(Initial(), events)
  {
    hide Step, Exact, Enabled, Harmless;
    if events == [] {
      InitialSound<V>();
    } else {
      var front := events[..|events| - 1];
      MapIsTheRunningFlights(front);
      if AlwaysExact(Initial(), front) {
        AlwaysExactLast(Initial(), front);
        StepExact(Run(Initial(), front), events[|events| - 1]);
      }
    }
  }

  lemma AlwaysExactLast<V>(w: World<V>, events: seq<Event<V>>)
    requires Schedule(w, events) && AlwaysExact(w, events)
    ensures Exact(Run(w, events))
  {
  }

  /** While the map is exact, a call joins a flight exactly if one is running for its key, and the
      flight it awaits is running. */
  lemma JoinsIffRunning<V>(w: World<V>, k: string)
    requires Exact(w)
    ensures var n := Step(w, Enter(k, None));
            var x := n.callers[|w.callers|];
            && x.key == k
            && (x.deduplicated <==> exists f: nat :: Flying(w, k, f))
            && Flying(n, k, x.flight)
            && (x.deduplicated ==> n.flights == w.flights)
            && (!x.deduplicated ==> n.flights == w.flights + [Flight(k, Running)])
  {
    if k in w.inFlight {
      assert Flying(w, k, w.inFlight[k]);
    }
  }

  ghost function RunningFlights<V>(w: World<V>): set<nat> {
    set f: nat | f < |w.flights| && w.flights[f].status.Running?
  }

  /** While the map is exact, its size is the number of running flights. */
  lemma PendingCount<V>(w: World<V>)
    requires Exact(w)
    ensures |w.inFlight| == |RunningFlights(w)|
  {
    forall f: nat ensures f in RunningFlights(w) <==> exists k :: k in w.inFlight && w.inFlight[k] == f {
      if f in RunningFlights(w) {
        assert Flying(w, w.flights[f].key, f);
      }
      if k :| k in w.inFlight && w.inFlight[k] == f {
        assert Flying(w, k, f);
      }
    }
    forall j, k | j in w.inFlight && k in w.inFlight && w.inFlight[j] == w.inFlight[k] ensures j == k {
      assert Flying(w, j, w.inFlight[j]) && Flying(w, k, w.inFlight[k]);
    }
    assert w.inFlight.Values == RunningFlights(w);
    InjectiveSize(w.inFlight);
  }

  lemma {:induction false} InjectiveSize<K, V>(m: map<K, V>)
    requires forall j, k :: j in m && k in m && m[j] == m[k] ==> j == k
    ensures |m| == |m.Values|
    decreases |m|
  {
    if m.Keys == {} {
      assert m.Values == {};
    } else {
      var k :| k in m;
      var rest := m - {k};
      forall v | v in m.Values ensures v in rest.Values + {m[k]} {
        var j :| j in m && m[j] == v;
        assert j != k ==> j in rest && rest[j] == v;
      }
      assert m.Values == rest.Values + {m[k]};
      assert rest.Keys == m.Keys - {k};
      assert |m| == |m.Keys| && |rest| == |rest.Keys|;
      InjectiveSize(rest);
    }
  }

  // ---------------------------------------------------------------- a key that is stuck

  /** The key `k` leads to a flight that has ended and nothing will delete it. */
  predicate Stuck<V>(w: World<V>, k: string, error: string) {
    && k in w.inFlight && w.inFlight[k] < |w.flights|
    && w.flights[w.inFlight[k]] == Flight(k, Ended(Failure(error)))
    && forall f :: 0 <= f < |w.flights| && w.flights[f].key == k ==> w.flights[f].status.Ended?
  }

  lemma ThrowingAtOnceSticks<V>(w: World<V>, k: string, error: string)
    requires Exact(w) && k !in w.inFlight
    ensures Stuck(Step(w, Enter(k, Some(error))), k, error)
  {
    var n := Step(w, Enter(k, Some(error)));
    forall f | 0 <= f < |n.flights| && n.flights[f].key == k ensures n.flights[f].status.Ended? {
      if f < |w.flights| {
        assert !Flying(w, k, f);
      }
    }
  }

  /** Work that throws before returning a promise leaves its error under the key for good: until
      the map is cleared, ... */
  lemma {:induction false} StuckForGood<V>(w: World<V>, k: string, error: string, events: seq<Event<V>>)
    requires Stuck(w, k, error) && Schedule(w, events)
    requires forall i :: 0 <= i < |events| ==> !events[i].Clear?
    ensures Stuck(Run(w, events), k, error)
  {
    if events != [] {
      var front := events[..|events| - 1];
      StuckForGood(w, k, error, front);
      StuckStep(Run(w, front), k, error, events[|events| - 1]);
    }
  }

  /** ... every later call for the key is deduplicated onto that failure. */
  lemma StuckJoins<V>(w: World<V>, k: string, error: string, thrown: Option<string>)
    requires Stuck(w, k, error)
    ensures var n := Step(w, Enter(k, thrown));
            && n.flights == w.flights && n.inFlight == w.inFlight
            && n.callers == w.callers + [Caller(k, w.inFlight[k], true, None)]
            && Step(n, Resume(|w.callers|)).callers[|w.callers|].got == Some(Failure(error))
  {
  }

  lemma StuckStep<V>(w: World<V>, k: string, error: string, e: Event<V>)
    requires Stuck(w, k, error) && Enabled(w, e) && !e.Clear?
    ensures Stuck(Step(w, e), k, error)
  {
  }

  // ---------------------------------------------------------------- the group object

  class SingleFlightGroup<V> {
    var inFlight: map<string, nat>
    var flights: seq<Flight<V>>
    var callers: seq<Caller<V>>

    function State(): World<V>
      reads this
    {
      World(inFlight, flights, callers)
    }

    constructor ()
      ensures State() == Initial()
    {
      inFlight, flights, callers := map[], [], [];
    }

    /** A call of `run`, up to its `await`. */
    method Enter(key: string, thrown: Option<string>) returns (caller: nat)
      modifies this
      ensures State() == Step(old(State()), Event.Enter(key, thrown))
      ensures caller == |old(callers)| && callers[caller].deduplicated == (key in old(inFlight))
    {
      caller := |callers|;
      if key in inFlight {
        callers := callers + [Caller(key, inFlight[key], true, None)];
        return;
      }
      var promise := |flights|;
      if thrown.Some? {
        inFlight := inFlight - {key};
        flights := flights + [Flight(key, Ended(Failure(thrown.value)))];
      } else {
        flights := flights + [Flight(key, Running)];
      }
      inFlight := inFlight[key := promise];
      callers := callers + [Caller(key, promise, false, None)];
    }

    /** The end of the work of a flight. */
    method Settle(flight: nat, outcome: Outcome<V>)
      requires flight < |flights| && flights[flight].status.Running?
      modifies this
      ensures State() == Step(old(State()), Event.Settle(flight, outcome))
    {
      inFlight := inFlight - {flights[flight].key};
      flights := flights[flight := Flight(flights[flight].key, Ended(outcome))];
    }

    method Clear()
      modifies this`inFlight
      ensures State() == Step(old(State()), Event.Clear)
    {
      inFlight := map[];
    }
  }
}
