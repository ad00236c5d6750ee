/** The seeding of an empty host pool: one attempt per configured seed, joined. */
module SeedSession {
  import opened Codes
  import opened Synchronize
  import opened Sums

  datatype Seed = Unstarted | Connecting | Registering | Seeding | Reported

  /** `calls` are the calls made of the join; `hosts` is the current size of the pool;
      `results` are the calls of the start handler, each with the size of the pool at
      that step. */
  datatype State = State(stopped: bool, next: nat, seeds: seq<Seed>, calls: seq<Code>, hosts: nat,
                         results: seq<(Code, nat)>)

  datatype Event =
    | StartSeed
    | ConnectDone(seed: nat, ec: Code, blacklisted: bool)
    | Started(seed: nat, ec: Code)
    | SeedDone(seed: nat, ec: Code)
    | PoolChanges(hosts: nat)
    | SessionStop

  function Begin(n: nat): State {
    State(false, 0, seq(n, _ => Unstarted), [], 0, [])
  }

  /** `handle_complete`: seeding began with an empty pool, so an increase is one host. */
  function Completion(hosts: nat): (Code, nat) {
    (if hosts >= 1 then Success else PeerThrottling, hosts)
  }

  /** The counting join over all seeds. */
  function All(s: State): Join {
    Fresh(|s.seeds|, OnCount)
  }

  /** A seed moves on, reporting this code to the join if that is where it goes. */
  function Move(s: State, i: nat, to: Seed, ec: Code): State
    requires i < |s.seeds|
  {
    var fires := After(All(s), s.calls).Call(ec).1;
    s.(seeds := s.seeds[i := to],
       calls := if to.Reported? then s.calls + [ec] else s.calls,
       results := if to.Reported? && fires then s.results + [Completion(s.hosts)] else s.results)
  }

  /** The code with which an event that ends a seed is reported. */
  function Says(ev: Event): Code {
    match ev
    case ConnectDone(_, ec, _) => if ec != Success then ec else AddressBlocked
    case Started(_, ec) => ec
    case SeedDone(_, ec) => ec
    case _ => ChannelStopped
  }

  predicate At(s: State, i: nat, where_: Seed) {
    i < |s.seeds| && s.seeds[i] == where_
  }

  /** Which seed an event moves, and where to. */
  function Goes(s: State, ev: Event): Option<(nat, Seed)> {
    match ev
    case StartSeed =>
      if s.next < |s.seeds| then Some((s.next, if s.stopped then Reported else Connecting)) else None
    case ConnectDone(i, ec, blacklisted) =>
      if At(s, i, Connecting) then Some((i, if ec != Success || blacklisted then Reported else Registering)) else None
    case Started(i, ec) =>
      if At(s, i, Registering) then Some((i, if ec != Success then Reported else Seeding)) else None
    case SeedDone(i, _) => if At(s, i, Seeding) then Some((i, Reported)) else None
    case PoolChanges(_) => None
    case SessionStop => None
  }

  function Next(s: State, ev: Event): State {
    var go := Goes(s, ev);
    if go.Some? && go.value.0 < |s.seeds| then
      Move(s, go.value.0, go.value.1, Says(ev)).(next := if ev.StartSeed? then s.next + 1 else s.next)
    else
      s.(hosts := if ev.PoolChanges? then ev.hosts else s.hosts, stopped := s.stopped || ev.SessionStop?)
  }

  function Run(s: State, evs: seq<Event>): State
    decreases |evs|
  {
    if evs == [] then s else Run(Next(s, evs[0]), evs[1..])
  }

  function Reports(s: Seed): nat {
    Bit(s.Reported?)
  }

  ghost predicate Inv(s: State) {
    && |s.seeds| > 0 && |s.calls| == Sum(s.seeds, Reports)
    && |s.results| == |Fired(All(s), s.calls)|
    && s.next <= |s.seeds|
    && forall i :: 0 <= i < |s.seeds| ==> (s.seeds[i].Unstarted? <==> s.next <= i)
  }

  lemma {:induction false} ReportsBounded(seeds: seq<Seed>)
    ensures Sum(seeds, Reports) <= |seeds|
    ensures Sum(seeds, Reports) == |seeds| <==> forall i :: 0 <= i < |seeds| ==> seeds[i].Reported?
  {
    if seeds != [] {
      ReportsBounded(seeds[..|seeds| - 1]);
    }
  }

  lemma MoveCounts(s: State, i: nat, to: Seed, ec: Code)
    requires Inv(s) && i < |s.seeds| && !s.seeds[i].Reported?
    ensures var s' := Move(s, i, to, ec);
            && |s'.calls| == Sum(s'.seeds, Reports)
            && |s'.results| == |Fired(All(s'), s'.calls)|
            && (s'.results != s.results ==> s'.results == [Completion(s.hosts)])
  {
    SumUpdate(s.seeds, i, to, Reports);
    ReportsBounded(s.seeds[i := to]);
    CountJoin(|s.seeds|, s.calls);
    assert (s.calls + [ec])[..|s.calls|] == s.calls;
  }

  /** A step keeps the invariant; and the step that calls the start handler is the one
      after which every seed has reported, with success exactly when the pool then
      holds some host. */
  lemma NextInv(s: State, ev: Event)
    requires Inv(s)
    ensures Inv(Next(s, ev))
    ensures Next(s, ev).results == s.results || Next(s, ev).results == [Completion(s.hosts)]
  {
    var go := Goes(s, ev);
    if go.Some? && go.value.0 < |s.seeds| {
      MoveCounts(s, go.value.0, go.value.1, Says(ev));
    }
  }

  lemma {:induction false} RunInv(s: State, evs: seq<Event>)
    requires Inv(s)
    ensures Inv(Run(s, evs)) && |Run(s, evs).seeds| == |s.seeds|
    decreases |evs|
  {
    if evs != [] {
      NextInv(s, evs[0]);
      RunInv(Next(s, evs[0]), evs[1..]);
    }
  }

  predicate AllReported(s: State) {
    forall i :: 0 <= i < |s.seeds| ==> s.seeds[i].Reported?
  }

  /** The start handler has run, and then once, precisely when every seed has reported,
      whatever way it ended. */
  lemma SeedingJoin(n: nat, evs: seq<Event>)
    requires n > 0
    ensures var s := Run(Begin(n), evs);
            |s.seeds| == n && |s.results| <= 1 && (|s.results| == 1 <==> AllReported(s))
  {
    SumZero(Begin(n).seeds, Reports);
    RunInv(Begin(n), evs);
    ReportsBounded(Run(Begin(n), evs).seeds);
    CountJoin(n, Run(Begin(n), evs).calls);
  }

  lemma ResultsIff(s: State)
    requires Inv(s)
    ensures |s.results| == Bit(AllReported(s))
  {
    ReportsBounded(s.seeds);
    CountJoin(|s.seeds|, s.calls);
  }

  lemma ResultStep(s: State, ev: Event)
    requires Inv(s)
    ensures var s' := Next(s, ev);
            s'.results != s.results ==>
              && !AllReported(s) && AllReported(s')
              && |s'.results| == 1 && (s'.results[0].0 == Success <==> s.hosts > 0)
  {
    NextInv(s, ev);
    ResultsIff(s);
    ResultsIff(Next(s, ev));
    ResultFirst(s, ev);
  }

  lemma ResultFirst(s: State, ev: Event)
    requires Inv(s)
    ensures s.results != [] ==> Next(s, ev).results == s.results
  {
    CountJoin(|s.seeds|, s.calls);
    FiresAtMostOnce(All(s), s.calls);
  }

  /** The step that calls the start handler is the report of the last seed, and the call
      is with success exactly when the pool is not empty at that step. */
  lemma SeedingResult(n: nat, evs: seq<Event>, ev: Event)
    requires n > 0
    ensures var s := Run(Begin(n), evs);
            var s' := Next(s, ev);
            s'.results != s.results ==>
              && !AllReported(s) && AllReported(s')
              && |s'.results| == 1 && (s'.results[0].0 == Success <==> s.hosts > 0)
  {
    SumZero(Begin(n).seeds, Reports);
    RunInv(Begin(n), evs);
    ResultStep(Run(Begin(n), evs), ev);
  }

  /** `start_seeding`: the loop over the seeds. On a stopped session every seed reports
      inside the loop and the start handler has run when it ends. */
  method StartSeeding(n: nat, hosts: nat, stopped: bool) returns (s: State)
    requires n > 0
    ensures Inv(s) && |s.seeds| == n && s.next == n
    ensures forall i :: 0 <= i < n ==> s.seeds[i] == if stopped then Reported else Connecting
    ensures s.results == if stopped then [Completion(hosts)] else []
  {
    s := Begin(n).(hosts := hosts, stopped := stopped);
    SumZero(s.seeds, Reports);
    for i := 0 to n
      invariant Inv(s) && |s.seeds| == n && s.next == i && s.hosts == hosts && s.stopped == stopped
      invariant forall k :: 0 <= k < i ==> s.seeds[k] == if stopped then Reported else Connecting
      invariant s.results == [] || s.results == [Completion(hosts)]
    {
      NextInv(s, StartSeed);
      s := Next(s, StartSeed);
    }
    ReportsBounded(s.seeds);
    CountJoin(n, s.calls);
    if !stopped {
      assert !s.seeds[0].Reported?;
    }
  }
}
