/** One connection attempt: resolve, then a race between the connect and a timer. */
module Connector {
  import opened Codes
  import opened Synchronize

  datatype Phase = Idle | Resolving | Dispatched | Racing

  /** A cancelled timer may or may not still call back. */
  datatype Timer = Off | Armed | Cancelled

  /** `queued` is a handler call handed to the thread pool; `reports` are the calls of
      the handler that have been made. */
  datatype Attempt = Attempt(stopped: bool, phase: Phase, timer: Timer, connecting: bool, race: Join,
                             queued: Option<Code>, reports: seq<Code>)

  datatype Event =
    | Connect
    | Stop
    | Resolved(ec: Code)
    | Connected(ec: Code)
    | TimerFires(ec: Code)
    | RunQueued

  const INIT: Attempt := Attempt(false, Idle, Off, false, Fresh(1, OnError), None, [])

  function OnConnect(a: Attempt): Attempt {
    if a.phase != Idle then a
    else a.(phase := if a.stopped then Dispatched else Resolving,
            queued := if a.stopped then Some(ServiceStopped) else None)
  }

  function OnStop(a: Attempt): Attempt {
    a.(stopped := true, timer := if a.timer == Armed then Cancelled else a.timer)
  }

  function OnResolved(a: Attempt, ec: Code): Attempt {
    if a.phase != Resolving then a
    else
      var fails := a.stopped || ec != Success;
      a.(phase := if fails then Dispatched else Racing,
         queued := if a.stopped then Some(ServiceStopped) else if fails then Some(ResolveFailed) else None,
         timer := if fails then a.timer else Armed,
         connecting := !fails,
         race := if fails then a.race else Fresh(1, OnError))
  }

  /** One side of the race calls the join. */
  function Called(a: Attempt, ec: Code): Attempt {
    var (race, fires) := a.race.Call(ec);
    a.(race := race, reports := if fires then a.reports + [ec] else a.reports)
  }

  function OnConnected(a: Attempt, ec: Code): Attempt {
    if !a.connecting then a else Called(a.(connecting := false), ec)
  }

  function OnTimer(a: Attempt, ec: Code): Attempt {
    if a.timer == Off then a
    else Called(a.(timer := Off), if ec != Success then ec else ChannelTimeout)
  }

  function OnQueued(a: Attempt): Attempt {
    if a.queued == None then a else a.(queued := None, reports := a.reports + [a.queued.value])
  }

  function Next(a: Attempt, ev: Event): Attempt {
    match ev
    case Connect => OnConnect(a)
    case Stop => OnStop(a)
    case Resolved(ec) => OnResolved(a, ec)
    case Connected(ec) => OnConnected(a, ec)
    case TimerFires(ec) => OnTimer(a, ec)
    case RunQueued => OnQueued(a)
  }

  function Run(a: Attempt, evs: seq<Event>): Attempt
    decreases |evs|
  {
    if evs == [] then a else Run(Next(a, evs[0]), evs[1..])
  }

  ghost predicate Inv(a: Attempt) {
    && a.race.limit == 1 && (a.stopped ==> a.timer != Armed)
    && (a.phase != Racing ==> a.timer == Off && !a.connecting)
    && match a.phase
       case Idle => a.queued == None && a.reports == []
       case Resolving => a.queued == None && a.reports == []
       case Dispatched => |a.reports| + Bit(a.queued.Some?) == 1 &&
                          a.queued != Some(Success) && (a.reports != [] ==> a.reports[0] != Success)
       case Racing => && a.queued == None && |a.reports| == Bit(a.race.Cleared())
                      && (!a.connecting ==> a.race.Cleared())
                      && (a.connecting && a.reports != [] ==> a.reports[0] != Success)
  }

  /** Nothing is outstanding but perhaps a cancelled timer. */
  predicate Settled(a: Attempt) {
    a.phase != Idle && a.phase != Resolving && a.queued == None && !a.connecting
  }

  lemma NextInv(a: Attempt, ev: Event)
    requires Inv(a)
    ensures Inv(Next(a, ev))
    ensures a.reports != [] ==> Next(a, ev).reports == a.reports
  {
  }

  lemma {:induction false} RunInv(a: Attempt, evs: seq<Event>)
    requires Inv(a)
    ensures Inv(Run(a, evs))
    decreases |evs|
  {
    if evs != [] {
      NextInv(a, evs[0]);
      RunInv(Next(a, evs[0]), evs[1..]);
    }
  }

  /** Every path reports at most once, and exactly once when it is settled: stopped
      before or after the connect call, failed resolution, and either winner of the
      race. Success is reported only by a connect that finished. */
  lemma ReportsOnce(evs: seq<Event>)
    ensures var a := Run(INIT, evs);
            && |a.reports| <= 1 && (Settled(a) ==> |a.reports| == 1)
            && (a.reports == [Success] ==> a.phase == Racing && !a.connecting)
  {
    RunInv(INIT, evs);
  }

  lemma {:induction false} ReportIsFinal(a: Attempt, evs: seq<Event>)
    requires Inv(a) && a.reports != []
    ensures Run(a, evs).reports == a.reports
    decreases |evs|
  {
    if evs != [] {
      NextInv(a, evs[0]);
      ReportIsFinal(Next(a, evs[0]), evs[1..]);
    }
  }

  /** The connector as an object; every locked section is one method. */
  class Connector {
    var stopped: bool
    var phase: Phase
    var timer: Timer
    var connecting: bool
    var raced: bool
    var queued: Option<Code>
    var reports: seq<Code>

    ghost function Abs(): Attempt
      reads this
    {
      Attempt(stopped, phase, timer, connecting, Join(1, OnError, Bit(raced)), queued, reports)
    }

    constructor ()
      ensures Abs() == INIT
    {
      stopped, phase, timer, connecting, raced, queued, reports := false, Idle, Off, false, false, None, [];
    }

    method Stop()
      requires Inv(Abs())
      modifies this`stopped, this`timer
      ensures Inv(Abs()) && Abs() == OnStop(old(Abs()))
    {
      if !stopped {
        if timer == Armed {
          timer := Cancelled;
        }
        stopped := true;
      }
    }

    method Connect()
      requires Inv(Abs()) && phase == Idle
      modifies this`phase, this`queued
      ensures Inv(Abs()) && Abs() == OnConnect(old(Abs()))
    {
      if stopped {
        phase, queued := Dispatched, Some(ServiceStopped);
        return;
      }
      phase := Resolving;
    }

    method HandleResolve(ec: Code)
      requires Inv(Abs()) && phase == Resolving
      modifies this
      ensures Inv(Abs()) && Abs() == OnResolved(old(Abs()), ec)
    {
      if stopped {
        phase, queued := Dispatched, Some(ServiceStopped);
        return;
      }
      if ec != Success {
        phase, queued := Dispatched, Some(ResolveFailed);
        return;
      }
      phase, raced, timer, connecting := Racing, false, Armed, true;
    }

    method JoinHandler(ec: Code)
      modifies this`raced, this`reports
      ensures Abs() == Called(old(Abs()), ec)
    {
      if !raced {
        raced := true;
        reports := reports + [ec];
      }
    }

    method HandleConnect(ec: Code)
      requires Inv(Abs()) && connecting
      modifies this
      ensures Inv(Abs()) && Abs() == OnConnected(old(Abs()), ec)
    {
      connecting := false;
      JoinHandler(ec);
    }

    method HandleTimer(ec: Code)
      requires Inv(Abs()) && timer != Off
      modifies this
      ensures Inv(Abs()) && Abs() == OnTimer(old(Abs()), ec)
    {
      timer := Off;
      JoinHandler(if ec != Success then ec else ChannelTimeout);
    }
  }
}

/** A connect batch: its attempts, each failing at once or running a connector, all
    reporting to one first-success join. */
module BatchConnect {
  import opened Codes
  import opened Synchronize
  import opened Sums
  import C = Connector

  datatype Try =
    | Unstarted
    | Failed(ec: Code)
    | Connecting(attempt: C.Attempt)
  {
    /** What the attempt has reported to the join. */
    function Reports(): seq<Code> {
      match this
      case Unstarted => []
      case Failed(ec) => [ec]
      case Connecting(a) => a.reports
    }

    predicate Settled() {
      Failed? || (Connecting? && C.Settled(attempt))
    }
  }

  /** `calls` are the calls made of the join, in order. */
  datatype Batch = Batch(tries: seq<Try>, calls: seq<Code>)

  /** `Start` makes and pends a connector, which may be stopped before it is told to
      connect. */
  datatype Event =
    | Fail(index: nat, ec: Code)
    | Start(index: nat)
    | Step(index: nat, event: C.Event)

  function NextTry(t: Try, ev: Event): Try {
    match ev
    case Fail(_, ec) => if t.Unstarted? && ec != Success then Failed(ec) else t
    case Start(_) => if t.Unstarted? then Connecting(C.INIT) else t
    case Step(_, x) => if t.Connecting? then Connecting(C.Next(t.attempt, x)) else t
  }

  function Next(b: Batch, ev: Event): Batch {
    if ev.index >= |b.tries| then b
    else
      var t := b.tries[ev.index];
      var t' := NextTry(t, ev);
      Batch(b.tries[ev.index := t'],
            b.calls + if t.Reports() == [] then t'.Reports() else [])
  }

  function Run(b: Batch, evs: seq<Event>): Batch
    decreases |evs|
  {
    if evs == [] then b else Run(Next(b, evs[0]), evs[1..])
  }

  function Reported(t: Try): nat {
    |t.Reports()|
  }

  ghost predicate TryOk(t: Try) {
    match t
    case Unstarted => true
    case Failed(ec) => ec != Success
    case Connecting(a) => C.Inv(a)
  }

  ghost predicate TriesOk(b: Batch) {
    && (forall i :: 0 <= i < |b.tries| ==> TryOk(b.tries[i]) && |b.tries[i].Reports()| <= 1)
    && |b.calls| == Sum(b.tries, Reported)
  }

  /** The calls of the join are the reports of the attempts. */
  ghost predicate CallsOk(b: Batch) {
    && (forall i :: 0 <= i < |b.tries| && b.tries[i].Reports() != [] ==> b.tries[i].Reports()[0] in b.calls)
    && (forall x :: x in b.calls ==> exists i :: 0 <= i < |b.tries| && b.tries[i].Reports() == [x])
  }

  ghost predicate Inv(b: Batch) {
    TriesOk(b) && CallsOk(b)
  }

  lemma TryStep(t: Try, ev: Event)
    requires TryOk(t) && |t.Reports()| <= 1
    ensures TryOk(NextTry(t, ev)) && |NextTry(t, ev).Reports()| <= 1
    ensures t.Reports() != [] ==> NextTry(t, ev).Reports() == t.Reports()
  {
    if t.Connecting? && ev.Step? {
      C.NextInv(t.attempt, ev.event);
    }
  }

  /** An attempt that has not reported may report; nothing else changes. */
  lemma UpdateCalls(b: Batch, i: nat, t: Try)
    requires CallsOk(b) && i < |b.tries| && |t.Reports()| <= 1
    requires b.tries[i].Reports() != [] ==> t.Reports() == b.tries[i].Reports()
    ensures CallsOk(Batch(b.tries[i := t], b.calls + if b.tries[i].Reports() == [] then t.Reports() else []))
  {
    var new_ := if b.tries[i].Reports() == [] then t.Reports() else [];
    var tries := b.tries[i := t];
    forall x | x in b.calls + new_
      ensures exists j :: 0 <= j < |tries| && tries[j].Reports() == [x]
    {
      if x in b.calls {
        var j :| 0 <= j < |b.tries| && b.tries[j].Reports() == [x];
        assert tries[j].Reports() == [x];
      } else {
        assert tries[i].Reports() == [x];
      }
    }
  }

  lemma NextInv(b: Batch, ev: Event)
    requires Inv(b)
    ensures Inv(Next(b, ev))
  {
    var i := ev.index;
    if i < |b.tries| {
      TryStep(b.tries[i], ev);
      SumUpdate(b.tries, i, NextTry(b.tries[i], ev), Reported);
      UpdateCalls(b, i, NextTry(b.tries[i], ev));
    }
  }

  lemma {:induction false} RunInv(b: Batch, evs: seq<Event>)
    requires Inv(b)
    ensures Inv(Run(b, evs))
    ensures |Run(b, evs).tries| == |b.tries|
    decreases |evs|
  {
    if evs != [] {
      NextInv(b, evs[0]);
      RunInv(Next(b, evs[0]), evs[1..]);
    }
  }

  function NewBatch(n: nat): Batch {
    Batch(seq(n, _ => Unstarted), [])
  }

  lemma {:induction false} CountAll(tries: seq<Try>)
    requires forall i :: 0 <= i < |tries| ==> |tries[i].Reports()| == 1
    ensures Sum(tries, Reported) == |tries|
  {
    if tries != [] {
      CountAll(tries[..|tries| - 1]);
    }
  }

  /** In every run a batch hands on at most one result; once all its attempts are
      settled it has handed on exactly one, and that is a channel exactly when some
      attempt connected. */
  lemma BatchResult(n: nat, evs: seq<Event>)
    requires n > 0
    ensures var b := Run(NewBatch(n), evs);
            var results := Fired(Fresh(n, OnSuccess), b.calls);
            && |results| <= 1
            && |b.tries| == n
            && ((forall i :: 0 <= i < |b.tries| ==> b.tries[i].Settled()) ==>
                  |results| == 1 &&
                  (results == [Success] <==> exists i :: 0 <= i < |b.tries| && b.tries[i].Reports() == [Success]))
  {
    var b0 := NewBatch(n);
    SumZero(b0.tries, Reported);
    RunInv(b0, evs);
    var b := Run(b0, evs);
    FiresAtMostOnce(Fresh(n, OnSuccess), b.calls);
    if forall i :: 0 <= i < |b.tries| ==> b.tries[i].Settled() {
      AllSettled(b);
    }
  }

  lemma AllSettled(b: Batch)
    requires Inv(b) && b.tries != [] && forall i :: 0 <= i < |b.tries| ==> b.tries[i].Settled()
    ensures var results := Fired(Fresh(|b.tries|, OnSuccess), b.calls);
            && |results| == 1
            && (results == [Success] <==> exists i :: 0 <= i < |b.tries| && b.tries[i].Reports() == [Success])
  {
    forall i | 0 <= i < |b.tries|
      ensures |b.tries[i].Reports()| == 1
    {
      assert b.tries[i].Settled() && TryOk(b.tries[i]);
    }
    CountAll(b.tries);
    FirstSuccessJoin(|b.tries|, b.calls);
  }
}
