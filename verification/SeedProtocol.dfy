/** The seed protocol: three events joined, over the same event slot as the handshake
    and at the same grain. */
module SeedProtocol {
  import opened Codes
  import opened Sums
  import E = Events

  /** `capacity` is that of the host pool, `advertises` whether we have an address of
      our own to send. */
  datatype Config = Config(capacity: nat, advertises: bool)

  datatype Callback = Off | Waiting | Entered(ec: Code) | Raised(code: Code) | Returned {
    predicate Resting() {
      !Entered?
    }

    predicate RaisedError() {
      Raised? && code != Success
    }
  }

  datatype Who = OwnAddress | GetAddress | Receipt | Stored | Timer | StopNotice

  /** `own` and `get` await the completion of the two sends, `receipt` an address
      message, `stored` the result of storing it. With no pool the protocol completes
      at once, which `refused` records. `stops` are the codes with which the protocol
      has stopped its channel. */
  datatype Seeding = Seeding(
    stopped: bool, refused: bool, slot: E.Slot,
    own: Callback, get: Callback, receipt: Callback, stored: Callback, timer: Callback, stop: Callback,
    stops: seq<Code>)
  {
    /** The calls of the caller's handler. */
    function Completions(): seq<Code> {
      if refused then [NotFound] else slot.fired
    }

    predicate Quiet() {
      && slot.Quiet() && |stops| >= |Completions()|
      && own.Resting() && get.Resting() && receipt.Resting() && stored.Resting()
      && timer.Resting() && stop.Resting()
    }

    predicate RaisedError() {
      get.RaisedError() || stored.RaisedError() || timer.RaisedError() || stop.RaisedError()
    }
  }

  datatype Event =
    | Start
    | Sent(who: Who, ec: Code)
    | ReceiveAddress
    | StoreDone(ec: Code)
    | Expire
    | StopChannel(ec: Code)
    | Advance(who: Who)
    | AdvanceRaise(index: nat)
    | CompletionStops

  const INIT: Seeding := Seeding(false, false, E.Closed(3), Off, Off, Off, Off, Off, Off, [])

  function Subscribe(stopped: bool): Callback {
    if stopped then Entered(ChannelStopped) else Waiting
  }

  /** With no address of our own to send, that event is due at once. */
  function OnStart(c: Config, s: Seeding): Seeding {
    if s.slot.open || s.refused then s
    else if c.capacity == 0 then s.(refused := true)
    else
      s.(slot := E.Open(3, !s.stopped),
         own := if c.advertises then Waiting else Entered(Success),
         get := Waiting,
         receipt := Subscribe(s.stopped),
         stop := Subscribe(s.stopped))
  }

  function Notified(h: Callback, when: bool, ec: Code): Callback {
    if when && h.Waiting? then Entered(ec) else h
  }

  /** The outside world reaches a waiting callback. */
  function OnArrival(s: Seeding, ev: Event): Seeding {
    var stops := ev.StopChannel? && ev.ec != Success;
    var expires := ev.Expire? && s.slot.armed;
    s.(stopped := s.stopped || stops,
       slot := s.slot.(armed := s.slot.armed && !expires),
       own := Notified(s.own, ev.Sent? && ev.who == OwnAddress, if ev.Sent? then ev.ec else Success),
       get := Notified(s.get, ev.Sent? && ev.who == GetAddress, if ev.Sent? then ev.ec else Success),
       receipt := if ev.ReceiveAddress? && s.receipt.Waiting? && !s.stopped then Entered(Success)
                  else Notified(s.receipt, stops, ChannelStopped),
       stored := Notified(s.stored, ev.StoreDone?, if ev.StoreDone? then ev.ec else Success),
       timer := if expires then Entered(Success) else s.timer,
       stop := Notified(s.stop, stops, if stops then ev.ec else Success))
  }

  /** The body of a callback: where it ends. A failed send of our own address counts as
      sent. */
  function Body(s: E.Slot, who: Who, ec: Code): Callback {
    match who
    case OwnAddress => if s.Stopped(ec) then Returned else Raised(Success)
    case GetAddress => if s.Stopped(ec) then Returned else Raised(ec)
    case Receipt => Returned
    case Stored => if s.Stopped(ec) then Returned else Raised(if ec != Success then ec else ChannelStopped)
    case Timer => if s.handler then Raised(ChannelTimeout) else Returned
    case StopNotice => Raised(ChannelStopped)
  }

  function At(s: Seeding, who: Who): Callback {
    match who
    case OwnAddress => s.own
    case GetAddress => s.get
    case Receipt => s.receipt
    case Stored => s.stored
    case Timer => s.timer
    case StopNotice => s.stop
  }

  function OnAdvance(s: Seeding, who: Who): Seeding {
    var h := At(s, who);
    if !h.Entered? then s
    else
      var next := Body(s.slot, who, h.ec);
      s.(slot := if next.Raised? then E.Begin(s.slot, next.code) else s.slot,
         own := if who == OwnAddress then next else s.own,
         get := if who == GetAddress then next else s.get,
         receipt := if who == Receipt then next else s.receipt,
         stored := if who == Stored then next
                   else if who == Receipt && !s.slot.Stopped(h.ec) then Waiting else s.stored,
         timer := if who == Timer then next else s.timer,
         stop := if who == StopNotice then next else s.stop)
  }

  function OnAdvanceRaise(s: Seeding, i: nat): Seeding {
    if i >= |s.slot.raises| then s else s.(slot := E.Step(s.slot, i))
  }

  /** The rest of `handle_seeding_complete`: with the caller's handler called, the channel
      is stopped with the same code. */
  function OnCompletionStops(s: Seeding): Seeding {
    if |s.stops| >= |s.Completions()| then s
    else
      var ec := s.Completions()[|s.stops|];
      OnArrival(s.(stops := s.stops + [ec]), StopChannel(ec))
  }

  function Next(c: Config, s: Seeding, ev: Event): Seeding {
    match ev
    case CompletionStops => OnCompletionStops(s)
    case Start => OnStart(c, s)
    case Advance(who) => OnAdvance(s, who)
    case AdvanceRaise(i) => OnAdvanceRaise(s, i)
    case _ => OnArrival(s, ev)
  }

  function Run(c: Config, s: Seeding, evs: seq<Event>): Seeding
    decreases |evs|
  {
    if evs == [] then s else Run(c, Next(c, s, evs[0]), evs[1..])
  }

  ghost predicate Shape(s: Seeding) {
    && (!s.slot.open ==> s == INIT.(stopped := s.stopped, refused := s.refused, stops := s.stops))
    && (s.refused ==> !s.slot.open)
    && (s.slot.armed ==> s.timer.Off?)
    && (s.own.Raised? ==> s.own.code == Success)
    && !s.receipt.Raised? && (s.receipt.Waiting? || s.receipt.Entered? ==> s.stored.Off?)
    && (s.stored.Raised? ==> s.stored.code != Success)
    && (s.timer.Raised? ==> s.timer.code != Success)
    && (s.stop.Raised? ==> s.stop.code != Success)
  }

  function Oks(s: Seeding): nat {
    Bit(s.own.Raised?) + Bit(s.get == Raised(Success))
  }

  ghost predicate Raises(s: Seeding) {
    && E.Inv(s.slot) && s.slot.join.limit == 3
    && Sum(s.slot.raises, E.Succeeds) == Oks(s)
    && (s.RaisedError() <==> exists i :: 0 <= i < |s.slot.raises| && s.slot.raises[i].ec != Success)
  }

  /** The channel was stopped with the code of the one completion, if at all. */
  predicate Stops(s: Seeding) {
    |s.stops| <= |s.Completions()| <= 1 && (|s.stops| == 1 ==> s.stops[0] == s.Completions()[0])
  }

  ghost predicate Inv(s: Seeding) {
    Shape(s) && Raises(s) && Stops(s)
  }

  lemma ArrivalInv(s: Seeding, ev: Event)
    requires Inv(s)
    ensures Inv(OnArrival(s, ev))
  {
    assert E.Tallied(OnArrival(s, ev).slot) && E.NothingLost(OnArrival(s, ev).slot);
  }

  /** The slot's part of the invariant is kept when the slot follows the callbacks. */
  lemma RaisesKept(s: Seeding, s': Seeding, next: Callback)
    requires Raises(s) && (next.Raised? ==> s.slot.open)
    requires s'.slot == if next.Raised? then E.Begin(s.slot, next.code) else s.slot
    requires Oks(s') == Oks(s) + Bit(next == Raised(Success))
    requires s'.RaisedError() == (s.RaisedError() || next.RaisedError())
    ensures Raises(s')
  {
    if next.Raised? {
      E.BeginInv(s.slot, next.code);
      assert s'.slot.raises[|s.slot.raises|].ec == next.code;
      if i :| 0 <= i < |s.slot.raises| && s.slot.raises[i].ec != Success {
        assert s'.slot.raises[i].ec != Success;
      }
    }
  }

  lemma StartInv(c: Config, s: Seeding)
    requires Inv(s)
    ensures Inv(OnStart(c, s))
  {
  }

  lemma AdvanceShape(s: Seeding, who: Who)
    requires Shape(s)
    ensures Shape(OnAdvance(s, who))
  {
  }

  lemma AdvanceErrors(s: Seeding, who: Who)
    requires Shape(s) && At(s, who).Entered?
    ensures var s' := OnAdvance(s, who);
            var next := Body(s.slot, who, At(s, who).ec);
            && Oks(s') == Oks(s) + Bit(next == Raised(Success))
            && s'.RaisedError() == (s.RaisedError() || next.RaisedError())
  {
  }

  lemma AdvanceInv(s: Seeding, who: Who)
    requires Inv(s)
    ensures Inv(OnAdvance(s, who))
  {
    AdvanceShape(s, who);
    if At(s, who).Entered? {
      AdvanceErrors(s, who);
      RaisesKept(s, OnAdvance(s, who), Body(s.slot, who, At(s, who).ec));
    }
  }

  lemma RaiseInv(s: Seeding, i: nat)
    requires Inv(s)
    ensures Inv(OnAdvanceRaise(s, i))
  {
    if i < |s.slot.raises| {
      E.StepInv(s.slot, i);
      E.StepFrame(s.slot, i);
      E.StepStable(s.slot, i);
      E.SuccessNeedsAll(E.Step(s.slot, i));
    }
  }

  lemma CompletionStopsInv(s: Seeding)
    requires Inv(s)
    ensures Inv(OnCompletionStops(s))
  {
    if |s.stops| < |s.Completions()| {
      ArrivalInv(s.(stops := s.stops + [s.Completions()[0]]), StopChannel(s.Completions()[0]));
    }
  }

  lemma CompletionStopsIs(s: Seeding)
    requires Inv(s) && |s.stops| < |s.Completions()|
    ensures s.stops == [] && |s.Completions()| == 1 && s.Completions()[0] != Success
    ensures OnCompletionStops(s) == OnArrival(s.(stops := [s.Completions()[0]]), StopChannel(s.Completions()[0]))
  {
    E.SuccessNeedsAll(s.slot);
  }

  lemma NextInv(c: Config, s: Seeding, ev: Event)
    requires Inv(s)
    ensures Inv(Next(c, s, ev))
  {
    match ev
    case CompletionStops => CompletionStopsInv(s);
    case Start => StartInv(c, s);
    case Advance(who) => AdvanceInv(s, who);
    case AdvanceRaise(i) => RaiseInv(s, i);
    case _ => ArrivalInv(s, ev);
  }

  lemma {:induction false} RunInv(c: Config, s: Seeding, evs: seq<Event>)
    requires Inv(s)
    ensures Inv(Run(c, s, evs))
    decreases |evs|
  {
    if evs != [] {
      NextInv(c, s, evs[0]);
      RunInv(c, Next(c, s, evs[0]), evs[1..]);
    }
  }

  /** At most two of the three joined events can be successes, so the protocol completes
      at most once and always with an error code; and it stops its channel at most once,
      with the code of its completion, so never with success. */
  lemma CompletesWithError(c: Config, evs: seq<Event>)
    ensures var s := Run(c, INIT, evs);
            && Sum(s.slot.raises, E.Succeeds) <= 2
            && |s.Completions()| <= 1
            && Success !in s.Completions()
            && s.stops <= s.Completions() && Success !in s.stops
  {
    RunInv(c, INIT, evs);
    E.SuccessNeedsAll(Run(c, INIT, evs).slot);
  }

  /** At rest, it has completed, and stopped its channel, exactly when some event carried an
      error: both sends succeeding is never enough. */
  lemma QuietCompletes(c: Config, evs: seq<Event>)
    ensures var s := Run(c, INIT, evs);
            s.Quiet() ==> s.stops == s.Completions() && (|s.stops| == 1 <==> s.refused || s.RaisedError())
  {
    RunInv(c, INIT, evs);
    var s := Run(c, INIT, evs);
    if s.Quiet() {
      E.QuietCompletes(s.slot);
    }
  }

  lemma RunKeeps(c: Config, s: Seeding, evs: seq<Event>)
    ensures Inv(s) ==> Inv(Run(c, s, evs))
  {
    if Inv(s) {
      RunInv(c, s, evs);
    }
  }

  lemma NextKeeps(c: Config, s: Seeding, ev: Event)
    ensures Inv(s) ==> Inv(Next(c, s, ev))
  {
    if Inv(s) {
      NextInv(c, s, ev);
    }
  }

  lemma {:induction false} RunConcat(c: Config, s: Seeding, a: seq<Event>, b: seq<Event>)
    ensures Run(c, s, a + b) == Run(c, Run(c, s, a), b)
    decreases |a|
  {
    if a == [] {
      assert a + b == b;
    } else {
      assert (a + b)[1..] == a[1..] + b;
      RunConcat(c, Next(c, s, a[0]), a[1..], b);
    }
  }

  function Raising(i: nat, n: nat): seq<Event> {
    if n == 0 then [] else [AdvanceRaise(i)] + Raising(i, n - 1)
  }

  /** A callback run alone: its body, and the five accesses of its `set_event` call, the
      i-th, if it makes one. */
  function Turn(who: Who, i: nat): seq<Event> {
    [Advance(who)] + Raising(i, 5)
  }

  lemma {:induction false} RaisesRun(c: Config, s: Seeding, i: nat, n: nat)
    ensures Run(c, s, Raising(i, n)) ==
            if i < |s.slot.raises| then s.(slot := E.Steps(s.slot, i, n)) else s
    decreases n
  {
    if n > 0 {
      assert Raising(i, n)[1..] == Raising(i, n - 1);
      RaisesRun(c, OnAdvanceRaise(s, i), i, n - 1);
    }
  }

  /** The slot after the body, its event raised and delivered. */
  function Settled(slot: E.Slot, next: Callback): E.Slot {
    if next.Raised? then E.SetEvent(slot, next.code) else slot
  }

  /** Where a callback that has been entered ends. */
  function Done(s: Seeding, who: Who, ec: Code): Seeding {
    OnAdvance(s, who).(slot := Settled(s.slot, Body(s.slot, who, ec)))
  }

  /** Nothing else is awaited or given up by that. */
  lemma DoneFrame(s: Seeding, who: Who, ec: Code)
    requires At(s, who) == Entered(ec) && who != Receipt
    ensures var s' := Done(s, who, ec);
            && s'.slot == Settled(s.slot, Body(s.slot, who, ec))
            && s'.stopped == s.stopped && s'.refused == s.refused && s'.stops == s.stops
            && s'.own.Waiting? == s.own.Waiting? && s'.get.Waiting? == s.get.Waiting?
            && s'.receipt.Waiting? == s.receipt.Waiting? && s'.stored.Waiting? == s.stored.Waiting?
            && s'.stop.Waiting? == s.stop.Waiting?
  {
  }

  lemma ReceiptFrame(s: Seeding, ec: Code)
    requires s.receipt == Entered(ec)
    ensures var s' := Done(s, Receipt, ec);
            && s'.slot == s.slot
            && s'.stopped == s.stopped && s'.refused == s.refused && s'.stops == s.stops
            && s'.own == s.own && s'.get == s.get && s'.receipt == Returned && s'.stop == s.stop
            && s'.stored == if s.slot.Stopped(ec) then s.stored else Waiting
  {
  }

  lemma TurnSettles(c: Config, s: Seeding, who: Who, ec: Code)
    requires At(s, who) == Entered(ec)
    ensures Run(c, s, Turn(who, |s.slot.raises|)) == Done(s, who, ec)
  {
    var i := |s.slot.raises|;
    var y := OnAdvance(s, who);
    assert Turn(who, i)[1..] == Raising(i, 5);
    assert Run(c, s, Turn(who, i)) == Run(c, y, Raising(i, 5));
    RaisesRun(c, y, i, 5);
    if Body(s.slot, who, ec).Raised? {
      E.SetEventAlone(s.slot, Body(s.slot, who, ec).code);
    }
  }

  /** `start`, with the callbacks it makes itself: on a stopped channel the stop and
      address subscriptions call back at once, and with no address of our own to send
      its event is raised at once. */
  function Starting(c: Config, stopped: bool): seq<Event> {
    var refusals := if stopped then Turn(StopNotice, 0) + Turn(Receipt, 1) else [];
    var own := if c.advertises then [] else Turn(OwnAddress, Bit(stopped));
    if c.capacity == 0 then [Start] else [Start] + (refusals + own)
  }

  function Refused(c: Config, s: Seeding): Seeding {
    if s.stopped then Run(c, Run(c, s, Turn(StopNotice, 0)), Turn(Receipt, 1)) else s
  }

  /** The stop notice raises the one event; the address handler returns. */
  lemma RefusedEnds(c: Config, s: Seeding)
    requires s.stopped && s.slot.raises == []
    requires s.stop == Entered(ChannelStopped) && s.receipt == Entered(ChannelStopped)
    ensures var s1 := Run(c, s, Turn(StopNotice, 0));
            && s1.receipt == s.receipt && |s1.slot.raises| == 1
            && Refused(c, s).own == s.own && |Refused(c, s).slot.raises| == 1
  {
    TurnSettles(c, s, StopNotice, ChannelStopped);
    var s1 := Run(c, s, Turn(StopNotice, 0));
    TurnSettles(c, s1, Receipt, ChannelStopped);
  }

  lemma StartRuns(c: Config, s: Seeding)
    requires c.capacity != 0
    ensures var refused := Refused(c, OnStart(c, s));
            Run(c, s, Starting(c, s.stopped)) ==
            if c.advertises then refused else Run(c, refused, Turn(OwnAddress, Bit(s.stopped)))
  {
    var s0 := OnStart(c, s);
    var refusals := if s.stopped then Turn(StopNotice, 0) + Turn(Receipt, 1) else [];
    var own := if c.advertises then [] else Turn(OwnAddress, Bit(s.stopped));
    assert Starting(c, s.stopped)[1..] == refusals + own;
    assert Run(c, s, Starting(c, s.stopped)) == Run(c, s0, refusals + own);
    RunConcat(c, s0, refusals, own);
    if s.stopped {
      RunConcat(c, s0, Turn(StopNotice, 0), Turn(Receipt, 1));
    }
  }

  /** The protocol as the object the source has. What reaches it and each callback run
      to its end by one thread are methods, and every method is a run of the machine
      above from the state before it. */
  class SeedProtocol {
    const config: Config
    const base: E.EventSlot
    var stopped: bool
    var refused: bool
    var stops: seq<Code>
    var waiting: set<Who>
    ghost var model: Seeding

    /** `waiting` are the sends, subscriptions and stores whose callback is still to come. */
    ghost predicate Valid()
      reads this, base
    {
      && base.Valid() && base.limit == 3 && base.slot == model.slot
      && stopped == model.stopped && refused == model.refused && stops == model.stops
      && (OwnAddress in waiting <==> model.own.Waiting?)
      && (GetAddress in waiting <==> model.get.Waiting?)
      && (Receipt in waiting <==> model.receipt.Waiting?)
      && (Stored in waiting <==> model.stored.Waiting?)
      && (StopNotice in waiting <==> model.stop.Waiting?)
    }

    constructor (config: Config)
      ensures Valid() && fresh(base) && model == INIT && this.config == config
    {
      this.config := config;
      base := new E.EventSlot(3);
      stopped, refused, stops, waiting := false, false, [], {};
      model := INIT;
    }

    /** At any time the completions number at most one, and none is with success. */
    lemma CompletesWithErrorOnce()
      requires Valid() && Inv(model)
      ensures |base.completions| <= 1 && Success !in base.completions
    {
      E.SuccessNeedsAll(model.slot);
    }

    // What reaches the protocol.

    /** A send completes, or the pool has stored the addresses. */
    method Complete(who: Who, ec: Code)
      requires Valid() && who in {OwnAddress, GetAddress, Stored} && who in waiting
      modifies this`waiting, this`model
      ensures Valid() && At(model, who) == Entered(ec)
      ensures model == Next(config, old(model), if who == Stored then StoreDone(ec) else Sent(who, ec))
      ensures Inv(old(model)) ==> Inv(model)
    {
      NextKeeps(config, model, if who == Stored then StoreDone(ec) else Sent(who, ec));
      waiting := waiting - {who};
      model := OnArrival(model, if who == Stored then StoreDone(ec) else Sent(who, ec));
    }

    method Receive() returns (calls: bool)
      requires Valid()
      modifies this`waiting, this`model
      ensures Valid() && model == Next(config, old(model), ReceiveAddress)
      ensures calls <==> !stopped && Receipt in old(waiting)
      ensures Inv(old(model)) ==> Inv(model)
    {
      NextKeeps(config, model, ReceiveAddress);
      calls := !stopped && Receipt in waiting;
      if calls {
        waiting := waiting - {Receipt};
      }
      model := OnArrival(model, ReceiveAddress);
    }

    /** The channel stops: the handlers still subscribed are due a call. */
    method StopChannel(ec: Code)
      requires Valid() && ec != Success
      modifies this`stopped, this`waiting, this`model
      ensures Valid() && model == Next(config, old(model), Event.StopChannel(ec))
      ensures Inv(old(model)) ==> Inv(model)
    {
      NextKeeps(config, model, Event.StopChannel(ec));
      stopped := true;
      waiting := waiting - {Receipt, StopNotice};
      model := OnArrival(model, Event.StopChannel(ec));
    }

    /** The caller's handler has been called, and the channel is stopped with its code,
        which is an error as the channel demands. */
    method StopAfterCompletion()
      requires Valid() && Inv(model) && |stops| < |model.Completions()|
      modifies this`stopped, this`stops, this`waiting, this`model
      ensures Valid() && Inv(model) && model == Next(config, old(model), CompletionStops)
      ensures stopped && stops == old(model).Completions()
    {
      NextInv(config, model, CompletionStops);
      CompletionStopsIs(model);
      var ec := if refused then NotFound else base.completions[|stops|];
      stops := stops + [ec];
      model := model.(stops := stops);
      StopChannel(ec);
    }

    method Expire()
      requires Valid() && base.armed
      modifies this`model, base
      ensures Valid() && model == Next(config, old(model), Event.Expire)
      ensures Inv(old(model)) ==> Inv(model)
    {
      ghost var after := OnArrival(model, Event.Expire);
      NextKeeps(config, model, Event.Expire);
      base.Expire();
      model := after;
    }

    // The callbacks.

    /** A callback ends: it raises an event, or returns without. */
    method Finish(who: Who, ec: Code, event: Option<Code>)
      requires Valid() && At(model, who) == Entered(ec) && who != Receipt
      requires Body(model.slot, who, ec) == if event.Some? then Raised(event.value) else Returned
      modifies this`model, base
      ensures Valid() && model == Done(old(model), who, ec)
    {
      ghost var after := Done(model, who, ec);
      DoneFrame(model, who, ec);
      if event.Some? {
        base.RaiseEvent(event.value);
      }
      model := after;
    }

    method HandleSendAddress(ec: Code)
      requires Valid() && model.own == Entered(ec)
      modifies this`model, base
      ensures Valid() && model == Run(config, old(model), Turn(OwnAddress, |old(model).slot.raises|))
      ensures Inv(old(model)) ==> Inv(model)
    {
      TurnSettles(config, model, OwnAddress, ec);
      RunKeeps(config, model, Turn(OwnAddress, |model.slot.raises|));
      var done := base.IsStopped(ec);
      Finish(OwnAddress, ec, if done then None else Some(Success));
    }

    method HandleSendGetAddress(ec: Code)
      requires Valid() && model.get == Entered(ec)
      modifies this`model, base
      ensures Valid() && model == Run(config, old(model), Turn(GetAddress, |old(model).slot.raises|))
      ensures Inv(old(model)) ==> Inv(model)
    {
      TurnSettles(config, model, GetAddress, ec);
      RunKeeps(config, model, Turn(GetAddress, |model.slot.raises|));
      var done := base.IsStopped(ec);
      if done {
        Finish(GetAddress, ec, None);
      } else if ec != Success {
        Finish(GetAddress, ec, Some(ec));
      } else {
        Finish(GetAddress, ec, Some(Success));
      }
    }

    /** The addresses are handed to the pool, which calls back with the result. */
    method HandleReceiveAddress(ec: Code) returns (stores: bool)
      requires Valid() && model.receipt == Entered(ec)
      modifies this`model, this`waiting
      ensures Valid() && model == Run(config, old(model), Turn(Receipt, |old(model).slot.raises|))
      ensures stores == !old(model).slot.Stopped(ec)
      ensures Inv(old(model)) ==> Inv(model)
    {
      TurnSettles(config, model, Receipt, ec);
      RunKeeps(config, model, Turn(Receipt, |model.slot.raises|));
      ReceiptFrame(model, ec);
      var done := base.IsStopped(ec);
      stores := !done;
      if stores {
        waiting := waiting + {Stored};
      }
      model := Done(model, Receipt, ec);
    }

    method HandleStoreAddresses(ec: Code)
      requires Valid() && model.stored == Entered(ec)
      modifies this`model, base
      ensures Valid() && model == Run(config, old(model), Turn(Stored, |old(model).slot.raises|))
      ensures Inv(old(model)) ==> Inv(model)
    {
      TurnSettles(config, model, Stored, ec);
      RunKeeps(config, model, Turn(Stored, |model.slot.raises|));
      var done := base.IsStopped(ec);
      if done {
        Finish(Stored, ec, None);
      } else if ec != Success {
        Finish(Stored, ec, Some(ec));
      } else {
        Finish(Stored, ec, Some(ChannelStopped));
      }
    }

    method HandleTimer()
      requires Valid() && model.timer == Entered(Success)
      modifies this`model, base
      ensures Valid() && model == Run(config, old(model), Turn(Timer, |old(model).slot.raises|))
      ensures Inv(old(model)) ==> Inv(model)
    {
      TurnSettles(config, model, Timer, Success);
      RunKeeps(config, model, Turn(Timer, |model.slot.raises|));
      Finish(Timer, Success, if base.handler then Some(ChannelTimeout) else None);
    }

    method HandleStopped(ec: Code)
      requires Valid() && model.stop == Entered(ec)
      modifies this`model, base
      ensures Valid() && model == Run(config, old(model), Turn(StopNotice, |old(model).slot.raises|))
      ensures Inv(old(model)) ==> Inv(model)
    {
      TurnSettles(config, model, StopNotice, ec);
      RunKeeps(config, model, Turn(StopNotice, |model.slot.raises|));
      Finish(StopNotice, ec, Some(ChannelStopped));
    }

    /** The slot, the subscriptions and the sends. */
    method Open()
      requires Valid() && model == INIT.(stopped := stopped) && config.capacity != 0
      modifies this, base
      ensures Valid() && model == OnStart(config, old(model))
    {
      base.Start(!stopped);
      waiting := {GetAddress} + (if stopped then {} else {Receipt, StopNotice}) +
                 if config.advertises then {OwnAddress} else {};
      model := OnStart(config, model);
    }

    /** The two subscriptions of a start on a stopped channel. */
    method Refuse()
      requires Valid() && stopped && model.slot.raises == []
      requires model.stop == Entered(ChannelStopped) && model.receipt == Entered(ChannelStopped)
      modifies this`model, this`waiting, base
      ensures Valid() && model == Refused(config, old(model)) && model.own == old(model).own
      ensures |model.slot.raises| == 1
    {
      RefusedEnds(config, model);
      HandleStopped(ChannelStopped);
      var stores := HandleReceiveAddress(ChannelStopped);
    }

    method Start()
      requires Valid() && model == INIT.(stopped := stopped)
      modifies this, base
      ensures Valid() && model == Run(config, old(model), Starting(config, old(stopped)))
      ensures Inv(old(model)) ==> Inv(model)
    {
      RunKeeps(config, model, Starting(config, model.stopped));
      if config.capacity == 0 {
        assert Run(config, OnStart(config, model), []) == OnStart(config, model);
        refused := true;
        model := OnStart(config, model);
        return;
      }
      StartRuns(config, model);
      Open();
      if stopped {
        Refuse();
      }
      if !config.advertises {
        HandleSendAddress(Success);
      }
    }
  }
}
