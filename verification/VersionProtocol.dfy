/** The handshake protocol as the object the source has. What reaches it (a message, a
    stop, its timer) and each callback run to its end by one thread are methods, and
    every method is a run of the machine of `Handshake` from the state before it. So
    the object keeps the invariant proved there, whatever order its methods come in. */
module VersionProtocol {
  import opened Codes
  import opened Handshake
  import E = Events

  function Again(ev: Event, n: nat): seq<Event> {
    if n == 0 then [] else [ev] + Again(ev, n - 1)
  }

  /** A callback run alone: `steps` points of its body, and the five accesses of its
      `set_event` call, the i-th, if it makes one. */
  function Turn(who: Who, steps: nat, i: nat): seq<Event> {
    Again(Advance(who), steps) + Again(AdvanceRaise(i), 5)
  }

  /** The slot after a callback that ended at `h`, its event raised and delivered. */
  function Settled(s: E.Slot, h: Callback): E.Slot {
    if h.Raised? then E.SetEvent(s, h.code) else s
  }

  lemma RunFirst(c: Config, e: Endpoint, ev: Event, n: nat)
    requires n > 0
    ensures Run(c, e, Again(ev, n)) == Run(c, Next(c, e, ev), Again(ev, n - 1))
  {
    assert Again(ev, n)[1..] == Again(ev, n - 1);
  }

  lemma {:induction false} RaisesRun(c: Config, e: Endpoint, i: nat, n: nat)
    ensures Run(c, e, Again(AdvanceRaise(i), n)) ==
            if i < |e.slot.raises| then e.(slot := E.Steps(e.slot, i, n)) else e
    decreases n
  {
    if n > 0 {
      RunFirst(c, e, AdvanceRaise(i), n);
      RaisesRun(c, StepRaise(e, i), i, n - 1);
    }
  }

  /** From the end of the body to the end of the event. */
  lemma Settles(c: Config, e: Endpoint, s: E.Slot, h: Callback)
    requires e.slot == Entering(s, h)
    ensures Run(c, e, Again(AdvanceRaise(|s.raises|), 5)) == e.(slot := Settled(s, h))
  {
    RaisesRun(c, e, |s.raises|, 5);
    if h.Raised? {
      E.SetEventAlone(s, h.code);
    }
  }

  /** The end of a callback whose body is one step to `h`. */
  function Done(c: Config, e: Endpoint, who: Who, h: Callback): Endpoint {
    Next(c, e, Advance(who)).(slot := Settled(e.slot, h))
  }

  lemma TurnOnce(c: Config, e: Endpoint, who: Who, h: Callback)
    requires Next(c, e, Advance(who)).slot == Entering(e.slot, h)
    ensures Run(c, e, Turn(who, 1, |e.slot.raises|)) == Done(c, e, who, h)
  {
    var y := Next(c, e, Advance(who));
    RunFirst(c, e, Advance(who), 1);
    assert Run(c, y, []) == y;
    RunConcat(c, e, Again(Advance(who), 1), Again(AdvanceRaise(|e.slot.raises|), 5));
    Settles(c, y, e.slot, h);
  }

  lemma FourSteps(c: Config, e: Endpoint)
    ensures Run(c, e, Again(Advance(AtVersion), 4)) ==
            StepVersion(c, StepVersion(c, StepVersion(c, StepVersion(c, e))))
  {
    var e1 := StepVersion(c, e);
    var e2 := StepVersion(c, e1);
    var e3 := StepVersion(c, e2);
    RunFirst(c, e, Advance(AtVersion), 4);
    RunFirst(c, e1, Advance(AtVersion), 3);
    RunFirst(c, e2, Advance(AtVersion), 2);
    RunFirst(c, e3, Advance(AtVersion), 1);
    assert Run(c, StepVersion(c, e3), []) == StepVersion(c, e3);
  }

  /** The version callback: what its four points at most come to. */
  lemma TurnVersion(c: Config, e: Endpoint, y: Endpoint, h: Callback)
    requires StepVersion(c, StepVersion(c, StepVersion(c, StepVersion(c, e)))) == y
    requires y.slot == Entering(e.slot, h)
    ensures Run(c, e, Turn(AtVersion, 4, |e.slot.raises|)) == y.(slot := Settled(e.slot, h))
  {
    FourSteps(c, e);
    RunConcat(c, e, Again(Advance(AtVersion), 4), Again(AdvanceRaise(|e.slot.raises|), 5));
    Settles(c, y, e.slot, h);
  }

  /** Where `handle_receive_version` ends, and what it did on the way. */
  function Outcome(c: Config, e: Endpoint, ec: Code, m: VersionMessage): Endpoint {
    var accepted := c.Configured() && c.Sufficient(m);
    var end :=
      if e.slot.Stopped(ec) then Returned
      else if ec != Success then Raised(ec)
      else Raised(if accepted then Success else ChannelStopped);
    var vetted := end.Raised? && ec == Success && c.Configured();
    var adopted := vetted && accepted;
    e.(version := end,
       slot := Settled(e.slot, end),
       sent := if vetted then e.sent + c.Rejections(m) + (if adopted then [Verack] else []) else e.sent,
       negotiated := if adopted then Min(m.value, c.ownVersion) else e.negotiated,
       peer := if adopted then Some(m) else e.peer,
       accepted := if adopted then e.accepted + [m] else e.accepted)
  }

  /** The callback has been entered with this code, and with this message if that is
      success. */
  predicate VersionEntered(e: Endpoint, ec: Code, m: VersionMessage) {
    e.version.Entered? && e.version.ec == ec && (ec == Success ==> e.version.message == Some(Version(m)))
  }

  lemma VersionAlone(c: Config, e: Endpoint, ec: Code, m: VersionMessage)
    requires VersionEntered(e, ec, m)
    ensures Run(c, e, Turn(AtVersion, 4, |e.slot.raises|)) == Outcome(c, e, ec, m)
  {
    if e.slot.Stopped(ec) || ec != Success {
      VersionEnds(c, e, ec);
    } else if c.Configured() && c.Sufficient(m) {
      VersionAccepted(c, e, m);
    } else {
      VersionRefused(c, e, m);
      assert e.sent + c.Rejections(m) + [] == e.sent + c.Rejections(m);
    }
  }

  lemma VersionEnds(c: Config, e: Endpoint, ec: Code)
    requires e.version.Entered? && e.version.ec == ec && (e.slot.Stopped(ec) || ec != Success)
    ensures var h := if e.slot.Stopped(ec) then Returned else Raised(ec);
            Run(c, e, Turn(AtVersion, 4, |e.slot.raises|)) == e.(version := h, slot := Settled(e.slot, h))
  {
    var y := StepVersion(c, e);
    assert StepVersion(c, y) == y;
    TurnVersion(c, e, y, y.version);
    assert y.sent == e.sent;
  }

  lemma VersionRefused(c: Config, e: Endpoint, m: VersionMessage)
    requires VersionEntered(e, Success, m) && !e.slot.Stopped(Success)
    requires !(c.Configured() && c.Sufficient(m))
    ensures Run(c, e, Turn(AtVersion, 4, |e.slot.raises|)) ==
            e.(version := Raised(ChannelStopped), slot := E.SetEvent(e.slot, ChannelStopped),
               sent := if c.Configured() then e.sent + c.Rejections(m) else e.sent)
  {
    var y := StepVersion(c, e);
    assert y == e.(version := Vetting(m));
    var z := StepVersion(c, y);
    assert StepVersion(c, z) == z;
    TurnVersion(c, e, z, Raised(ChannelStopped));
  }

  lemma VersionAccepted(c: Config, e: Endpoint, m: VersionMessage)
    requires VersionEntered(e, Success, m) && !e.slot.Stopped(Success)
    requires c.Configured() && c.Sufficient(m)
    ensures Run(c, e, Turn(AtVersion, 4, |e.slot.raises|)) ==
            e.(version := Raised(Success), slot := E.SetEvent(e.slot, Success),
               negotiated := Min(m.value, c.ownVersion), peer := Some(m), accepted := e.accepted + [m],
               sent := e.sent + c.Rejections(m) + [Verack])
  {
    var y := StepVersion(c, e);
    assert y == e.(version := Vetting(m));
    var z := StepVersion(c, y);
    assert z == e.(version := Adopting(m), sent := e.sent + c.Rejections(m));
    var w := StepVersion(c, z);
    assert w.sent == z.sent;
    TurnVersion(c, e, StepVersion(c, w), Raised(Success));
  }

  predicate RejectEntered(e: Endpoint, ec: Code, m: Message) {
    m.Reject? && e.reject.Entered? && e.reject.ec == ec && (ec == Success ==> e.reject.message == Some(m))
  }

  /** The message callback for a type of message. */
  function CallbackFor(m: Message): Who {
    match m
    case Version(_) => AtVersion
    case Verack => AtVerack
    case Reject(_, _) => AtReject
  }

  /** `start`, with the callbacks it makes itself: on a stopped channel every
      subscription calls back at once. */
  function Starting(c: Config, stopped: bool): seq<Event> {
    [Start] +
    if !stopped then []
    else Turn(AtStop, 1, 0) + (Turn(AtVersion, 4, 1) + (Turn(AtVerack, 1, 1) +
           if c.HandlesReject() then Turn(AtReject, 1, 1) else []))
  }

  class VersionProtocol {
    const config: Config
    const base: E.EventSlot
    var stopped: bool
    var waiting: set<Who>
    var negotiated: nat
    var peer: Option<VersionMessage>
    var sent: seq<Message>
    ghost var model: Endpoint

    /** `waiting` are the one-shot subscriptions still to be called. */
    ghost predicate Valid()
      reads this, base
    {
      && base.Valid() && base.limit == 2 && base.slot == model.slot
      && stopped == model.stopped
      && negotiated == model.negotiated && peer == model.peer && sent == model.sent
      && (AtVersion in waiting <==> model.version.Subscribed?)
      && (AtVerack in waiting <==> model.verack.Subscribed?)
      && (AtReject in waiting <==> model.reject.Subscribed?)
      && (AtStop in waiting <==> model.stop.Subscribed?)
    }

    constructor (config: Config)
      ensures Valid() && fresh(base) && model == Init(config) && this.config == config
    {
      this.config := config;
      base := new E.EventSlot(2);
      stopped, waiting, negotiated, peer, sent := false, {}, config.protocolMaximum, None, [];
      model := Init(config);
    }

    /** At any time the session's handler has been called at most once, and with success
        only after one accepted version and one verack. */
    lemma HandlerCalledOnce()
      requires Valid() && Inv(config, model)
      ensures |base.completions| <= 1
      ensures base.completions == [Success] ==> |model.accepted| == 1 && model.acks == 1 && peer == Some(model.accepted[0])
    {
      E.SuccessNeedsAll(model.slot);
    }

    /** `protocol_version_70002::sufficient_peer` over that of 31402. */
    method SufficientPeer(v: VersionMessage) returns (r: bool)
      modifies this`sent
      ensures r == config.Sufficient(v)
      ensures sent == old(sent) + config.Rejections(v)
    {
      if config.HandlesReject() {
        if v.value < config.minimumVersion {
          sent := sent + [Reject(true, Obsolete)];
        } else if !(config.minimumServices <= v.services) {
          sent := sent + [Reject(true, Obsolete)];
        }
      }
      if !(v.services !! config.invalidServices) {
        return false;
      }
      if !(config.minimumServices <= v.services) {
        return false;
      }
      if v.value < config.minimumVersion {
        return false;
      }
      r := true;
    }

    // What reaches the protocol.

    /** The channel hands a message to the handler subscribed for it, if any. */
    method Receive(m: Message) returns (calls: bool)
      requires Valid()
      modifies this`waiting, this`model
      ensures Valid() && model == Next(config, old(model), Event.Receive(m))
      ensures calls <==> !stopped && CallbackFor(m) in old(waiting)
      ensures Inv(config, old(model)) ==> Inv(config, model)
    {
      ghost var was := model;
      calls := !stopped && CallbackFor(m) in waiting;
      if calls {
        waiting := waiting - {CallbackFor(m)};
      }
      model := OnReceive(model, m);
      NextKeeps(config, was, Event.Receive(m));
    }

    /** The channel stops: every handler still subscribed is due a call. */
    method StopChannel(ec: Code)
      requires Valid() && ec != Success
      modifies this`stopped, this`waiting, this`model
      ensures Valid() && model == Next(config, old(model), Event.StopChannel(ec))
      ensures Inv(config, old(model)) ==> Inv(config, model)
    {
      ghost var was := model;
      stopped := true;
      waiting := {};
      model := OnStopChannel(model, ec);
      NextKeeps(config, was, Event.StopChannel(ec));
    }

    method Expire()
      requires Valid() && base.armed
      modifies this`model, base
      ensures Valid() && model == Next(config, old(model), Event.Expire)
      ensures Inv(config, old(model)) ==> Inv(config, model)
    {
      ghost var was := model;
      base.Expire();
      model := OnExpire(model);
      NextKeeps(config, was, Event.Expire);
    }

    // The callbacks.

    method HandleReceiveVersion(ec: Code, m: VersionMessage)
      requires Valid() && VersionEntered(model, ec, m)
      modifies this, base
      ensures Valid() && model == Run(config, old(model), Turn(AtVersion, 4, |old(model).slot.raises|))
      ensures Inv(config, old(model)) ==> Inv(config, model)
    {
      VersionAlone(config, model, ec, m);
      RunKeeps(config, model, Turn(AtVersion, 4, |model.slot.raises|));
      ReceiveVersion(ec, m);
    }

    method ReceiveVersion(ec: Code, m: VersionMessage)
      requires Valid() && VersionEntered(model, ec, m)
      modifies this, base
      ensures Valid()
      ensures model == Outcome(config, old(model), ec, m)
    {
      ghost var after := Outcome(config, model, ec, m);
      var done := base.IsStopped(ec);
      if done {
        model := after;
        return;
      }
      if ec != Success {
        base.RaiseEvent(ec);
        model := after;
        return;
      }
      Vet(m);
    }

    /** From the check of the settings on. */
    method Vet(m: VersionMessage)
      requires Valid() && VersionEntered(model, Success, m) && base.handler
      modifies this, base
      ensures Valid()
      ensures model == Outcome(config, old(model), Success, m)
    {
      ghost var after := Outcome(config, model, Success, m);
      if config.protocolMinimum < config.levelMinimum || config.protocolMaximum > config.levelMaximum ||
         config.protocolMinimum > config.protocolMaximum {
        base.RaiseEvent(ChannelStopped);
        model := after;
        return;
      }
      var sufficient := SufficientPeer(m);
      if !sufficient {
        base.RaiseEvent(ChannelStopped);
        model := after;
        return;
      }
      negotiated := Min(m.value, config.ownVersion);
      peer := Some(m);
      sent := sent + [Verack];
      base.RaiseEvent(Success);
      model := after;
    }

    method HandleReceiveVerack(ec: Code)
      requires Valid() && model.verack.Entered? && model.verack.ec == ec
      modifies this, base
      ensures Valid() && model == Run(config, old(model), Turn(AtVerack, 1, |old(model).slot.raises|))
      ensures Inv(config, old(model)) ==> Inv(config, model)
    {
      TurnOnce(config, model, AtVerack, StepVerack(model).verack);
      RunKeeps(config, model, Turn(AtVerack, 1, |model.slot.raises|));
      ReceiveVerack(ec);
    }

    method ReceiveVerack(ec: Code)
      requires Valid() && model.verack.Entered? && model.verack.ec == ec
      modifies this`model, base
      ensures Valid() && model == Done(config, old(model), AtVerack, StepVerack(old(model)).verack)
    {
      ghost var after := Done(config, model, AtVerack, StepVerack(model).verack);
      var done := base.IsStopped(ec);
      if !done {
        base.RaiseEvent(ec);
      }
      model := after;
    }

    /** Returns whether to stay subscribed; on a channel that has stopped meanwhile the
        new subscription is due a call at once. */
    method HandleReceiveReject(ec: Code, m: Message) returns (again: bool)
      requires Valid() && RejectEntered(model, ec, m)
      modifies this, base
      ensures Valid() && model == Run(config, old(model), Turn(AtReject, 1, |old(model).slot.raises|))
      ensures again <==> ec == Success && old(base.handler) && !FatalReject(Some(m))
      ensures Inv(config, old(model)) ==> Inv(config, model)
    {
      TurnOnce(config, model, AtReject, StepReject(model).reject);
      RunKeeps(config, model, Turn(AtReject, 1, |model.slot.raises|));
      again := ReceiveReject(ec, m);
    }

    method ReceiveReject(ec: Code, m: Message) returns (again: bool)
      requires Valid() && RejectEntered(model, ec, m)
      modifies this`model, this`waiting, base
      ensures Valid() && model == Done(config, old(model), AtReject, StepReject(old(model)).reject)
      ensures again <==> ec == Success && old(base.handler) && !FatalReject(Some(m))
    {
      ghost var after := Done(config, model, AtReject, StepReject(model).reject);
      again := false;
      var done := base.IsStopped(ec);
      if done {
      } else if ec != Success {
        base.RaiseEvent(ChannelStopped);
      } else if !m.ofVersion {
        again := true;
      } else if m.reason == Obsolete {
        base.RaiseEvent(ChannelStopped);
      } else if m.reason == Duplicate {
        base.RaiseEvent(ChannelStopped);
      } else {
        again := true;
      }
      if again && !stopped {
        waiting := waiting + {AtReject};
      }
      model := after;
    }

    /** `protocol_timer::handle_timer`; the handshake timer is not perpetual. */
    method HandleTimer()
      requires Valid() && model.timer.Entered?
      modifies this`model, base
      ensures Valid() && model == Run(config, old(model), Turn(AtTimer, 1, |old(model).slot.raises|))
      ensures Inv(config, old(model)) ==> Inv(config, model)
    {
      ghost var after := Run(config, model, Turn(AtTimer, 1, |model.slot.raises|));
      TurnOnce(config, model, AtTimer, StepTimer(model).timer);
      RunKeeps(config, model, Turn(AtTimer, 1, |model.slot.raises|));
      if base.handler {
        base.RaiseEvent(ChannelTimeout);
      }
      model := after;
    }

    method HandleStopped(ec: Code)
      requires Valid() && model.stop.Entered? && model.stop.ec == ec
      modifies this`model, base
      ensures Valid() && model == Run(config, old(model), Turn(AtStop, 1, |old(model).slot.raises|))
      ensures Inv(config, old(model)) ==> Inv(config, model)
    {
      ghost var after := Run(config, model, Turn(AtStop, 1, |model.slot.raises|));
      TurnOnce(config, model, AtStop, Raised(ChannelStopped));
      RunKeeps(config, model, Turn(AtStop, 1, |model.slot.raises|));
      base.RaiseEvent(ChannelStopped);
      model := after;
    }

    /** The slot, the message to send, and the subscriptions. */
    method Open()
      requires Valid() && !model.slot.open
      modifies this, base
      ensures Valid() && model == OnStart(config, old(model))
    {
      base.Start(!stopped);
      waiting := if stopped then {}
                 else {AtStop, AtVersion, AtVerack} + if config.HandlesReject() then {AtReject} else {};
      sent := sent + [Version(config.Own())];
      model := OnStart(config, model);
    }

    method Start()
      requires Valid() && !model.slot.open
      modifies this, base
      ensures Valid() && model == Run(config, old(model), Starting(config, old(stopped)))
      ensures Inv(config, old(model)) ==> Inv(config, model)
    {
      StartRuns(config, model);
      RunKeeps(config, model, Starting(config, model.stopped));
      ghost var e0 := OnStart(config, model);
      Open();
      if stopped {
        StartedStopped(config, e0);
        HandleStopped(ChannelStopped);
        HandleReceiveVersion(ChannelStopped, config.Own());
        HandleReceiveVerack(ChannelStopped);
        if config.HandlesReject() {
          var again := HandleReceiveReject(ChannelStopped, Reject(true, OtherReason));
        }
      }
    }
  }

  /** On a stopped channel the four callbacks are due; the first raises the one event, and
      the others return. */
  lemma StartedStopped(c: Config, e: Endpoint)
    requires e.slot == E.Open(2, false) && e.stop == Entered(ChannelStopped, None)
    requires e.version == Entered(ChannelStopped, None) && e.verack == Entered(ChannelStopped, None)
    ensures var e1 := Run(c, e, Turn(AtStop, 1, 0));
            var e2 := Run(c, e1, Turn(AtVersion, 4, 1));
            var e3 := Run(c, e2, Turn(AtVerack, 1, 1));
            && |e1.slot.raises| == |e2.slot.raises| == |e3.slot.raises| == 1
            && e1.version == e.version && e1.verack == e.verack && e1.reject == e.reject
            && e2.verack == e.verack && e2.reject == e.reject
            && e3.reject == e.reject
  {
    TurnOnce(c, e, AtStop, Raised(ChannelStopped));
    var e1 := Run(c, e, Turn(AtStop, 1, 0));
    VersionEnds(c, e1, ChannelStopped);
    var e2 := Run(c, e1, Turn(AtVersion, 4, 1));
    TurnOnce(c, e2, AtVerack, Returned);
  }

  /** The callbacks of a start on a stopped channel, one after the other. */
  function StartCalls(c: Config, e: Endpoint): Endpoint {
    var e0 := OnStart(c, e);
    if !e.stopped then e0
    else
      var e1 := Run(c, e0, Turn(AtStop, 1, 0));
      var e2 := Run(c, e1, Turn(AtVersion, 4, 1));
      var e3 := Run(c, e2, Turn(AtVerack, 1, 1));
      if c.HandlesReject() then Run(c, e3, Turn(AtReject, 1, 1)) else e3
  }

  lemma StartRuns(c: Config, e: Endpoint)
    ensures Run(c, e, Starting(c, e.stopped)) == StartCalls(c, e)
  {
    var e0 := OnStart(c, e);
    var rest := Starting(c, e.stopped)[1..];
    assert Run(c, e, Starting(c, e.stopped)) == Run(c, e0, rest);
    if e.stopped {
      var last := if c.HandlesReject() then Turn(AtReject, 1, 1) else [];
      var e1 := Run(c, e0, Turn(AtStop, 1, 0));
      var e2 := Run(c, e1, Turn(AtVersion, 4, 1));
      var e3 := Run(c, e2, Turn(AtVerack, 1, 1));
      RunConcat(c, e0, Turn(AtStop, 1, 0), Turn(AtVersion, 4, 1) + (Turn(AtVerack, 1, 1) + last));
      RunConcat(c, e1, Turn(AtVersion, 4, 1), Turn(AtVerack, 1, 1) + last);
      RunConcat(c, e2, Turn(AtVerack, 1, 1), last);
      assert Run(c, e3, []) == e3;
    }
  }
}
