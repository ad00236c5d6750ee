/** The version handshake of one endpoint (`protocol_version_31402` and
    `protocol_version_70002`), at the grain of the event slot's single accesses. */
module Handshake {
  import opened Codes
  import opened Sums
  import E = Events

  /** A mask of service bits, as the set of the bits that are on. */
  type Services = set<nat>

  datatype VersionMessage = VersionMessage(value: nat, services: Services)

  datatype Reason = Obsolete | Duplicate | OtherReason

  datatype Message =
    | Version(version: VersionMessage)
    | Verack
    | Reject(ofVersion: bool, reason: Reason)

  /** The settings the handshake reads, the limits of the supported protocol levels,
      and the constructor arguments chosen by the session. */
  datatype Config = Config(
    protocolMinimum: nat, protocolMaximum: nat,
    levelMinimum: nat, levelMaximum: nat, bip61: nat,
    ownVersion: nat, ownServices: Services, invalidServices: Services,
    minimumVersion: nat, minimumServices: Services)
  {
    predicate Configured() {
      && protocolMinimum >= levelMinimum
      && protocolMaximum <= levelMaximum
      && protocolMinimum <= protocolMaximum
    }

    /** A channel's negotiated version starts at the configured maximum, which
        decides whether the handshake that handles rejects is attached. */
    predicate HandlesReject() {
      protocolMaximum >= bip61
    }

    function Own(): VersionMessage {
      VersionMessage(ownVersion, ownServices)
    }

    /** `protocol_version_31402::sufficient_peer`. */
    predicate Sufficient(v: VersionMessage) {
      && v.services !! invalidServices
      && minimumServices <= v.services
      && v.value >= minimumVersion
    }

    /** What `protocol_version_70002::sufficient_peer` sends before it asks the base. */
    function Rejections(v: VersionMessage): seq<Message> {
      if !HandlesReject() then []
      else if v.value < minimumVersion then [Reject(true, Obsolete)]
      else if !(minimumServices <= v.services) then [Reject(true, Obsolete)]
      else []
    }
  }

  /** One callback of the protocol: not subscribed, waiting, at some point of its
      body, or past it. Every callback of the handshake is one-shot, except that a
      reject of another message type is subscribed again. `Raised(ec)` has entered
      `set_event(ec)`, whose own progress is kept in the slot. */
  datatype Callback =
    | Off
    | Subscribed
    | Entered(ec: Code, message: Option<Message>)
    | Vetting(version: VersionMessage)
    | Adopting(version: VersionMessage)
    | Acking
    | Raised(code: Code)
    | Returned
  {
    predicate Resting() {
      Off? || Subscribed? || Returned? || Raised?
    }

    predicate RaisedError() {
      Raised? && code != Success
    }
  }

  datatype Who = AtVersion | AtVerack | AtReject | AtTimer | AtStop

  /** `stopped` is the channel's flag. `accepted`, `acks` and `sent` are history. */
  datatype Endpoint = Endpoint(
    stopped: bool, slot: E.Slot,
    version: Callback, verack: Callback, reject: Callback, timer: Callback, stop: Callback,
    negotiated: nat, peer: Option<VersionMessage>,
    accepted: seq<VersionMessage>, acks: nat, sent: seq<Message>)
  {
    predicate Quiet() {
      && slot.Quiet()
      && version.Resting() && verack.Resting() && reject.Resting() && timer.Resting() && stop.Resting()
    }

    predicate RaisedError() {
      version.RaisedError() || reject.RaisedError() || timer.RaisedError() || stop.RaisedError()
    }

    function Fired(): seq<Code> {
      slot.fired
    }
  }

  datatype Event =
    | Start
    | Receive(message: Message)
    | Expire
    | StopChannel(ec: Code)
    | Advance(who: Who)
    | AdvanceRaise(index: nat)

  function Init(c: Config): Endpoint {
    Endpoint(false, E.Closed(2), Off, Off, Off, Off, Off, c.protocolMaximum, None, [], 0, [])
  }

  /** A subscriber that is already stopped calls the handler at once. */
  function Subscribe(stopped: bool): Callback {
    if stopped then Entered(ChannelStopped, None) else Subscribed
  }

  function Notified(h: Callback, ec: Code): Callback {
    if h.Subscribed? then Entered(ec, None) else h
  }

  function OnStart(c: Config, e: Endpoint): Endpoint {
    if e.slot.open then e
    else
      e.(slot := E.Open(2, !e.stopped),
         stop := Subscribe(e.stopped),
         version := Subscribe(e.stopped),
         verack := Subscribe(e.stopped),
         reject := if c.HandlesReject() then Subscribe(e.stopped) else Off,
         sent := e.sent + [Version(c.Own())])
  }

  function Given(h: Callback, taken: bool, m: Message): Callback {
    if taken && h.Subscribed? then Entered(Success, Some(m)) else h
  }

  /** A message reaches the callback subscribed for its type, unless the channel has
      stopped; without a subscriber it is dropped. */
  function OnReceive(e: Endpoint, m: Message): Endpoint {
    e.(version := Given(e.version, !e.stopped && m.Version?, m),
       verack := Given(e.verack, !e.stopped && m.Verack?, m),
       reject := Given(e.reject, !e.stopped && m.Reject?, m))
  }

  /** `proxy::stop`: flag, broadcast to message subscribers, relay to stop subscribers. */
  function OnStopChannel(e: Endpoint, ec: Code): Endpoint {
    if ec == Success then e
    else
      e.(stopped := true,
         version := Notified(e.version, ChannelStopped),
         verack := Notified(e.verack, ChannelStopped),
         reject := Notified(e.reject, ChannelStopped),
         stop := Notified(e.stop, ec))
  }

  /** Entering `set_event` when a callback's next point says so. */
  function Entering(s: E.Slot, next: Callback): E.Slot {
    if next.Raised? then E.Begin(s, next.code) else s
  }

  /** `handle_receive_version`: the next point of its body. */
  function VersionBody(c: Config, s: E.Slot, h: Callback): Callback {
    match h
    case Entered(ec, m) =>
      if s.Stopped(ec) then Returned
      else if ec != Success then Raised(ec)
      else if m.Some? && m.value.Version? then Vetting(m.value.version)
      else Returned
    case Vetting(v) => if c.Configured() && c.Sufficient(v) then Adopting(v) else Raised(ChannelStopped)
    case Adopting(_) => Acking
    case Acking => Raised(Success)
    case _ => h
  }

  function StepVersion(c: Config, e: Endpoint): Endpoint {
    var h := e.version;
    if h.Resting() then e
    else
      var next := VersionBody(c, e.slot, h);
      e.(version := next,
         slot := Entering(e.slot, next),
         sent := e.sent +
           if h.Vetting? && c.Configured() then c.Rejections(h.version) else if h.Acking? then [Verack] else [],
         negotiated := if h.Adopting? then Min(h.version.value, c.ownVersion) else e.negotiated,
         peer := if h.Adopting? then Some(h.version) else e.peer,
         accepted := if h.Adopting? then e.accepted + [h.version] else e.accepted)
  }

  /** `handle_receive_verack`. */
  function StepVerack(e: Endpoint): Endpoint {
    if !e.verack.Entered? then e
    else
      var ec := e.verack.ec;
      var next := if e.slot.Stopped(ec) then Returned else Raised(ec);
      e.(verack := next,
         slot := Entering(e.slot, next),
         acks := e.acks + Bit(next == Raised(Success)))
  }

  /** A reject of our version message, as obsolete or as a duplicate. */
  predicate FatalReject(m: Option<Message>) {
    m.Some? && m.value.Reject? && m.value.ofVersion && m.value.reason != OtherReason
  }

  /** `handle_receive_reject`. */
  function StepReject(e: Endpoint): Endpoint {
    if !e.reject.Entered? then e
    else
      var ec := e.reject.ec;
      var next :=
        if e.slot.Stopped(ec) then Returned
        else if ec != Success || FatalReject(e.reject.message) then Raised(ChannelStopped)
        else Subscribe(e.stopped);
      e.(reject := next, slot := Entering(e.slot, next))
  }

  /** `handle_timer`. */
  function StepTimer(e: Endpoint): Endpoint {
    if !e.timer.Entered? then e
    else
      var next := if e.slot.handler then Raised(ChannelTimeout) else Returned;
      e.(timer := next, slot := Entering(e.slot, next))
  }

  /** `handle_stopped`. */
  function StepStop(e: Endpoint): Endpoint {
    if !e.stop.Entered? then e
    else
      var next := Raised(ChannelStopped);
      e.(stop := next, slot := Entering(e.slot, next))
  }

  function OnExpire(e: Endpoint): Endpoint {
    if !e.slot.armed then e
    else e.(slot := e.slot.(armed := false), timer := Entered(Success, None))
  }

  function StepRaise(e: Endpoint, i: nat): Endpoint {
    if i >= |e.slot.raises| then e else e.(slot := E.Step(e.slot, i))
  }

  function Next(c: Config, e: Endpoint, ev: Event): Endpoint {
    match ev
    case Start => OnStart(c, e)
    case Receive(m) => OnReceive(e, m)
    case Expire => OnExpire(e)
    case StopChannel(ec) => OnStopChannel(e, ec)
    case Advance(AtVersion) => StepVersion(c, e)
    case Advance(AtVerack) => StepVerack(e)
    case Advance(AtReject) => StepReject(e)
    case Advance(AtTimer) => StepTimer(e)
    case Advance(AtStop) => StepStop(e)
    case AdvanceRaise(i) => StepRaise(e, i)
  }

  function Run(c: Config, e: Endpoint, evs: seq<Event>): Endpoint
    decreases |evs|
  {
    if evs == [] then e else Run(c, Next(c, e, evs[0]), evs[1..])
  }

  lemma {:induction false} RunConcat(c: Config, e: Endpoint, a: seq<Event>, b: seq<Event>)
    ensures Run(c, e, a + b) == Run(c, Run(c, e, a), b)
    decreases |a|
  {
    if a == [] {
      assert a + b == b;
    } else {
      assert (a + b)[1..] == a[1..] + b;
      RunConcat(c, Next(c, e, a[0]), a[1..], b);
    }
  }

  // The invariant, one conjunct per concern.

  predicate MayEnter(h: Callback, stopped: bool) {
    h.Entered? ==> h.ec == Success || (h.ec == ChannelStopped && stopped)
  }

  ghost predicate Shape(c: Config, e: Endpoint) {
    && (!e.slot.open ==> e == Init(c).(stopped := e.stopped))
    && (e.slot.armed ==> e.timer.Off?)
    && MayEnter(e.version, e.stopped) && MayEnter(e.verack, e.stopped) && MayEnter(e.reject, e.stopped)
    && (e.version.Entered? && e.version.ec == Success ==> e.version.message.Some? && e.version.message.value.Version?)
    && (e.verack.Raised? ==> e.verack.code == Success)
    && (e.reject.Raised? ==> e.reject.code != Success)
    && (e.timer.Raised? ==> e.timer.code != Success)
    && (e.stop.Raised? ==> e.stop.code != Success)
    && (e.verack.Off? || e.verack.Subscribed? || e.verack.Entered? || e.verack.Raised? || e.verack.Returned?)
  }

  /** The peer's version was accepted and adopted. */
  predicate Adopted(e: Endpoint) {
    e.version.Acking? || e.version == Raised(Success)
  }

  ghost predicate History(c: Config, e: Endpoint) {
    && |e.accepted| == Bit(Adopted(e))
    && e.acks == Bit(e.verack.Raised?)
    && (Adopted(e) ==>
          && c.Configured() && c.Sufficient(e.accepted[0])
          && e.negotiated == Min(e.accepted[0].value, c.ownVersion)
          && e.peer == Some(e.accepted[0]))
    && (!Adopted(e) ==> e.negotiated == c.protocolMaximum && e.peer == None)
    && (e.version.Adopting? ==> c.Configured() && c.Sufficient(e.version.version))
  }

  /** The `set_event` calls under way or past are those of the callbacks. */
  ghost predicate Raises(e: Endpoint) {
    && E.Inv(e.slot) && e.slot.join.limit == 2
    && Sum(e.slot.raises, E.Succeeds) == Oks(e)
    && (e.RaisedError() <==> exists i :: 0 <= i < |e.slot.raises| && e.slot.raises[i].ec != Success)
  }

  /** A callback that returned without raising an event saw a stop: the slot cleared,
      or the channel stopped with its stop notification under way. */
  ghost predicate Returns(e: Endpoint) {
    && (e.version.Returned? || e.verack.Returned? || e.reject.Returned? ==> !e.slot.handler || e.stopped)
    && (e.timer.Returned? ==> !e.slot.handler)
    && !e.stop.Returned? && (!e.stopped ==> !e.stop.Entered? && !e.stop.Raised?)
    && (e.slot.open ==>
          && !e.stop.Off? && !e.version.Off? && !e.verack.Off?
          && (e.stopped ==> !e.stop.Subscribed? && !e.version.Subscribed? && !e.verack.Subscribed?))
  }

  ghost predicate Local(c: Config, e: Endpoint) {
    Shape(c, e) && History(c, e) && Returns(e)
  }

  ghost predicate Inv(c: Config, e: Endpoint) {
    Local(c, e) && Raises(e)
  }

  function Oks(e: Endpoint): nat {
    Bit(e.version == Raised(Success)) + Bit(e.verack.Raised?)
  }

  /** The slot's part of the invariant is kept when the slot follows the callbacks. */
  lemma RaisesKept(e: Endpoint, e': Endpoint, next: Callback)
    requires Raises(e) && (next.Raised? ==> e.slot.open)
    requires e'.slot == Entering(e.slot, next)
    requires Oks(e') == Oks(e) + Bit(next == Raised(Success))
    requires e'.RaisedError() == (e.RaisedError() || next.RaisedError())
    ensures Raises(e')
  {
    if next.Raised? {
      E.BeginInv(e.slot, next.code);
      assert e'.slot.raises[|e.slot.raises|].ec == next.code;
      if i :| 0 <= i < |e.slot.raises| && e.slot.raises[i].ec != Success {
        assert e'.slot.raises[i].ec != Success;
      }
    }
  }

  lemma VersionLocal(c: Config, e: Endpoint)
    requires Local(c, e)
    ensures Local(c, StepVersion(c, e))
  {
  }

  lemma VersionInv(c: Config, e: Endpoint)
    requires Inv(c, e)
    ensures Inv(c, StepVersion(c, e))
  {
    VersionLocal(c, e);
    if !e.version.Resting() {
      RaisesKept(e, StepVersion(c, e), StepVersion(c, e).version);
    }
  }

  lemma VerackLocal(c: Config, e: Endpoint)
    requires Local(c, e)
    ensures Local(c, StepVerack(e))
  {
  }

  lemma VerackInv(c: Config, e: Endpoint)
    requires Inv(c, e)
    ensures Inv(c, StepVerack(e))
  {
    VerackLocal(c, e);
    if e.verack.Entered? {
      RaisesKept(e, StepVerack(e), StepVerack(e).verack);
    }
  }

  lemma RejectLocal(c: Config, e: Endpoint)
    requires Local(c, e)
    ensures Local(c, StepReject(e))
  {
  }

  lemma RejectInv(c: Config, e: Endpoint)
    requires Inv(c, e)
    ensures Inv(c, StepReject(e))
  {
    RejectLocal(c, e);
    if e.reject.Entered? {
      RaisesKept(e, StepReject(e), StepReject(e).reject);
    }
  }

  lemma TimerLocal(c: Config, e: Endpoint)
    requires Local(c, e)
    ensures Local(c, StepTimer(e))
  {
  }

  lemma TimerInv(c: Config, e: Endpoint)
    requires Inv(c, e)
    ensures Inv(c, StepTimer(e))
  {
    TimerLocal(c, e);
    if e.timer.Entered? {
      RaisesKept(e, StepTimer(e), StepTimer(e).timer);
    }
  }

  lemma StopLocal(c: Config, e: Endpoint)
    requires Local(c, e)
    ensures Local(c, StepStop(e))
  {
  }

  lemma StopInv(c: Config, e: Endpoint)
    requires Inv(c, e)
    ensures Inv(c, StepStop(e))
  {
    StopLocal(c, e);
    if e.stop.Entered? {
      RaisesKept(e, StepStop(e), StepStop(e).stop);
    }
  }

  lemma ReceiveLocal(c: Config, e: Endpoint, m: Message)
    requires Local(c, e)
    ensures Local(c, OnReceive(e, m))
  {
  }

  lemma ReceiveInv(c: Config, e: Endpoint, m: Message)
    requires Inv(c, e)
    ensures Inv(c, OnReceive(e, m))
  {
    ReceiveLocal(c, e, m);
    RaisesKept(e, OnReceive(e, m), Off);
  }

  lemma StopChannelLocal(c: Config, e: Endpoint, ec: Code)
    requires Local(c, e)
    ensures Local(c, OnStopChannel(e, ec))
  {
  }

  lemma StopChannelInv(c: Config, e: Endpoint, ec: Code)
    requires Inv(c, e)
    ensures Inv(c, OnStopChannel(e, ec))
  {
    StopChannelLocal(c, e, ec);
    RaisesKept(e, OnStopChannel(e, ec), Off);
  }

  lemma StartInv(c: Config, e: Endpoint)
    requires Inv(c, e)
    ensures Inv(c, OnStart(c, e))
  {
  }

  lemma ExpireInv(c: Config, e: Endpoint)
    requires Inv(c, e)
    ensures Inv(c, OnExpire(e))
  {
  }

  lemma RaiseInv(c: Config, e: Endpoint, i: nat)
    requires Inv(c, e)
    ensures Inv(c, StepRaise(e, i))
  {
    if i < |e.slot.raises| {
      E.StepInv(e.slot, i);
      E.StepFrame(e.slot, i);
    }
  }

  lemma NextInv(c: Config, e: Endpoint, ev: Event)
    requires Inv(c, e)
    ensures Inv(c, Next(c, e, ev))
  {
    match ev
    case Start => StartInv(c, e);
    case Receive(m) => ReceiveInv(c, e, m);
    case Expire => ExpireInv(c, e);
    case StopChannel(ec) => StopChannelInv(c, e, ec);
    case Advance(AtVersion) => VersionInv(c, e);
    case Advance(AtVerack) => VerackInv(c, e);
    case Advance(AtReject) => RejectInv(c, e);
    case Advance(AtTimer) => TimerInv(c, e);
    case Advance(AtStop) => StopInv(c, e);
    case AdvanceRaise(i) => RaiseInv(c, e, i);
  }

  lemma {:induction false} RunInv(c: Config, e: Endpoint, evs: seq<Event>)
    requires Inv(c, e)
    ensures Inv(c, Run(c, e, evs))
    decreases |evs|
  {
    if evs != [] {
      NextInv(c, e, evs[0]);
      RunInv(c, Next(c, e, evs[0]), evs[1..]);
    }
  }

  /** What `RunInv` says, for a state that need not satisfy the invariant. */
  lemma RunKeeps(c: Config, e: Endpoint, evs: seq<Event>)
    ensures Inv(c, e) ==> Inv(c, Run(c, e, evs))
  {
    if Inv(c, e) {
      RunInv(c, e, evs);
    }
  }

  lemma NextKeeps(c: Config, e: Endpoint, ev: Event)
    ensures Inv(c, e) ==> Inv(c, Next(c, e, ev))
  {
    if Inv(c, e) {
      NextInv(c, e, ev);
    }
  }

  // Main results, over every run from the initial state.

  /** Completion happens at most once, and with success only after exactly one
      version was accepted and exactly one verack received, with the negotiated
      version set from that version. */
  lemma CompletesOnce(c: Config, evs: seq<Event>)
    ensures var e := Run(c, Init(c), evs);
            && |e.Fired()| <= 1
            && (e.Fired() == [Success] ==>
                  && |e.accepted| == 1 && e.acks == 1
                  && e.peer == Some(e.accepted[0])
                  && e.negotiated == Min(e.accepted[0].value, c.ownVersion))
  {
    RunInv(c, Init(c), evs);
    E.SuccessNeedsAll(Run(c, Init(c), evs).slot);
  }

  lemma NextFired(c: Config, e: Endpoint, ev: Event)
    requires e.slot.open && !ev.AdvanceRaise?
    ensures Next(c, e, ev).Fired() == e.Fired()
  {
  }

  /** The slot is opened by the start and by nothing else, and stays open. */
  lemma NextOpen(c: Config, e: Endpoint, ev: Event)
    ensures e.slot.open ==> Next(c, e, ev).slot.open
    ensures !e.slot.open && Next(c, e, ev).slot.open ==> ev.Start?
  {
  }

  lemma NextUnopened(c: Config, e: Endpoint, ev: Event)
    requires Shape(c, e) && !e.slot.open
    ensures Next(c, e, ev).Fired() == []
  {
  }

  lemma RaiseFires(c: Config, e: Endpoint, i: nat)
    requires E.Inv(e.slot)
    ensures |StepRaise(e, i).Fired()| <= 1
    ensures e.Fired() != [] ==> StepRaise(e, i).Fired() == e.Fired()
  {
    E.SuccessNeedsAll(e.slot);
    if i < |e.slot.raises| {
      E.StepStable(e.slot, i);
      E.StepInv(e.slot, i);
      E.SuccessNeedsAll(E.Step(e.slot, i));
    }
  }

  /** A step completes the handshake, once, or leaves its completion as it was. */
  lemma FiredStep(c: Config, e: Endpoint, ev: Event)
    requires Shape(c, e) && E.Inv(e.slot)
    ensures |Next(c, e, ev).Fired()| <= 1
    ensures e.Fired() != [] ==> Next(c, e, ev).Fired() == e.Fired()
    ensures Next(c, e, ev).Fired() != [] ==> e.slot.open
  {
    if !e.slot.open {
      NextUnopened(c, e, ev);
    } else if ev.AdvanceRaise? {
      RaiseFires(c, e, ev.index);
    } else {
      NextFired(c, e, ev);
      E.SuccessNeedsAll(e.slot);
    }
  }

  /** A late timer, stop, reject or message never completes the handshake again or
      changes how it completed. */
  lemma {:induction false} CompletionIsFinal(c: Config, e: Endpoint, evs: seq<Event>)
    requires Inv(c, e) && e.Fired() != []
    ensures Run(c, e, evs).Fired() == e.Fired()
    decreases |evs|
  {
    if evs != [] {
      if evs[0].AdvanceRaise? {
        if evs[0].index < |e.slot.raises| {
          E.StepStable(e.slot, evs[0].index);
        }
      } else {
        NextFired(c, e, evs[0]);
      }
      NextInv(c, e, evs[0]);
      CompletionIsFinal(c, Next(c, e, evs[0]), evs[1..]);
    }
  }

  /** What the handshake waits for: its timer, the channel's stop, a fatal reject, a
      version message that is refused, or a version and a verack. */
  predicate Decided(e: Endpoint) {
    e.timer.Raised? || e.stop.Raised? || e.RaisedError() || (e.version == Raised(Success) && e.verack.Raised?)
  }

  /** No completion is lost: with every callback at rest, the handshake has completed,
      once, exactly when something it waits for has happened; on a stopped channel it
      always has. */
  lemma QuietCompletes(c: Config, evs: seq<Event>)
    ensures var e := Run(c, Init(c), evs);
            e.Quiet() ==>
              && (|e.Fired()| == 1 <==> Decided(e))
              && (e.slot.open && e.stopped ==> |e.Fired()| == 1)
  {
    var e := Run(c, Init(c), evs);
    RunInv(c, Init(c), evs);
    if e.Quiet() {
      E.QuietCompletes(e.slot);
    }
  }

  // Negotiated version bounds, for the constructor arguments of every session.

  datatype Settings = Settings(
    protocolMinimum: nat, protocolMaximum: nat, services: Services, invalidServices: Services)

  /** Constants of the message library. */
  datatype Levels = Levels(minimum: nat, maximum: nat, bip61: nat, nodeNetwork: Services, nodeWitness: Services)

  /** The two-argument constructors, used by the manual and inbound sessions. */
  function DefaultConfig(s: Settings, l: Levels): Config {
    Config(s.protocolMinimum, s.protocolMaximum, l.minimum, l.maximum, l.bip61,
           s.protocolMaximum, s.services, s.invalidServices, s.protocolMinimum, {})
  }

  /** `session_outbound::attach_handshake_protocols`; the cash build does not ask for
      witness service. */
  function OutboundConfig(s: Settings, l: Levels, cash: bool): Config {
    DefaultConfig(s, l).(minimumServices :=
      if cash then l.nodeNetwork else (s.services * l.nodeWitness) + l.nodeNetwork)
  }

  /** `session_seed::attach_handshake_protocols`. */
  function SeedConfig(s: Settings, l: Levels): Config {
    DefaultConfig(s, l).(ownServices := {})
  }

  /** Whenever a handshake succeeds the negotiated version lies within the configured
      range, that range lies within the supported levels, and the peer serves what
      the session requires and nothing it forbids. */
  lemma NegotiatedBounds(s: Settings, l: Levels, cash: bool, c: Config, evs: seq<Event>)
    requires c in {DefaultConfig(s, l), OutboundConfig(s, l, cash), SeedConfig(s, l)}
    ensures var e := Run(c, Init(c), evs);
            e.Fired() == [Success] ==>
              && l.minimum <= s.protocolMinimum <= e.negotiated <= s.protocolMaximum <= l.maximum
              && e.peer.Some? && e.peer.value.services !! s.invalidServices
              && c.minimumServices <= e.peer.value.services
  {
    CompletesOnce(c, evs);
    RunInv(c, Init(c), evs);
    E.SuccessNeedsAll(Run(c, Init(c), evs).slot);
  }

  /** A rejection is sent exactly to a peer whose version or services fall short, and
      such a peer is never sufficient. */
  lemma RejectionMeaning(c: Config, v: VersionMessage)
    ensures c.Rejections(v) != [] ==> !c.Sufficient(v)
    ensures c.HandlesReject() ==>
              (c.Sufficient(v) <==> c.Rejections(v) == [] && v.services !! c.invalidServices)
  {
  }

  predicate IsReject(m: Message) {
    m.Reject?
  }

  predicate Rejected(sent: seq<Message>) {
    exists i :: 0 <= i < |sent| && IsReject(sent[i])
  }

  /** A rejection was sent only by a version callback that then raised an error. */
  ghost predicate RejectsRaise(e: Endpoint) {
    Rejected(e.sent) ==> e.version.RaisedError()
  }

  lemma VersionRejects(c: Config, e: Endpoint)
    requires RejectsRaise(e)
    ensures RejectsRaise(StepVersion(c, e))
  {
    var e' := StepVersion(c, e);
    if i :| 0 <= i < |e'.sent| && IsReject(e'.sent[i]) {
      if i < |e.sent| {
        assert IsReject(e.sent[i]);
      }
    }
  }

  lemma NextRejects(c: Config, e: Endpoint, ev: Event)
    requires RejectsRaise(e) && Shape(c, e)
    ensures RejectsRaise(Next(c, e, ev))
  {
    VersionRejects(c, e);
  }

  lemma {:induction false} RunRejects(c: Config, e: Endpoint, evs: seq<Event>)
    requires RejectsRaise(e) && Inv(c, e)
    ensures RejectsRaise(Run(c, e, evs))
    decreases |evs|
  {
    if evs != [] {
      NextInv(c, e, evs[0]);
      NextRejects(c, e, evs[0]);
      RunRejects(c, Next(c, e, evs[0]), evs[1..]);
    }
  }

  /** Whatever the peer does, an endpoint that has sent a rejection never completes with
      success. */
  lemma RejectionNeverSucceeds(c: Config, evs: seq<Event>)
    ensures var e := Run(c, Init(c), evs);
            Rejected(e.sent) ==> e.Fired() != [Success]
  {
    RunRejects(c, Init(c), evs);
    RunInv(c, Init(c), evs);
    CompletesOnce(c, evs);
  }
}
