/** Why no message is missed between the handshake and the protocols that follow it. */
module MessageGap {
  datatype Kind =
    | Address | Alert | Block | BlockTransactions | CompactBlock | FeeFilter | FilterAdd | FilterClear
    | FilterLoad | GetAddress | GetBlocks | GetBlockTransactions | GetData | GetHeaders | Headers
    | Inventory | MemoryPool | MerkleBlock | NotFoundMessage | PingMessage | PongMessage | RejectMessage
    | SendCompact | SendHeaders | Transaction | VerackMessage | VersionMessage

  /** `message_subscriber::load`: which types are handled on the reading thread. All
      others are relayed to another thread. */
  predicate Synchronous(k: Kind) {
    k == Block || k == Transaction || k == VerackMessage || k == VersionMessage
  }

  /** The negotiated version and pool capacity decide which protocols are attached. */
  datatype Config = Config(sync: Kind -> bool, negotiated: nat, bip31: nat, bip61: nat, capacity: nat)

  function PingKinds(c: Config): set<Kind> {
    if c.negotiated >= c.bip31 then {PingMessage, PongMessage} else {PingMessage}
  }

  function RejectKinds(c: Config): set<Kind> {
    if c.negotiated >= c.bip61 then {RejectMessage} else {}
  }

  function AddressKinds(c: Config): set<Kind> {
    if c.capacity != 0 then {Address, GetAddress} else {}
  }

  /** What the protocols attached after the handshake listen to. */
  function Required(c: Config): set<Kind> {
    PingKinds(c) + RejectKinds(c) + AddressKinds(c)
  }

  /** A thread at work on a message: its subscriber, and if that completes the handshake,
      the registration chain to its end. */
  datatype Work =
    | Handling(kind: Kind)
    | Storing
    | Unpending
    | SubscribingStop
    | AttachingPing
    | AttachingReject
    | AttachingAddress
    | Done

  /** `reading` is a heading read outstanding; `reader` the reading thread and `workers`
      the threads running relayed messages. `heard` are the handshake messages joined,
      `failed` that the join was decided by an error, `completed` by success; `subs`
      the message types subscribed to since. */
  datatype State = State(stopped: bool, reading: bool, reader: Work, workers: seq<Work>,
                         heard: set<Kind>, failed: bool, completed: bool, subs: set<Kind>)

  datatype Event =
    | Receive(kind: Kind)
    | ReaderStep(ok: bool)
    | WorkerStep(index: nat, ok: bool)
    | NextHeading
    | HandshakeFails
    | Stop

  const INIT: State := State(false, true, Done, [], {}, false, false, {})

  predicate Joins(w: Work) {
    w.Handling? && (w.kind == VersionMessage || w.kind == VerackMessage)
  }

  predicate Completes(s: State, w: Work) {
    Joins(w) && !s.failed && !s.completed && s.heard + {w.kind} == {VersionMessage, VerackMessage}
  }

  function NextWork(s: State, w: Work, ok: bool): Work {
    match w
    case Handling(_) => if Completes(s, w) then Storing else Done
    case Storing => if ok then Unpending else Done
    case Unpending => SubscribingStop
    case SubscribingStop => AttachingPing
    case AttachingPing => AttachingReject
    case AttachingReject => AttachingAddress
    case AttachingAddress => Done
    case Done => Done
  }

  /** A failed store stops the channel; a subscription on a stopped channel is refused. */
  function Effect(c: Config, s: State, w: Work, ok: bool): State {
    s.(heard := if Joins(w) then s.heard + {w.kind} else s.heard,
       completed := s.completed || Completes(s, w),
       stopped := s.stopped || (w.Storing? && !ok),
       subs := if s.stopped then s.subs
               else s.subs + (match w
                              case AttachingPing => PingKinds(c)
                              case AttachingReject => RejectKinds(c)
                              case AttachingAddress => AddressKinds(c)
                              case _ => {}))
  }

  function Next(c: Config, s: State, ev: Event): State {
    match ev
    case Receive(k) =>
      if !s.reading || s.stopped then s
      else s.(reading := false,
              reader := if c.sync(k) then Handling(k) else Done,
              workers := if c.sync(k) then s.workers else s.workers + [Handling(k)])
    case ReaderStep(ok) => Effect(c, s, s.reader, ok).(reader := NextWork(s, s.reader, ok))
    case WorkerStep(i, ok) =>
      if i >= |s.workers| then s
      else Effect(c, s, s.workers[i], ok).(workers := s.workers[i := NextWork(s, s.workers[i], ok)])
    case NextHeading => s.(reading := s.reading || (s.reader.Done? && !s.stopped))
    case HandshakeFails => s.(failed := s.failed || !s.completed, stopped := s.stopped || !s.completed)
    case Stop => s.(stopped := true)
  }

  function Run(c: Config, s: State, evs: seq<Event>): State
    decreases |evs|
  {
    if evs == [] then s else Run(c, Next(c, s, evs[0]), evs[1..])
  }

  /** A heading read is out on a live channel while some protocol is not listening. */
  predicate Gap(c: Config, s: State) {
    s.completed && s.reading && !s.stopped && !(Required(c) <= s.subs)
  }

  /** What is subscribed once the chain has come to this point. */
  predicate Attached(c: Config, w: Work, subs: set<Kind>) {
    match w
    case AttachingReject => PingKinds(c) <= subs
    case AttachingAddress => PingKinds(c) + RejectKinds(c) <= subs
    case Done => Required(c) <= subs
    case Handling(_) => Required(c) <= subs
    case _ => true
  }

  predicate Chained(w: Work) {
    !w.Handling? && !w.Done?
  }

  /** With version and verack handled on the reading thread, the chain is always its. */
  ghost predicate Inv(c: Config, s: State) {
    && (s.reading ==> s.reader.Done?)
    && (forall i :: 0 <= i < |s.workers| ==> !Chained(s.workers[i]) && !Joins(s.workers[i]))
    && (Chained(s.reader) ==> s.completed)
    && (s.completed ==> s.stopped || Attached(c, s.reader, s.subs))
  }

  lemma ReaderInv(c: Config, s: State, ok: bool)
    requires Inv(c, s)
    ensures Inv(c, Next(c, s, ReaderStep(ok)))
  {
  }

  lemma WorkerInv(c: Config, s: State, i: nat, ok: bool)
    requires Inv(c, s)
    ensures Inv(c, Next(c, s, WorkerStep(i, ok)))
  {
  }

  lemma NextInv(c: Config, s: State, ev: Event)
    requires Inv(c, s) && c.sync(VersionMessage) && c.sync(VerackMessage)
    ensures Inv(c, Next(c, s, ev))
  {
    match ev
    case ReaderStep(ok) => ReaderInv(c, s, ok);
    case WorkerStep(i, ok) => WorkerInv(c, s, i, ok);
    case _ =>
  }

  lemma {:induction false} RunInv(c: Config, s: State, evs: seq<Event>)
    requires Inv(c, s) && c.sync(VersionMessage) && c.sync(VerackMessage)
    ensures Inv(c, Run(c, s, evs))
    decreases |evs|
  {
    if evs != [] {
      NextInv(c, s, evs[0]);
      RunInv(c, Next(c, s, evs[0]), evs[1..]);
    }
  }

  /** As the source dispatches them, no run has a gap. */
  lemma NoMessageGap(c: Config, evs: seq<Event>)
    requires forall k :: c.sync(k) == Synchronous(k)
    ensures !Gap(c, Run(c, INIT, evs))
  {
    RunInv(c, INIT, evs);
  }

  /** A message received and handled at once, then the next heading read. */
  function Handled(k: Kind, sync: bool): seq<Event> {
    [Receive(k), if sync then ReaderStep(true) else WorkerStep(1, true), NextHeading]
  }

  /** The two messages of the handshake, the first of them relayed and running late. */
  function LateRun(late: Kind, other: Kind, sync: bool): seq<Event> {
    [Receive(late), NextHeading] + (Handled(other, sync) + [WorkerStep(0, true)])
  }

  /** One message is relayed and left waiting while the reader goes on. */
  lemma LateStart(c: Config, late: Kind, rest: seq<Event>)
    requires !c.sync(late)
    ensures Run(c, INIT, [Receive(late), NextHeading] + rest) ==
            Run(c, INIT.(workers := [Handling(late)]), rest)
  {
    var evs := [Receive(late), NextHeading] + rest;
    var s1 := Next(c, INIT, evs[0]);
    assert s1 == INIT.(reading := false, workers := [Handling(late)]);
    assert evs[1..][1..] == rest;
    assert Run(c, s1, evs[1..]) == Run(c, Next(c, s1, NextHeading), rest);
  }

  /** The other is handled, wherever, and the reader goes on again. */
  lemma OtherHandled(c: Config, late: Kind, other: Kind, rest: seq<Event>)
    requires late != other && (other == VersionMessage || other == VerackMessage)
    requires late == VersionMessage || late == VerackMessage
    ensures var s := INIT.(workers := [Handling(late)]);
            Run(c, s, Handled(other, c.sync(other)) + rest) ==
            Run(c, s.(heard := {other}, workers := s.workers + if c.sync(other) then [] else [Done]), rest)
  {
    var s := INIT.(workers := [Handling(late)]);
    var evs := Handled(other, c.sync(other)) + rest;
    var s1 := Next(c, s, evs[0]);
    var s2 := Next(c, s1, evs[1]);
    assert evs[1..][1..][1..] == rest;
    assert late !in {other};
    assert s2.heard == {other} && !s2.completed;
    assert s2.workers == s.workers + if c.sync(other) then [] else [Done];
    assert Next(c, s2, NextHeading) == s.(heard := {other}, workers := s2.workers);
    assert Run(c, s1, evs[1..]) == Run(c, s2, evs[1..][1..]);
    assert Run(c, s2, evs[1..][1..]) == Run(c, Next(c, s2, NextHeading), rest);
  }

  lemma RelayedGap(c: Config, late: Kind, other: Kind)
    requires late != other && (other == VersionMessage || other == VerackMessage)
    requires late == VersionMessage || late == VerackMessage
    requires !c.sync(late)
    ensures Gap(c, Run(c, INIT, LateRun(late, other, c.sync(other))))
  {
    var last := [WorkerStep(0, true)];
    LateStart(c, late, Handled(other, c.sync(other)) + last);
    OtherHandled(c, late, other, last);
    var s := INIT.(heard := {other}, workers := [Handling(late)] + if c.sync(other) then [] else [Done]);
    assert Run(c, s, last) == Run(c, Next(c, s, last[0]), []);
    assert s.heard + {late} == {VersionMessage, VerackMessage};
    assert PingMessage in Required(c);
  }

  ghost predicate GapFree(c: Config) {
    forall evs :: !Gap(c, Run(c, INIT, evs))
  }

  /** Synchronous handling of both messages is exactly what rules the gap out. */
  lemma GapFreeIff(c: Config)
    ensures GapFree(c) <==> c.sync(VersionMessage) && c.sync(VerackMessage)
  {
    if c.sync(VersionMessage) && c.sync(VerackMessage) {
      forall evs
        ensures !Gap(c, Run(c, INIT, evs))
      {
        RunInv(c, INIT, evs);
      }
    } else {
      var late, other := if c.sync(VersionMessage) then VerackMessage else VersionMessage,
                         if c.sync(VersionMessage) then VersionMessage else VerackMessage;
      RelayedGap(c, late, other);
    }
  }
}
