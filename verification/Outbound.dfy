/** The outbound session: its connect batches, the registration of each channel, and
    the network's collections of channels, as one machine over callbacks. There are
    no slot objects in the source; what keeps a connection slot alive is that some
    callback is outstanding for it, and that is what is counted here. */
module Outbound {
  import opened Codes
  import opened Collections
  import opened Sums
  import opened Synchronize

  /** `size` is the batch size, at least 1; `slots` the configured connections. */
  datatype Config = Config(slots: nat, size: nat)

  /** One `session_batch::connect`: how many attempts its loop has started, how many of
      them are with a connector, and the join they all report to. */
  datatype Batch = Batch(next: nat, inflight: nat, join: Join)

  /** Where the registration of a channel has got to. */
  datatype Registration =
    | Foreign                                   // open, owned by another session
    | Gone                                      // was foreign
    | Entered                                   // register_channel
    | Pending                                   // about to pend the channel
    | Starting                                  // pended, about to start the channel
    | Handshaking                               // pended and started
    | Storing                                   // handshake succeeded
    | Unpending(ec: Code)                       // do_unpend
    | Concluding(ec: Code)                      // handle_start
    | Ending(ec: Code, announce: bool)          // handle_stopped(ec) is next
    | Subscribed                                // handle_remove awaits the stop
    | Delivering                                // the stop has reached handle_remove
    | Removed                                   // removed, handle_stopped is next
    | Over

  /** `stopped`, `closed` and `relayed` are the three points of `proxy::stop`: the flag,
      the stop subscriber closed, and its subscribers notified. `due` is the outstanding
      call of the start handler; `started` and `ended` are the calls made of the start
      and stop handlers. */
  datatype Channel = Channel(authority: nat, reg: Registration, due: Option<Code>,
                             started: seq<Code>, ended: seq<Code>,
                             stopped: bool, closed: bool, relayed: bool)

  datatype State = State(stopped: bool, netStopped: bool, spawned: nat,
                         batches: seq<Batch>, delayed: nat, channels: seq<Channel>,
                         handshake: seq<nat>, close: seq<nat>)

  datatype Event =
    | Spawn
    | Attempt(batch: nat, failure: Option<Code>)
    | Report(batch: nat, ec: Code, authority: nat)
    | DelayElapsed
    | Advance(channel: nat)
    | HandshakeDone(channel: nat, ec: Code)
    | Announce(channel: nat)
    | StopFlag(channel: nat)
    | StopClose(channel: nat)
    | StopRelay(channel: nat)
    | SessionStop
    | NetworkStop
    | ForeignStore(authority: nat)
    | ForeignRemove(channel: nat)

  const INIT: State := State(false, false, 0, [], 0, [], [], [])

  predicate InUse(s: State, authority: nat) {
    exists i :: 0 <= i < |s.close| && s.close[i] < |s.channels| && s.channels[s.close[i]].authority == authority
  }

  // Connecting.

  function NewBatch(c: Config): Batch {
    Batch(0, 0, Fresh(c.size, OnSuccess))
  }

  /** `session_outbound::new_connection`. */
  function NewConnection(c: Config, s: State): seq<Batch> {
    if s.stopped then s.batches else s.batches + [NewBatch(c)]
  }

  function NewChannel(authority: nat): Channel {
    Channel(authority, Entered, None, [], [], false, false, false)
  }

  /** One attempt of a batch reports; if that decides the join, `handle_connect` either
      schedules a retry or registers the channel. A later success is dropped. */
  function Reported(s: State, b: nat, batch: Batch, ec: Code, authority: nat): State
    requires b < |s.batches|
  {
    var (join, fires) := batch.join.Call(ec);
    s.(batches := s.batches[b := batch.(join := join)],
       delayed := s.delayed + Bit(fires && ec != Success),
       channels := s.channels + if fires && ec == Success then [NewChannel(authority)] else [])
  }

  function OnAttempt(c: Config, s: State, b: nat, failure: Option<Code>): State {
    if b >= |s.batches| || s.batches[b].next >= c.size || failure == Some(Success) then s
    else
      var batch := s.batches[b].(next := s.batches[b].next + 1);
      if s.stopped then Reported(s, b, batch, ChannelStopped, 0)
      else if failure.Some? then Reported(s, b, batch, failure.value, 0)
      else s.(batches := s.batches[b := batch.(inflight := batch.inflight + 1)])
  }

  function OnReport(s: State, b: nat, ec: Code, authority: nat): State {
    if b >= |s.batches| || s.batches[b].inflight == 0 then s
    else Reported(s, b, s.batches[b].(inflight := s.batches[b].inflight - 1), ec, authority)
  }

  // Registration.

  function StoreCode(s: State, ch: Channel): Code {
    if s.netStopped then ServiceStopped else if InUse(s, ch.authority) then AddressInUse else Success
  }

  /** The next point of a registration. */
  function NextReg(s: State, ch: Channel): Registration {
    match ch.reg
    case Entered => if s.stopped then Ending(ServiceStopped, false) else Pending
    case Pending => if s.netStopped then Unpending(ServiceStopped) else Starting
    case Starting => Handshaking
    case Storing => Unpending(StoreCode(s, ch))
    case Unpending(ec) => Concluding(ec)
    case Concluding(ec) =>
      if ec != Success then Ending(ec, true) else if ch.closed then Delivering else Subscribed
    case Ending(_, _) => Over
    case Delivering => Removed
    case Removed => Over
    case r => r
  }

  /** The start handler's call, when this step makes it due. */
  function NextDue(ch: Channel): Option<Code> {
    match ch.reg
    case Concluding(ec) => if ec == Success then Some(Success) else ch.due
    case Ending(ec, announce) => if announce then Some(ec) else ch.due
    case _ => ch.due
  }

  /** Starting a channel reopens it: `proxy::start` clears the stop flag and restarts the
      subscribers, whatever stopped it before. */
  function AdvanceChannel(s: State, ch: Channel): Channel {
    var failing := ch.reg.Concluding? && ch.reg.ec != Success;
    var reopens := ch.reg.Starting?;
    ch.(reg := NextReg(s, ch),
        due := NextDue(ch),
        started := ch.started + if ch.reg.Entered? && s.stopped then [ServiceStopped] else [],
        ended := ch.ended + (if ch.reg.Ending? then [ch.reg.ec] else if ch.reg.Removed? then [Success] else []),
        stopped := (ch.stopped && !reopens) || failing,
        closed := (ch.closed && !reopens) || failing,
        relayed := (ch.relayed && !reopens) || failing)
  }

  function OnAdvance(c: Config, s: State, i: nat): State {
    if i >= |s.channels| then s
    else
      var ch := s.channels[i];
      s.(channels := s.channels[i := AdvanceChannel(s, ch)],
         handshake := if ch.reg.Pending? && !s.netStopped then s.handshake + [i]
                      else if ch.reg.Unpending? then Without(s.handshake, i) else s.handshake,
         close := if ch.reg.Storing? && StoreCode(s, ch) == Success then s.close + [i]
                  else if ch.reg.Delivering? then Without(s.close, i) else s.close,
         batches := if ch.reg.Ending? || ch.reg.Removed? then NewConnection(c, s) else s.batches)
  }

  /** The steps that touch one channel only. */
  function Touch(ch: Channel, ev: Event): Channel {
    match ev
    case HandshakeDone(_, ec) =>
      ch.(reg := if !ch.reg.Handshaking? then ch.reg else if ec == Success then Storing else Unpending(ec))
    case Announce(_) =>
      ch.(due := None, started := ch.started + if ch.due.Some? then [ch.due.value] else [])
    case StopFlag(_) => ch.(stopped := true)
    case StopClose(_) => ch.(closed := ch.closed || ch.stopped)
    case StopRelay(_) =>
      ch.(relayed := ch.relayed || ch.closed,
          reg := if ch.closed && ch.reg.Subscribed? then Delivering else ch.reg)
    case _ => ch
  }

  function OnTouch(s: State, i: nat, ev: Event): State {
    if i >= |s.channels| then s else s.(channels := s.channels[i := Touch(s.channels[i], ev)])
  }

  function OnForeignStore(s: State, authority: nat): State {
    if s.netStopped || InUse(s, authority) then s
    else s.(channels := s.channels + [NewChannel(authority).(reg := Foreign)],
            close := s.close + [|s.channels|])
  }

  function OnForeignRemove(s: State, i: nat): State {
    if i >= |s.channels| || !s.channels[i].reg.Foreign? then s
    else s.(channels := s.channels[i := s.channels[i].(reg := Gone)], close := Without(s.close, i))
  }

  function OnSpawn(c: Config, s: State): State {
    if s.spawned >= c.slots then s
    else s.(spawned := s.spawned + 1, batches := NewConnection(c, s))
  }

  function OnDelayElapsed(c: Config, s: State): State {
    if s.delayed == 0 then s else s.(delayed := s.delayed - 1, batches := NewConnection(c, s))
  }

  function Next(c: Config, s: State, ev: Event): State {
    match ev
    case Spawn => OnSpawn(c, s)
    case Attempt(b, failure) => OnAttempt(c, s, b, failure)
    case Report(b, ec, authority) => OnReport(s, b, ec, authority)
    case DelayElapsed => OnDelayElapsed(c, s)
    case Advance(i) => OnAdvance(c, s, i)
    case HandshakeDone(i, _) => OnTouch(s, i, ev)
    case Announce(i) => OnTouch(s, i, ev)
    case StopFlag(i) => OnTouch(s, i, ev)
    case StopClose(i) => OnTouch(s, i, ev)
    case StopRelay(i) => OnTouch(s, i, ev)
    case SessionStop => s.(stopped := true)
    case NetworkStop => s.(netStopped := s.netStopped || s.stopped)
    case ForeignStore(authority) => OnForeignStore(s, authority)
    case ForeignRemove(i) => OnForeignRemove(s, i)
  }

  function Run(c: Config, s: State, evs: seq<Event>): State
    decreases |evs|
  {
    if evs == [] then s else Run(c, Next(c, s, evs[0]), evs[1..])
  }

  // Slots.

  function Live(b: Batch): nat {
    Bit(!b.join.Cleared())
  }

  function Owned(ch: Channel): nat {
    Bit(!ch.reg.Foreign? && !ch.reg.Gone? && !ch.reg.Over?)
  }

  /** Slots in flight: undecided batches, delayed retries, and channels from the start
      of their registration to the end of their stop. */
  function Slots(s: State): nat {
    Sum(s.batches, Live) + s.delayed + Sum(s.channels, Owned)
  }

  ghost predicate BatchOk(c: Config, b: Batch) {
    && b.join.limit == c.size && b.join.mode == OnSuccess && b.next <= c.size
    && (!b.join.Cleared() ==> b.join.count + b.inflight == b.next)
  }

  ghost predicate Conserved(c: Config, s: State) {
    && c.size > 0
    && (forall b :: 0 <= b < |s.batches| ==> BatchOk(c, s.batches[b]))
    && s.spawned <= c.slots
    && (if s.stopped then Slots(s) <= s.spawned else Slots(s) == s.spawned)
  }

  lemma NewConnectionSlots(c: Config, s: State)
    requires c.size > 0
    ensures Sum(NewConnection(c, s), Live) == Sum(s.batches, Live) + Bit(!s.stopped)
  {
    SumAppend(s.batches, NewBatch(c), Live);
  }

  lemma ReportedSlots(s: State, b: nat, batch: Batch, ec: Code, authority: nat)
    requires b < |s.batches| && batch.join == s.batches[b].join
    ensures Slots(Reported(s, b, batch, ec, authority)) == Slots(s)
  {
    var (join, fires) := batch.join.Call(ec);
    SumUpdate(s.batches, b, batch.(join := join), Live);
    SumAppend(s.channels, NewChannel(authority), Owned);
    assert s.channels + [] == s.channels;
  }

  lemma AdvanceOwned(s: State, ch: Channel)
    ensures Owned(AdvanceChannel(s, ch)) == Owned(ch) - Bit(ch.reg.Ending? || ch.reg.Removed?)
  {
  }

  lemma AdvanceSlots(c: Config, s: State, i: nat)
    requires c.size > 0 && i < |s.channels|
    ensures var ends := s.channels[i].reg.Ending? || s.channels[i].reg.Removed?;
            Slots(OnAdvance(c, s, i)) == Slots(s) - Bit(ends && s.stopped)
  {
    NewConnectionSlots(c, s);
    AdvanceOwned(s, s.channels[i]);
    SumUpdate(s.channels, i, AdvanceChannel(s, s.channels[i]), Owned);
  }

  lemma BatchAdded(c: Config, s: State)
    requires c.size > 0
    requires forall b :: 0 <= b < |s.batches| ==> BatchOk(c, s.batches[b])
    ensures forall b :: 0 <= b < |NewConnection(c, s)| ==> BatchOk(c, NewConnection(c, s)[b])
  {
  }

  lemma SpawnConserved(c: Config, s: State)
    requires Conserved(c, s)
    ensures Conserved(c, OnSpawn(c, s))
    ensures s.stopped ==> Slots(OnSpawn(c, s)) == Slots(s)
  {
    NewConnectionSlots(c, s);
    BatchAdded(c, s);
  }

  lemma DelayConserved(c: Config, s: State)
    requires Conserved(c, s)
    ensures Conserved(c, OnDelayElapsed(c, s))
    ensures Slots(OnDelayElapsed(c, s)) <= Slots(s)
  {
    NewConnectionSlots(c, s);
    BatchAdded(c, s);
  }

  lemma AdvanceConserved(c: Config, s: State, i: nat)
    requires Conserved(c, s)
    ensures Conserved(c, OnAdvance(c, s, i))
    ensures Slots(OnAdvance(c, s, i)) <= Slots(s)
  {
    if i < |s.channels| {
      AdvanceSlots(c, s, i);
      BatchAdded(c, s);
    }
  }

  lemma ForeignConserved(c: Config, s: State, authority: nat, i: nat)
    requires Conserved(c, s)
    ensures Conserved(c, OnForeignStore(s, authority)) && Conserved(c, OnForeignRemove(s, i))
    ensures Slots(OnForeignStore(s, authority)) == Slots(s) == Slots(OnForeignRemove(s, i))
  {
    SumAppend(s.channels, NewChannel(authority).(reg := Foreign), Owned);
    if i < |s.channels| {
      SumUpdate(s.channels, i, s.channels[i].(reg := Gone), Owned);
    }
  }

  lemma TouchConserved(c: Config, s: State, i: nat, ev: Event)
    requires Conserved(c, s)
    ensures Conserved(c, OnTouch(s, i, ev)) && Slots(OnTouch(s, i, ev)) == Slots(s)
  {
    if i < |s.channels| {
      SumUpdate(s.channels, i, Touch(s.channels[i], ev), Owned);
    }
  }

  /** The steps that change one channel's own fields or a flag. */
  predicate Plain(ev: Event) {
    ev.SessionStop? || ev.NetworkStop? || ev.HandshakeDone? || ev.Announce? ||
    ev.StopFlag? || ev.StopClose? || ev.StopRelay?
  }

  lemma PlainConserved(c: Config, s: State, ev: Event)
    requires Conserved(c, s) && Plain(ev)
    ensures Conserved(c, Next(c, s, ev)) && Slots(Next(c, s, ev)) == Slots(s)
  {
    if !ev.SessionStop? && !ev.NetworkStop? {
      TouchConserved(c, s, ev.channel, ev);
    }
  }

  lemma AttemptConserved(c: Config, s: State, b: nat, failure: Option<Code>)
    requires Conserved(c, s)
    ensures Conserved(c, OnAttempt(c, s, b, failure))
    ensures Slots(OnAttempt(c, s, b, failure)) == Slots(s)
  {
    if b < |s.batches| && s.batches[b].next < c.size && failure != Some(Success) {
      var batch := s.batches[b].(next := s.batches[b].next + 1);
      if s.stopped {
        ReportedSlots(s, b, batch, ChannelStopped, 0);
      } else if failure.Some? {
        ReportedSlots(s, b, batch, failure.value, 0);
      } else {
        SumUpdate(s.batches, b, batch.(inflight := batch.inflight + 1), Live);
      }
    }
  }

  lemma ReportConserved(c: Config, s: State, b: nat, ec: Code, authority: nat)
    requires Conserved(c, s)
    ensures Conserved(c, OnReport(s, b, ec, authority))
    ensures Slots(OnReport(s, b, ec, authority)) == Slots(s)
  {
    if b < |s.batches| && s.batches[b].inflight > 0 {
      ReportedSlots(s, b, s.batches[b].(inflight := s.batches[b].inflight - 1), ec, authority);
    }
  }

  lemma NextConserved(c: Config, s: State, ev: Event)
    requires Conserved(c, s)
    ensures Conserved(c, Next(c, s, ev))
    ensures s.stopped ==> Slots(Next(c, s, ev)) <= Slots(s)
  {
    match ev
    case Spawn => SpawnConserved(c, s);
    case DelayElapsed => DelayConserved(c, s);
    case Attempt(b, failure) => AttemptConserved(c, s, b, failure);
    case Report(b, ec, authority) => ReportConserved(c, s, b, ec, authority);
    case Advance(i) => AdvanceConserved(c, s, i);
    case ForeignStore(authority) => ForeignConserved(c, s, authority, 0);
    case ForeignRemove(i) => ForeignConserved(c, s, 0, i);
    case _ => PlainConserved(c, s, ev);
  }

  lemma {:induction false} RunConserved(c: Config, s: State, evs: seq<Event>)
    requires Conserved(c, s)
    ensures Conserved(c, Run(c, s, evs))
    ensures s.stopped ==> Slots(Run(c, s, evs)) <= Slots(s)
    decreases |evs|
  {
    if evs != [] {
      NextConserved(c, s, evs[0]);
      RunConserved(c, Next(c, s, evs[0]), evs[1..]);
      assert s.stopped ==> Next(c, s, evs[0]).stopped;
    }
  }

  // Exactly-once callbacks, per channel.

  predicate StartsOnce(ch: Channel) {
    |ch.started| + Bit(ch.due.Some?) == 1
  }

  predicate Unannounced(ch: Channel) {
    ch.started == [] && ch.due == None
  }

  predicate ChannelOk(ch: Channel) {
    && (ch.relayed ==> ch.closed) && (ch.closed ==> ch.stopped)
    && (ch.relayed ==> !ch.reg.Subscribed?)
    && (!ch.reg.Over? ==> ch.ended == [])
    && match ch.reg
       case Over => |ch.ended| == 1 && StartsOnce(ch)
       case Ending(ec, announce) =>
         ec != Success && if announce then Unannounced(ch) else StartsOnce(ch) && ch.due == None
       case Subscribed => StartsOnce(ch)
       case Delivering => StartsOnce(ch)
       case Removed => StartsOnce(ch)
       case _ => Unannounced(ch)
  }

  ghost predicate ChannelsOk(s: State) {
    forall i :: 0 <= i < |s.channels| ==> ChannelOk(s.channels[i])
  }

  lemma AdvanceOk(s: State, ch: Channel)
    requires ChannelOk(ch)
    ensures ChannelOk(AdvanceChannel(s, ch))
  {
  }

  lemma TouchOk(ch: Channel, ev: Event)
    requires ChannelOk(ch)
    ensures ChannelOk(Touch(ch, ev))
  {
  }

  lemma NextChannelsOk(c: Config, s: State, ev: Event)
    requires ChannelsOk(s)
    ensures ChannelsOk(Next(c, s, ev))
  {
    forall ch | ChannelOk(ch)
      ensures ChannelOk(AdvanceChannel(s, ch)) && ChannelOk(Touch(ch, ev))
    {
      AdvanceOk(s, ch);
      TouchOk(ch, ev);
    }
  }

  // The network's collections.

  /** The channel is in the handshake collection for sure. */
  predicate Pended(r: Registration) {
    r.Starting? || r.Handshaking? || r.Storing? || r == Unpending(Success)
  }

  /** The channel is in the collection of open connections. */
  predicate Stored(r: Registration) {
    r.Foreign? || r == Unpending(Success) || r == Concluding(Success) || r.Subscribed? || r.Delivering?
  }

  ghost predicate HandshakeTracked(list: seq<nat>, channels: seq<Channel>) {
    && NoDup(list)
    && (forall i :: i in list ==> i < |channels| && (Pended(channels[i].reg) || channels[i].reg.Unpending?))
    && (forall i :: 0 <= i < |channels| && Pended(channels[i].reg) ==> i in list)
  }

  ghost predicate CloseTracked(list: seq<nat>, channels: seq<Channel>) {
    && NoDup(list)
    && (forall i :: i in list ==> i < |channels|)
    && (forall i :: 0 <= i < |channels| ==> (Stored(channels[i].reg) <==> i in list))
  }

  /** Open connections have pairwise distinct authorities. */
  ghost predicate Distinct(list: seq<nat>, channels: seq<Channel>) {
    forall i, j :: 0 <= i < j < |channels| && i in list && j in list ==>
      channels[i].authority != channels[j].authority
  }

  ghost predicate Tracked(s: State) {
    && HandshakeTracked(s.handshake, s.channels)
    && CloseTracked(s.close, s.channels)
    && Distinct(s.close, s.channels)
  }

  /** Two lists that differ in nothing but perhaps i. */
  ghost predicate SameBut(list: seq<nat>, list': seq<nat>, i: nat) {
    NoDup(list') && forall j :: j != i ==> (j in list' <==> j in list)
  }

  lemma HandshakeUpdate(list: seq<nat>, list': seq<nat>, channels: seq<Channel>, i: nat, ch: Channel)
    requires HandshakeTracked(list, channels) && i < |channels| && SameBut(list, list', i)
    requires i in list' ==> Pended(ch.reg) || ch.reg.Unpending?
    requires Pended(ch.reg) ==> i in list'
    ensures HandshakeTracked(list', channels[i := ch])
  {
  }

  lemma CloseUpdate(list: seq<nat>, list': seq<nat>, channels: seq<Channel>, i: nat, ch: Channel)
    requires CloseTracked(list, channels) && i < |channels| && SameBut(list, list', i)
    requires Stored(ch.reg) <==> i in list'
    ensures CloseTracked(list', channels[i := ch])
  {
  }

  lemma DistinctUpdate(list: seq<nat>, list': seq<nat>, channels: seq<Channel>, i: nat, ch: Channel)
    requires Distinct(list, channels) && i < |channels| && SameBut(list, list', i)
    requires ch.authority == channels[i].authority
    requires i in list' && i !in list ==>
               forall j :: 0 <= j < |channels| && j in list ==> channels[j].authority != ch.authority
    ensures Distinct(list', channels[i := ch])
  {
  }

  lemma AppendSameBut(list: seq<nat>, i: nat)
    requires NoDup(list) && i !in list
    ensures SameBut(list, list + [i], i)
  {
  }

  lemma WithoutSameBut(list: seq<nat>, i: nat)
    requires NoDup(list)
    ensures SameBut(list, Without(list, i), i) && i !in Without(list, i)
  {
    WithoutNoDup(list, i);
    forall j: nat
      ensures j != i ==> (j in Without(list, i) <==> j in list)
    {
      WithoutHas(list, i, j);
    }
  }

  lemma AdvanceHandshake(c: Config, s: State, i: nat)
    requires HandshakeTracked(s.handshake, s.channels) && i < |s.channels|
    ensures HandshakeTracked(OnAdvance(c, s, i).handshake, OnAdvance(c, s, i).channels)
  {
    var s' := OnAdvance(c, s, i);
    WithoutSameBut(s.handshake, i);
    if s.channels[i].reg.Pending? {
      AppendSameBut(s.handshake, i);
    }
    HandshakeUpdate(s.handshake, s'.handshake, s.channels, i, s'.channels[i]);
  }

  lemma AdvanceClose(c: Config, s: State, i: nat)
    requires CloseTracked(s.close, s.channels) && Distinct(s.close, s.channels) && i < |s.channels|
    ensures CloseTracked(OnAdvance(c, s, i).close, OnAdvance(c, s, i).channels)
    ensures Distinct(OnAdvance(c, s, i).close, OnAdvance(c, s, i).channels)
  {
    var ch := s.channels[i];
    var ch' := AdvanceChannel(s, ch);
    var close' := OnAdvance(c, s, i).close;
    assert SameBut(s.close, close', i) && (Stored(ch'.reg) <==> i in close') by {
      if ch.reg.Storing? {
        AppendSameBut(s.close, i);
      } else if ch.reg.Delivering? {
        WithoutSameBut(s.close, i);
      }
    }
    NotInUse(s, ch.authority);
    CloseUpdate(s.close, close', s.channels, i, ch');
    DistinctUpdate(s.close, close', s.channels, i, ch');
  }

  lemma NotInUse(s: State, authority: nat)
    ensures !InUse(s, authority) ==>
              forall j :: 0 <= j < |s.channels| && j in s.close ==> s.channels[j].authority != authority
  {
    if j :| 0 <= j < |s.channels| && j in s.close && s.channels[j].authority == authority {
      var k :| 0 <= k < |s.close| && s.close[k] == j;
    }
  }

  lemma TouchTracked(s: State, i: nat, ev: Event)
    requires Tracked(s)
    ensures Tracked(OnTouch(s, i, ev))
  {
    if i < |s.channels| {
      var ch := Touch(s.channels[i], ev);
      HandshakeUpdate(s.handshake, s.handshake, s.channels, i, ch);
      CloseUpdate(s.close, s.close, s.channels, i, ch);
      DistinctUpdate(s.close, s.close, s.channels, i, ch);
    }
  }

  lemma ForeignStoreTracked(s: State, authority: nat)
    requires Tracked(s)
    ensures Tracked(OnForeignStore(s, authority))
  {
    NotInUse(s, authority);
    AppendSameBut(s.close, |s.channels|);
  }

  lemma ForeignRemoveTracked(s: State, i: nat)
    requires Tracked(s)
    ensures Tracked(OnForeignRemove(s, i))
  {
    if i < |s.channels| && s.channels[i].reg.Foreign? {
      var s' := OnForeignRemove(s, i);
      WithoutSameBut(s.close, i);
      HandshakeUpdate(s.handshake, s.handshake, s.channels, i, s'.channels[i]);
      CloseUpdate(s.close, s'.close, s.channels, i, s'.channels[i]);
      DistinctUpdate(s.close, s'.close, s.channels, i, s'.channels[i]);
    }
  }

  lemma ReportedTracked(s: State, b: nat, batch: Batch, ec: Code, authority: nat)
    requires Tracked(s) && b < |s.batches|
    ensures Tracked(Reported(s, b, batch, ec, authority))
  {
  }

  lemma NextTracked(c: Config, s: State, ev: Event)
    requires Tracked(s)
    ensures Tracked(Next(c, s, ev))
  {
    match ev
    case Spawn =>
    case DelayElapsed =>
    case SessionStop =>
    case NetworkStop =>
    case Attempt(b, failure) =>
      if b < |s.batches| {
        var batch := s.batches[b].(next := s.batches[b].next + 1);
        ReportedTracked(s, b, batch, ChannelStopped, 0);
        ReportedTracked(s, b, batch, if failure.Some? then failure.value else Success, 0);
      }
    case Report(b, ec, authority) =>
      if b < |s.batches| && s.batches[b].inflight > 0 {
        ReportedTracked(s, b, s.batches[b].(inflight := s.batches[b].inflight - 1), ec, authority);
      }
    case Advance(i) =>
      if i < |s.channels| {
        AdvanceHandshake(c, s, i);
        AdvanceClose(c, s, i);
      }
    case ForeignStore(authority) => ForeignStoreTracked(s, authority);
    case ForeignRemove(i) => ForeignRemoveTracked(s, i);
    case HandshakeDone(i, _) => TouchTracked(s, i, ev);
    case Announce(i) => TouchTracked(s, i, ev);
    case StopFlag(i) => TouchTracked(s, i, ev);
    case StopClose(i) => TouchTracked(s, i, ev);
    case StopRelay(i) => TouchTracked(s, i, ev);
  }

  // Main results, over every run.

  ghost predicate Inv(c: Config, s: State) {
    Conserved(c, s) && ChannelsOk(s) && Tracked(s)
  }

  lemma {:induction false} RunInv(c: Config, s: State, evs: seq<Event>)
    requires Inv(c, s)
    ensures Inv(c, Run(c, s, evs))
    decreases |evs|
  {
    if evs != [] {
      NextConserved(c, s, evs[0]);
      NextChannelsOk(c, s, evs[0]);
      NextTracked(c, s, evs[0]);
      RunInv(c, Next(c, s, evs[0]), evs[1..]);
    }
  }

  /** Until the session stops, the slots in flight are exactly those started, so once
      the start loop is done they are exactly the configured number; they never exceed
      it; and no slot is stranded in an undecided batch with nobody left to report. */
  lemma SlotConservation(c: Config, evs: seq<Event>)
    requires c.size > 0
    ensures var s := Run(c, INIT, evs);
            && Slots(s) <= s.spawned <= c.slots
            && (!s.stopped ==> Slots(s) == s.spawned)
            && forall b :: 0 <= b < |s.batches| && !s.batches[b].join.Cleared() ==>
                 s.batches[b].inflight > 0 || s.batches[b].next < c.size
  {
    RunInv(c, INIT, evs);
    var s := Run(c, INIT, evs);
    assert forall b :: 0 <= b < |s.batches| ==> BatchOk(c, s.batches[b]);
  }

  /** After the session stops, the slots in flight never grow. */
  lemma SlotsNeverGrowAfterStop(c: Config, evs: seq<Event>, more: seq<Event>)
    requires c.size > 0 && Run(c, INIT, evs).stopped
    ensures Slots(Run(c, Run(c, INIT, evs), more)) <= Slots(Run(c, INIT, evs))
  {
    RunConserved(c, INIT, evs);
    RunConserved(c, Run(c, INIT, evs), more);
  }

  ghost function OwnOpen(s: State): set<nat> {
    set i | i in s.close && i < |s.channels| && !s.channels[i].reg.Foreign?
  }

  lemma {:induction false} IndicesBounded(channels: seq<Channel>, ids: set<nat>)
    requires forall i :: i in ids ==> i < |channels| && Owned(channels[i]) == 1
    ensures |ids| <= Sum(channels, Owned)
  {
    if channels != [] {
      var n := |channels| - 1;
      var rest := ids - {n};
      assert forall i :: i in rest ==> channels[..n][i] == channels[i];
      IndicesBounded(channels[..n], rest);
      if n in ids {
        assert ids == rest + {n};
      } else {
        assert rest == ids;
      }
    } else {
      assert ids == {};
    }
  }

  /** Removal precedes reconnection, so the session's own channels among the open
      connections never outnumber the configured slots. */
  lemma OpenBounded(c: Config, evs: seq<Event>)
    requires c.size > 0
    ensures |OwnOpen(Run(c, INIT, evs))| <= c.slots
  {
    RunInv(c, INIT, evs);
    var s := Run(c, INIT, evs);
    IndicesBounded(s.channels, OwnOpen(s));
  }

  /** Nothing of the channel's registration is under way: it waits for its handshake or
      its stop, or it is over. */
  predicate AtRest(ch: Channel) {
    ch.due == None && (ch.reg.Handshaking? || ch.reg.Subscribed? || ch.reg.Over?)
  }

  /** Registration calls each handler at most once, and exactly once as soon as the
      handshake has completed and the channel's stop has been relayed, whichever of
      pend, handshake, store or an earlier stop decided it; and a channel whose stop
      was handled is not among the open connections. */
  lemma RegistrationExactlyOnce(c: Config, evs: seq<Event>, i: nat)
    requires c.size > 0 && i < |Run(c, INIT, evs).channels|
    ensures var s := Run(c, INIT, evs);
            var ch := s.channels[i];
            && |ch.started| <= 1 && |ch.ended| <= 1
            && (AtRest(ch) && !ch.reg.Handshaking? ==> |ch.started| == 1)
            && (AtRest(ch) && !ch.reg.Handshaking? && (ch.relayed || ch.reg.Over?) ==> |ch.ended| == 1)
            && (ch.ended != [] ==> i !in s.close && i !in s.handshake)
  {
    RunInv(c, INIT, evs);
    assert ChannelOk(Run(c, INIT, evs).channels[i]);
  }

  /** The session may still come to start the channel. */
  predicate Reopenable(s: State, ch: Channel) {
    match ch.reg
    case Entered => !s.stopped && !s.netStopped
    case Pending => !s.netStopped
    case Starting => true
    case _ => false
  }

  /** Whatever follows, the channel stays stopped. */
  ghost predicate StopIsFinal(c: Config, s: State, i: nat) {
    forall more :: i < |Run(c, s, more).channels| && Run(c, s, more).channels[i].stopped
  }

  lemma ChannelSticks(s: State, ch: Channel, ev: Event)
    requires ch.stopped && !Reopenable(s, ch)
    ensures AdvanceChannel(s, ch).stopped && !Reopenable(s, AdvanceChannel(s, ch))
    ensures Touch(ch, ev).stopped && !Reopenable(s, Touch(ch, ev))
  {
  }

  lemma StopSticks(c: Config, s: State, ev: Event, i: nat)
    requires i < |s.channels| && s.channels[i].stopped && !Reopenable(s, s.channels[i])
    ensures var s' := Next(c, s, ev);
            i < |s'.channels| && s'.channels[i].stopped && !Reopenable(s', s'.channels[i])
  {
    ChannelSticks(s, s.channels[i], ev);
  }

  lemma {:induction false} StopLasts(c: Config, s: State, more: seq<Event>, i: nat)
    requires i < |s.channels| && s.channels[i].stopped && !Reopenable(s, s.channels[i])
    ensures i < |Run(c, s, more).channels| && Run(c, s, more).channels[i].stopped
    decreases |more|
  {
    if more != [] {
      StopSticks(c, s, more[0], i);
      StopLasts(c, Next(c, s, more[0]), more[1..], i);
    }
  }

  /** The run that reopens it: the session goes on with its registration. */
  lemma Reopens(c: Config, s: State, i: nat) returns (more: seq<Event>)
    requires i < |s.channels| && Reopenable(s, s.channels[i])
    ensures i < |Run(c, s, more).channels| && !Run(c, s, more).channels[i].stopped
    decreases if s.channels[i].reg.Entered? then 2 else if s.channels[i].reg.Pending? then 1 else 0
  {
    var s' := Next(c, s, Advance(i));
    var rest := [];
    if s.channels[i].reg.Starting? {
      assert Run(c, s', rest) == s';
    } else {
      rest := Reopens(c, s', i);
    }
    more := [Advance(i)] + rest;
    assert more[1..] == rest;
  }

  /** A stop of a channel is final exactly when the session can no longer come to start it:
      the channel has been started, or its registration is over or bound to fail. */
  lemma StopFinalIff(c: Config, s: State, i: nat)
    requires i < |s.channels| && s.channels[i].stopped
    ensures StopIsFinal(c, s, i) <==> !Reopenable(s, s.channels[i])
  {
    if Reopenable(s, s.channels[i]) {
      var more := Reopens(c, s, i);
      assert !Run(c, s, more).channels[i].stopped;
    } else {
      forall more
        ensures i < |Run(c, s, more).channels| && Run(c, s, more).channels[i].stopped
      {
        StopLasts(c, s, more, i);
      }
    }
  }

  lemma {:induction false} RunConcat(c: Config, s: State, a: seq<Event>, b: seq<Event>)
    ensures Run(c, s, a + b) == Run(c, Run(c, s, a), b)
    decreases |a|
  {
    if a == [] {
      assert a + b == b;
    } else {
      assert (a + b)[1..] == a[1..] + b;
      RunConcat(c, Next(c, s, a[0]), a[1..], b);
    }
  }

  lemma RunFrom(c: Config, s: State, evs: seq<Event>, k: nat)
    requires k < |evs|
    ensures Run(c, s, evs[k..]) == Run(c, Next(c, s, evs[k]), evs[k + 1..])
  {
    assert evs[k..][1..] == evs[k + 1..];
  }

  /** A channel is connected, registered and pended. */
  function ToPended(authority: nat): seq<Event> {
    [Spawn, Attempt(0, None), Report(0, Success, authority), Advance(0), Advance(0)]
  }

  lemma Pends(c: Config, authority: nat)
    requires c.size > 0 && c.slots > 0
    ensures var s := Run(c, INIT, ToPended(authority));
            s.channels == [NewChannel(authority).(reg := Starting)] && !s.stopped && !s.netStopped
  {
    var evs := ToPended(authority);
    assert evs[0..] == evs;
    RunFrom(c, INIT, evs, 0);
    var s1 := Next(c, INIT, evs[0]);
    RunFrom(c, s1, evs, 1);
    var s2 := Next(c, s1, evs[1]);
    RunFrom(c, s2, evs, 2);
    var s3 := Next(c, s2, evs[2]);
    assert s3.channels == [NewChannel(authority)];
    RunFrom(c, s3, evs, 3);
    var s4 := Next(c, s3, evs[3]);
    RunFrom(c, s4, evs, 4);
    assert Run(c, Next(c, s4, evs[4]), evs[5..]) == Next(c, s4, evs[4]);
  }

  /** The network stops, and with it the pended channel, before the session starts it. */
  const TO_STOPPED: seq<Event> :=
    [SessionStop, NetworkStop, StopFlag(0), StopClose(0), StopRelay(0)]

  lemma Stops(c: Config, s: State, ch: Channel)
    requires s.channels == [ch] && ch.reg.Starting?
    ensures var r := Run(c, s, TO_STOPPED);
            r.netStopped && r.channels == [ch.(stopped := true, closed := true, relayed := true)]
  {
    var evs := TO_STOPPED;
    assert evs[0..] == evs;
    RunFrom(c, s, evs, 0);
    var s1 := Next(c, s, evs[0]);
    RunFrom(c, s1, evs, 1);
    var s2 := Next(c, s1, evs[1]);
    RunFrom(c, s2, evs, 2);
    var s3 := Next(c, s2, evs[2]);
    RunFrom(c, s3, evs, 3);
    var s4 := Next(c, s3, evs[3]);
    RunFrom(c, s4, evs, 4);
    assert Run(c, Next(c, s4, evs[4]), evs[5..]) == Next(c, s4, evs[4]);
  }

  /** A run after which the network has stopped, every part of the channel's stop has been
      made, and the channel is in its handshake, running. */
  lemma StopForgotten(c: Config, authority: nat)
    requires c.size > 0 && c.slots > 0
    ensures var s := Run(c, INIT, ToPended(authority) + (TO_STOPPED + [Advance(0)]));
            && s.netStopped && |s.channels| == 1
            && s.channels[0].reg.Handshaking? && !s.channels[0].stopped && !s.channels[0].relayed
  {
    Pends(c, authority);
    var s := Run(c, INIT, ToPended(authority));
    Stops(c, s, s.channels[0]);
    var r := Run(c, s, TO_STOPPED);
    RunConcat(c, INIT, ToPended(authority), TO_STOPPED + [Advance(0)]);
    RunConcat(c, s, TO_STOPPED, [Advance(0)]);
    assert Run(c, r, [Advance(0)]) == Run(c, Next(c, r, Advance(0)), []);
  }

  /** From a successful pend to the delivery of its stop, a channel whose handshake
      succeeds and which is stored is at every step in one of the two collections; it
      has left the first when its start handler has run; and open connections have
      pairwise distinct authorities. */
  lemma NoUntrackedWindow(c: Config, evs: seq<Event>, i: nat, j: nat)
    requires c.size > 0
    ensures var s := Run(c, INIT, evs);
            && (i < |s.channels| && (Pended(s.channels[i].reg) || Stored(s.channels[i].reg)) ==>
                  i in s.handshake || i in s.close)
            && (i < |s.channels| && s.channels[i].started != [] ==> i !in s.handshake)
            && (i != j && i in s.close && j in s.close ==>
                  i < |s.channels| && j < |s.channels| && s.channels[i].authority != s.channels[j].authority)
  {
    RunInv(c, INIT, evs);
    var s := Run(c, INIT, evs);
    if i < |s.channels| {
      assert ChannelOk(s.channels[i]);
    }
  }

  // The loops of the session.

  /** `session_outbound::handle_started`: one slot per configured connection. */
  method StartSlots(c: Config) returns (s: State)
    requires c.size > 0
    ensures Inv(c, s) && s.spawned == c.slots && Slots(s) == c.slots && |s.batches| == c.slots
  {
    s := INIT;
    for peer := 0 to c.slots
      invariant Inv(c, s) && !s.stopped && s.spawned == peer == |s.batches|
    {
      NextConserved(c, s, Spawn);
      NextChannelsOk(c, s, Spawn);
      NextTracked(c, s, Spawn);
      s := Next(c, s, Spawn);
    }
  }

  /** A state that differs in one batch and in the delayed retries. */
  function Batched(s: State, b: nat, batch: Batch, delayed: nat): State
    requires b < |s.batches|
  {
    s.(batches := s.batches[b := batch], delayed := delayed)
  }

  function Waiting(outcome: Option<Code>): nat {
    Bit(outcome == None)
  }

  /** What an attempt meets at once: on a stopped session always a stop. */
  function Met(stopped: bool, outcome: Option<Code>): Option<Code> {
    if stopped then Some(ChannelStopped) else outcome
  }

  lemma AttemptEffect(c: Config, s: State, b: nat, failure: Option<Code>)
    requires b < |s.batches| && s.batches[b].next < c.size && failure != Some(Success)
    requires s.batches[b].join.mode == OnSuccess && !s.batches[b].join.Cleared()
    ensures var was := s.batches[b];
            var met := Met(s.stopped, failure);
            var now := Batch(was.next + 1, was.inflight + Waiting(met),
                             was.join.(count := was.join.count + Bit(met.Some?)));
            OnAttempt(c, s, b, failure) == Batched(s, b, now, s.delayed + Bit(now.join.Cleared()))
  {
    assert s.channels + [] == s.channels;
  }

  function MetAll(stopped: bool, outcomes: seq<Option<Code>>): (met: seq<Option<Code>>)
    ensures |met| == |outcomes|
    ensures forall i :: 0 <= i < |outcomes| ==> met[i] == Met(stopped, outcomes[i])
  {
    seq(|outcomes|, i requires 0 <= i < |outcomes| => Met(stopped, outcomes[i]))
  }

  predicate AllFailed(outcomes: seq<Option<Code>>) {
    None !in outcomes
  }

  lemma NoneWaits(outcomes: seq<Option<Code>>)
    ensures Sum(outcomes, Waiting) == 0 <==> AllFailed(outcomes)
  {
    if k :| 0 <= k < |outcomes| && outcomes[k] == None {
      SumUpdate(outcomes, k, None, Waiting);
    } else {
      SumZero(outcomes, Waiting);
    }
  }

  /** On a stopped session every attempt fails at once; otherwise each meets its outcome. */
  lemma MetMeaning(outcomes: seq<Option<Code>>)
    ensures AllFailed(MetAll(true, outcomes)) && MetAll(false, outcomes) == outcomes
  {
  }

  /** The batch after the first `host` attempts of its loop. */
  ghost predicate Attempted(c: Config, s0: State, b: nat, met: seq<Option<Code>>, s: State, host: nat) {
    && Conserved(c, s) && Slots(s) == Slots(s0)
    && |s.batches| == |s0.batches| && b < |s.batches| && host <= c.size == |met|
    && s == Batched(s0, b, s.batches[b], s.delayed)
    && s.batches[b].next == host && s.batches[b].inflight == Sum(met[..host], Waiting)
    && s.batches[b].join.count == host - s.batches[b].inflight
    && s.delayed == s0.delayed + Bit(host == c.size && s.batches[b].inflight == 0)
  }

  lemma AttemptNext(c: Config, s0: State, b: nat, met: seq<Option<Code>>, s: State, host: nat, outcome: Option<Code>)
    requires Attempted(c, s0, b, met, s, host) && host < c.size && s.stopped == s0.stopped
    requires outcome != Some(Success) && met[host] == Met(s0.stopped, outcome)
    ensures Attempted(c, s0, b, met, OnAttempt(c, s, b, outcome), host + 1)
  {
    AttemptConserved(c, s, b, outcome);
    AttemptEffect(c, s, b, outcome);
    assert met[..host + 1] == met[..host] + [met[host]];
    SumAppend(met[..host], met[host], Waiting);
  }

  /** `session_batch::connect`: the loop that starts every attempt of a fresh batch,
      given for each the failure it meets at once, if any; on a stopped session each is
      refused. If all fail at once, the batch is decided inside the loop with exactly one
      delayed retry; otherwise it stays undecided with the remaining attempts in flight. */
  method ConnectBatch(c: Config, s0: State, b: nat, outcomes: seq<Option<Code>>) returns (s: State)
    requires Conserved(c, s0)
    requires b < |s0.batches| && s0.batches[b] == NewBatch(c)
    requires |outcomes| == c.size && Some(Success) !in outcomes
    ensures Conserved(c, s) && Slots(s) == Slots(s0)
    ensures |s.batches| == |s0.batches|
    ensures s == Batched(s0, b, s.batches[b], s.delayed)
    ensures s.batches[b].next == c.size && s.batches[b].inflight == Sum(MetAll(s0.stopped, outcomes), Waiting)
    ensures s.batches[b].join.Cleared() <==> AllFailed(MetAll(s0.stopped, outcomes))
    ensures s.delayed == s0.delayed + Bit(AllFailed(MetAll(s0.stopped, outcomes)))
    ensures s0.stopped ==> s.batches[b].join.Cleared() && s.batches[b].inflight == 0
    ensures !s0.stopped ==> s.batches[b].inflight == Sum(outcomes, Waiting)
  {
    ghost var met := MetAll(s0.stopped, outcomes);
    s := s0;
    for host := 0 to c.size
      invariant Attempted(c, s0, b, met, s, host)
    {
      assert outcomes[host] in outcomes;
      AttemptNext(c, s0, b, met, s, host, outcomes[host]);
      s := OnAttempt(c, s, b, outcomes[host]);
    }
    assert met[..c.size] == met;
    NoneWaits(met);
    MetMeaning(outcomes);
  }
}
