/** Two endpoints running the handshake over FIFO links, with timers and stops free
    to fire at any moment and every callback interleaved at the grain of single
    accesses. A message once sent may stay undelivered for ever. */
module TwoParty {
  import opened Codes
  import opened Handshake
  import E = Events

  /** `toA` counts the messages of `b.sent` that have reached a, and conversely. */
  datatype Pair = Pair(a: Endpoint, b: Endpoint, toA: nat, toB: nat)

  datatype PairEvent =
    | AtA(event: Event)
    | AtB(event: Event)
    | DeliverToA
    | DeliverToB

  function PairInit(ca: Config, cb: Config): Pair {
    Pair(Init(ca), Init(cb), 0, 0)
  }

  /** What one side does when the head of the other side's queue arrives. Reading
      starts only once the protocol has been started. */
  function Deliver(e: Endpoint, sent: seq<Message>, n: nat): Endpoint {
    if n < |sent| && e.slot.open then OnReceive(e, sent[n]) else e
  }

  function Delivered(e: Endpoint, sent: seq<Message>, n: nat): nat {
    if n < |sent| && e.slot.open then n + 1 else n
  }

  /** A side's own events; messages come only through the queue. */
  function Act(c: Config, e: Endpoint, ev: Event): Endpoint {
    if ev.Receive? then e else Next(c, e, ev)
  }

  function PairNext(ca: Config, cb: Config, p: Pair, ev: PairEvent): Pair {
    match ev
    case AtA(x) => p.(a := Act(ca, p.a, x))
    case AtB(x) => p.(b := Act(cb, p.b, x))
    case DeliverToA => p.(a := Deliver(p.a, p.b.sent, p.toA), toA := Delivered(p.a, p.b.sent, p.toA))
    case DeliverToB => p.(b := Deliver(p.b, p.a.sent, p.toB), toB := Delivered(p.b, p.a.sent, p.toB))
  }

  function PairRun(ca: Config, cb: Config, p: Pair, evs: seq<PairEvent>): Pair
    decreases |evs|
  {
    if evs == [] then p else PairRun(ca, cb, PairNext(ca, cb, p, evs[0]), evs[1..])
  }

  /** What a side has sent, as far as its own progress explains it. */
  ghost predicate Speaks(c: Config, e: Endpoint) {
    && (forall m :: m in e.sent ==>
          && (m.Version? ==> m == Version(c.Own()))
          && (m.Verack? ==> Adopted(e))
          && (m.Reject? ==> e.version.RaisedError()))
    && (e.slot.open <==> e.sent != [])
    && (e.sent != [] ==> e.sent[0] == Version(c.Own()))
    && (e.version == Raised(Success) ==> Verack in e.sent)
  }

  /** What a side has heard, given the peer's version message and whether the peer
      has sent a verack or a reject. */
  ghost predicate Hears(c: Config, e: Endpoint, theirs: VersionMessage, acked: bool, rejected: bool) {
    && (e.version.Entered? && e.version.ec == Success ==> e.version.message == Some(Version(theirs)))
    && (e.version.Vetting? || e.version.Adopting? ==> e.version.version == theirs)
    && (forall v :: v in e.accepted ==> v == theirs)
    && (e.version.RaisedError() ==> !c.Configured() || !c.Sufficient(theirs))
    && (e.verack.Entered? && e.verack.ec == Success ==> acked)
    && (e.verack.Raised? ==> acked)
    && (e.reject.Entered? && e.reject.ec == Success ==> rejected)
    && (e.reject.Raised? ==> rejected)
  }

  /** Nothing delivered to a running side is left waiting for a callback. */
  ghost predicate Taken(e: Endpoint, theirs: seq<Message>, n: nat) {
    && n <= |theirs| && (n > 0 ==> e.slot.open)
    && (n > 0 ==> !e.version.Subscribed?)
    && (forall i :: 0 <= i < n && theirs[i] == Verack ==> !e.verack.Subscribed?)
  }

  ghost predicate Side(c: Config, e: Endpoint, theirs: VersionMessage, sent: seq<Message>, n: nat) {
    && Inv(c, e) && Speaks(c, e)
    && Hears(c, e, theirs, Verack in sent, Rejected(sent))
    && Taken(e, sent, n)
  }

  ghost predicate PairInv(ca: Config, cb: Config, p: Pair) {
    && Side(ca, p.a, cb.Own(), p.b.sent, p.toA)
    && Side(cb, p.b, ca.Own(), p.a.sent, p.toB)
  }

  lemma ActSpeaks(c: Config, e: Endpoint, ev: Event)
    requires Shape(c, e) && Speaks(c, e) && !ev.Receive?
    ensures Speaks(c, Next(c, e, ev))
    ensures e.sent <= Next(c, e, ev).sent
  {
    match ev
    case Advance(AtVersion) => VersionSpeaks(c, e);
    case AdvanceRaise(i) =>
      if i < |e.slot.raises| {
        E.StepFrame(e.slot, i);
      }
    case _ =>
  }

  lemma VersionSpeaks(c: Config, e: Endpoint)
    requires Shape(c, e) && Speaks(c, e)
    ensures Speaks(c, StepVersion(c, e))
    ensures e.sent <= StepVersion(c, e).sent
  {
    var e' := StepVersion(c, e);
    if e.version.Vetting? && c.Configured() {
      RejectionMeaning(c, e.version.version);
      assert e'.sent == e.sent + c.Rejections(e.version.version);
    } else if e.version.Acking? {
      assert e'.sent == e.sent + [Verack];
      assert e'.sent[|e.sent|] == Verack;
    } else {
      assert e'.sent == e.sent;
    }
  }

  lemma ActHears(c: Config, e: Endpoint, ev: Event, theirs: VersionMessage, acked: bool, rejected: bool)
    requires Shape(c, e) && Hears(c, e, theirs, acked, rejected) && !ev.Receive?
    ensures Hears(c, Next(c, e, ev), theirs, acked, rejected)
  {
    match ev
    case Advance(AtVersion) => VersionHears(c, e, theirs, acked, rejected);
    case Advance(AtReject) => RejectHears(c, e, theirs, acked, rejected);
    case StopChannel(ec) => StopHears(c, e, ec, theirs, acked, rejected);
    case _ =>
  }

  lemma RejectHears(c: Config, e: Endpoint, theirs: VersionMessage, acked: bool, rejected: bool)
    requires Shape(c, e) && Hears(c, e, theirs, acked, rejected)
    ensures Hears(c, StepReject(e), theirs, acked, rejected)
  {
  }

  lemma StopHears(c: Config, e: Endpoint, ec: Code, theirs: VersionMessage, acked: bool, rejected: bool)
    requires Shape(c, e) && Hears(c, e, theirs, acked, rejected)
    ensures Hears(c, OnStopChannel(e, ec), theirs, acked, rejected)
  {
  }

  lemma VersionHears(c: Config, e: Endpoint, theirs: VersionMessage, acked: bool, rejected: bool)
    requires Shape(c, e) && Hears(c, e, theirs, acked, rejected)
    ensures Hears(c, StepVersion(c, e), theirs, acked, rejected)
  {
  }

  /** No event but a start makes a callback wait, so what was taken stays taken. */
  lemma ActTaken(c: Config, e: Endpoint, ev: Event, sent: seq<Message>, n: nat)
    requires Shape(c, e) && Taken(e, sent, n) && !ev.Receive?
    ensures Taken(Next(c, e, ev), sent, n)
  {
  }

  lemma ActSide(c: Config, e: Endpoint, ev: Event, theirs: VersionMessage, sent: seq<Message>, n: nat)
    requires Side(c, e, theirs, sent, n)
    ensures Side(c, Act(c, e, ev), theirs, sent, n)
    ensures e.sent <= Act(c, e, ev).sent
  {
    if !ev.Receive? {
      NextInv(c, e, ev);
      ActSpeaks(c, e, ev);
      ActHears(c, e, ev, theirs, Verack in sent, Rejected(sent));
      ActTaken(c, e, ev, sent, n);
    }
  }

  lemma DeliverSide(c: Config, e: Endpoint, theirs: Config, peer: Endpoint, n: nat)
    requires Side(c, e, theirs.Own(), peer.sent, n) && Speaks(theirs, peer)
    ensures Side(c, Deliver(e, peer.sent, n), theirs.Own(), peer.sent, Delivered(e, peer.sent, n))
    ensures Deliver(e, peer.sent, n).sent == e.sent
  {
    if n < |peer.sent| && e.slot.open {
      var m := peer.sent[n];
      NextInv(c, e, Receive(m));
      assert m in peer.sent;
      assert IsReject(m) ==> Rejected(peer.sent);
    }
  }

  /** The peer saying more changes nothing for what was heard. */
  lemma PeerSaysMore(c: Config, e: Endpoint, theirs: VersionMessage, sent: seq<Message>, sent': seq<Message>, n: nat)
    requires Side(c, e, theirs, sent, n) && sent <= sent'
    ensures Side(c, e, theirs, sent', n)
  {
    if Rejected(sent) {
      var i :| 0 <= i < |sent| && IsReject(sent[i]);
      assert IsReject(sent'[i]);
    }
    if Verack in sent {
      var i :| 0 <= i < |sent| && sent[i] == Verack;
      assert sent'[i] == Verack;
    }
  }

  lemma PairNextInv(ca: Config, cb: Config, p: Pair, ev: PairEvent)
    requires PairInv(ca, cb, p)
    ensures PairInv(ca, cb, PairNext(ca, cb, p, ev))
  {
    match ev
    case AtA(x) =>
      ActSide(ca, p.a, x, cb.Own(), p.b.sent, p.toA);
      PeerSaysMore(cb, p.b, ca.Own(), p.a.sent, Act(ca, p.a, x).sent, p.toB);
    case AtB(x) =>
      ActSide(cb, p.b, x, ca.Own(), p.a.sent, p.toB);
      PeerSaysMore(ca, p.a, cb.Own(), p.b.sent, Act(cb, p.b, x).sent, p.toA);
    case DeliverToA => DeliverSide(ca, p.a, cb, p.b, p.toA);
    case DeliverToB => DeliverSide(cb, p.b, ca, p.a, p.toB);
  }

  lemma {:induction false} PairRunInv(ca: Config, cb: Config, p: Pair, evs: seq<PairEvent>)
    requires PairInv(ca, cb, p)
    ensures PairInv(ca, cb, PairRun(ca, cb, p, evs))
    decreases |evs|
  {
    if evs != [] {
      PairNextInv(ca, cb, p, evs[0]);
      PairRunInv(ca, cb, PairNext(ca, cb, p, evs[0]), evs[1..]);
    }
  }

  /** A side that completed with success heard the peer's verack, hence the peer had
      adopted this side's version before. */
  lemma SuccessAgrees(ca: Config, cb: Config, a: Endpoint, b: Endpoint, n: nat)
    requires Side(ca, a, cb.Own(), b.sent, n) && a.Fired() == [Success]
    requires Inv(cb, b) && Speaks(cb, b) && Hears(cb, b, ca.Own(), Verack in a.sent, Rejected(a.sent))
    ensures a.accepted == [cb.Own()] && b.accepted == [ca.Own()]
    ensures a.negotiated == b.negotiated == Min(ca.ownVersion, cb.ownVersion)
    ensures !Rejected(a.sent) && !Rejected(b.sent)
  {
    E.SuccessNeedsAll(a.slot);
    assert a.accepted[0] in a.accepted;
    assert Adopted(b);
    assert b.accepted[0] in b.accepted;
  }

  /** Agreement: in every interleaving, once either endpoint completes with success,
      each has accepted exactly the other's version message and both negotiated
      versions are already the lesser of the two own versions. */
  lemma Agreement(ca: Config, cb: Config, evs: seq<PairEvent>)
    ensures var p := PairRun(ca, cb, PairInit(ca, cb), evs);
            p.a.Fired() == [Success] || p.b.Fired() == [Success] ==>
              && p.a.accepted == [cb.Own()] && p.b.accepted == [ca.Own()]
              && p.a.negotiated == p.b.negotiated == Min(ca.ownVersion, cb.ownVersion)
  {
    PairRunInv(ca, cb, PairInit(ca, cb), evs);
    var p := PairRun(ca, cb, PairInit(ca, cb), evs);
    if p.a.Fired() == [Success] {
      SuccessAgrees(ca, cb, p.a, p.b, p.toA);
    }
    if p.b.Fired() == [Success] {
      SuccessAgrees(cb, ca, p.b, p.a, p.toB);
    }
  }

  /** A rejection sent by either endpoint means that neither ever succeeds. */
  lemma RejectionExcludesSuccess(ca: Config, cb: Config, evs: seq<PairEvent>)
    ensures var p := PairRun(ca, cb, PairInit(ca, cb), evs);
            Rejected(p.a.sent) || Rejected(p.b.sent) ==>
              p.a.Fired() != [Success] && p.b.Fired() != [Success]
  {
    PairRunInv(ca, cb, PairInit(ca, cb), evs);
    var p := PairRun(ca, cb, PairInit(ca, cb), evs);
    if p.a.Fired() == [Success] {
      SuccessAgrees(ca, cb, p.a, p.b, p.toA);
    }
    if p.b.Fired() == [Success] {
      SuccessAgrees(cb, ca, p.b, p.a, p.toB);
    }
  }

  /** Undisturbed: both protocols started, no channel stopped, no timer fired, every
      message delivered and every callback at rest. */
  predicate Settled(p: Pair) {
    && p.a.Quiet() && p.b.Quiet() && p.a.slot.open && p.b.slot.open
    && !p.a.stopped && !p.b.stopped && p.a.timer.Off? && p.b.timer.Off?
    && p.toA == |p.b.sent| && p.toB == |p.a.sent|
  }

  predicate Compatible(ca: Config, cb: Config) {
    ca.Configured() && cb.Configured() && ca.Sufficient(cb.Own()) && cb.Sufficient(ca.Own())
  }

  lemma SettledSide(c: Config, e: Endpoint, theirs: VersionMessage, sent: seq<Message>, n: nat)
    requires Side(c, e, theirs, sent, n) && n > 0
    requires c.Configured() && c.Sufficient(theirs) && !Rejected(sent)
    requires e.Quiet() && e.slot.open && !e.stopped && e.timer.Off?
    ensures e.slot.handler && e.version == Raised(Success) && Verack in e.sent
  {
    assert !e.RaisedError();
  }

  /** Two compatible endpoints left undisturbed both complete with success. */
  lemma UndisturbedSucceeds(ca: Config, cb: Config, evs: seq<PairEvent>)
    requires Compatible(ca, cb)
    ensures var p := PairRun(ca, cb, PairInit(ca, cb), evs);
            Settled(p) ==> p.a.Fired() == [Success] && p.b.Fired() == [Success]
  {
    PairRunInv(ca, cb, PairInit(ca, cb), evs);
    var p := PairRun(ca, cb, PairInit(ca, cb), evs);
    if Settled(p) {
      NoRejects(ca, p.a, cb.Own(), p.b.sent, p.toA);
      NoRejects(cb, p.b, ca.Own(), p.a.sent, p.toB);
      SettledSide(ca, p.a, cb.Own(), p.b.sent, p.toA);
      SettledSide(cb, p.b, ca.Own(), p.a.sent, p.toB);
      BothHeard(ca, p.a, cb.Own(), p.b.sent);
      BothHeard(cb, p.b, ca.Own(), p.a.sent);
    }
  }

  lemma NoRejects(c: Config, e: Endpoint, theirs: VersionMessage, sent: seq<Message>, n: nat)
    requires Side(c, e, theirs, sent, n)
    requires c.Configured() && c.Sufficient(theirs)
    ensures !Rejected(e.sent)
  {
  }

  lemma BothHeard(c: Config, e: Endpoint, theirs: VersionMessage, sent: seq<Message>)
    requires Side(c, e, theirs, sent, |sent|) && Verack in sent && !Rejected(sent)
    requires e.Quiet() && e.slot.open && !e.stopped && e.timer.Off?
    requires e.slot.handler && e.version == Raised(Success)
    ensures e.Fired() == [Success]
  {
    assert !e.verack.Subscribed?;
    assert e.verack.Raised?;
    assert !e.RaisedError();
    E.QuietCompletes(e.slot);
    E.QuietSucceeds(e.slot);
  }
}
