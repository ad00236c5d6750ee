/** The registration of an outbound channel together with the handshake that runs on it.
    The session's machine takes a completed handshake as one event; here that event is
    the call of the completion handler of a `Handshake` endpoint, so that it comes once,
    to a channel that waits for it, is proved and not presumed. */
module HandshakeRefinement {
  import opened Codes
  import E = Events
  import H = Handshake
  import O = Outbound

  datatype Joint = Joint(s: O.State, e: H.Endpoint)

  /** `OfSession` is anything but the handshake of channel i. */
  datatype Event = OfHandshake(event: H.Event) | OfSession(step: O.Event)

  /** The session starts the handshake when it has started the channel. */
  predicate Enabled(i: nat, j: Joint, ev: H.Event) {
    ev.Start? ==> i < |j.s.channels| && j.s.channels[i].reg.Handshaking?
  }

  /** The session after the calls of the completion handler have gone from one to the
      other. */
  function Told(c: O.Config, s: O.State, i: nat, fired: seq<Code>, fired': seq<Code>): O.State {
    if |fired'| > |fired| then O.Next(c, s, O.HandshakeDone(i, fired'[|fired|])) else s
  }

  /** A call of the completion handler is the session's event. */
  function Next(c: O.Config, h: H.Config, i: nat, j: Joint, ev: Event): Joint {
    match ev
    case OfHandshake(x) =>
      if !Enabled(i, j, x) then j
      else
        var e := H.Next(h, j.e, x);
        Joint(Told(c, j.s, i, j.e.Fired(), e.Fired()), e)
    case OfSession(x) => if x.HandshakeDone? && x.channel == i then j else j.(s := O.Next(c, j.s, x))
  }

  function Run(c: O.Config, h: H.Config, i: nat, j: Joint, evs: seq<Event>): Joint
    decreases |evs|
  {
    if evs == [] then j else Run(c, h, i, Next(c, h, i, j, evs[0]), evs[1..])
  }

  /** The channel has been started. */
  predicate Past(r: O.Registration) {
    !r.Foreign? && !r.Gone? && !r.Entered? && !r.Pending? && !r.Starting?
  }

  /** A running handshake has a started channel, which waits exactly until it completes. */
  predicate Waits(s: O.State, i: nat, open: bool, fired: seq<Code>) {
    && i < |s.channels|
    && (open ==> Past(s.channels[i].reg) && (fired == [] <==> s.channels[i].reg.Handshaking?))
  }

  ghost predicate Inv(h: H.Config, i: nat, j: Joint) {
    H.Inv(h, j.e) && Waits(j.s, i, j.e.slot.open, j.e.Fired())
  }

  lemma ChannelWaits(s: O.State, ch: O.Channel, ev: O.Event)
    requires Past(ch.reg)
    ensures var r := O.AdvanceChannel(s, ch).reg; Past(r) && (r.Handshaking? <==> ch.reg.Handshaking?)
    ensures !ev.HandshakeDone? ==>
              var r := O.Touch(ch, ev).reg; Past(r) && (r.Handshaking? <==> ch.reg.Handshaking?)
  {
  }

  /** Nothing but the handshake moves a channel out of its handshake, or back into it. */
  lemma SessionWaits(c: O.Config, s: O.State, ev: O.Event, i: nat)
    requires i < |s.channels| && Past(s.channels[i].reg) && !(ev.HandshakeDone? && ev.channel == i)
    ensures var s' := O.Next(c, s, ev);
            && i < |s'.channels| && Past(s'.channels[i].reg)
            && (s'.channels[i].reg.Handshaking? <==> s.channels[i].reg.Handshaking?)
  {
    ChannelWaits(s, s.channels[i], ev);
  }

  lemma SessionKeepsChannel(c: O.Config, s: O.State, ev: O.Event, i: nat)
    requires i < |s.channels|
    ensures i < |O.Next(c, s, ev).channels|
  {
  }

  lemma ToldWaits(c: O.Config, s: O.State, i: nat, open: bool, fired: seq<Code>, open': bool, fired': seq<Code>)
    requires Waits(s, i, open, fired) && |fired'| <= 1
    requires (fired != [] ==> fired' == fired) && (fired' != [] ==> open) && (open ==> open')
    requires !open && open' ==> s.channels[i].reg.Handshaking?
    ensures Waits(Told(c, s, i, fired, fired'), i, open', fired')
  {
  }

  lemma HandshakeInv(c: O.Config, h: H.Config, i: nat, j: Joint, ev: H.Event)
    requires Inv(h, i, j)
    ensures Inv(h, i, Next(c, h, i, j, OfHandshake(ev)))
  {
    if Enabled(i, j, ev) {
      var e := H.Next(h, j.e, ev);
      H.NextInv(h, j.e, ev);
      H.FiredStep(h, j.e, ev);
      H.NextOpen(h, j.e, ev);
      ToldWaits(c, j.s, i, j.e.slot.open, j.e.Fired(), e.slot.open, e.Fired());
    }
  }

  lemma SessionInv(c: O.Config, h: H.Config, i: nat, j: Joint, ev: O.Event)
    requires Inv(h, i, j)
    ensures Inv(h, i, Next(c, h, i, j, OfSession(ev)))
  {
    SessionKeepsChannel(c, j.s, ev, i);
    if j.e.slot.open && !(ev.HandshakeDone? && ev.channel == i) {
      SessionWaits(c, j.s, ev, i);
    }
  }

  lemma {:induction false} RunInv(c: O.Config, h: H.Config, i: nat, j: Joint, evs: seq<Event>)
    requires Inv(h, i, j)
    ensures Inv(h, i, Run(c, h, i, j, evs))
    decreases |evs|
  {
    if evs != [] {
      if evs[0].OfHandshake? {
        HandshakeInv(c, h, i, j, evs[0].event);
      } else {
        SessionInv(c, h, i, j, evs[0].step);
      }
      RunInv(c, h, i, Next(c, h, i, j, evs[0]), evs[1..]);
    }
  }

  /** What a completion comes to. */
  lemma ToldMeaning(c: O.Config, s: O.State, i: nat, open: bool, fired: seq<Code>, fired': seq<Code>)
    requires Waits(s, i, open, fired) && |fired'| <= 1 && fired' != fired
    requires (fired != [] ==> fired' == fired) && (fired' != [] ==> open)
    ensures fired == [] && |fired'| == 1 && s.channels[i].reg.Handshaking?
    ensures var s' := Told(c, s, i, fired, fired');
            && i < |s'.channels|
            && s'.channels[i].reg == if fired'[0] == Success then O.Storing else O.Unpending(fired'[0])
  {
  }

  /** The step that calls the completion handler is the first such, finds the channel
      waiting, and passes its code on to the registration. */
  ghost predicate Completes(i: nat, j: Joint, j': Joint) {
    && j.e.Fired() == [] && |j'.e.Fired()| == 1
    && i < |j.s.channels| && j.s.channels[i].reg.Handshaking?
    && i < |j'.s.channels|
    && j'.s.channels[i].reg == if j'.e.Fired()[0] == Success then O.Storing else O.Unpending(j'.e.Fired()[0])
  }

  lemma CompletionStep(c: O.Config, h: H.Config, i: nat, j: Joint, ev: H.Event)
    requires Inv(h, i, j)
    ensures var j' := Next(c, h, i, j, OfHandshake(ev));
            j'.e.Fired() != j.e.Fired() ==> Completes(i, j, j')
  {
    if Enabled(i, j, ev) {
      var e := H.Next(h, j.e, ev);
      H.FiredStep(h, j.e, ev);
      if e.Fired() != j.e.Fired() {
        ToldMeaning(c, j.s, i, j.e.slot.open, j.e.Fired(), e.Fired());
      }
    }
  }

  /** In every interleaving of the session with the handshake of one of its channels, a step
      that calls the completion handler does so for the first and only time, to a channel
      that waits for it. */
  lemma CompletionReachesSession(c: O.Config, h: H.Config, s: O.State, i: nat, evs: seq<Event>, ev: H.Event)
    requires i < |s.channels|
    ensures var j := Run(c, h, i, Joint(s, H.Init(h)), evs);
            var j' := Next(c, h, i, j, OfHandshake(ev));
            j'.e.Fired() != j.e.Fired() ==> Completes(i, j, j')
  {
    RunInv(c, h, i, Joint(s, H.Init(h)), evs);
    CompletionStep(c, h, i, Run(c, h, i, Joint(s, H.Init(h)), evs), ev);
  }
}
