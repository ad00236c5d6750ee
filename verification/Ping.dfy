/** The heartbeat of a channel at protocol level 60001 and above (BIP 31). */
module Ping {
  import opened Codes

  /** What happened on the live channel, in order: pings sent and pongs that arrived. */
  datatype Mark = Sent(nonce: nat) | Pong(nonce: nat)

  /** A pong handed to its callback, with the nonce it was subscribed with. */
  datatype Answer = Answer(expected: nat, got: nat) {
    predicate Wrong() {
      expected != got
    }
  }

  /** `stopped` is the channel, `deaf` that its stop has reached the protocol and
      cleared the event slot. `waiting` are the nonces of the outstanding pong
      subscriptions; `entered` is a pong callback that has yet to clear the pending flag,
      and `comparing` are those that have cleared it and have yet to compare nonces.
      `trace` is the history of the live channel, and `late` counts the pings handed to
      a channel that had stopped. */
  datatype Heart = Heart(stopped: bool, deaf: bool, pending: bool, waiting: seq<nat>,
                         entered: Option<Answer>, comparing: seq<Answer>,
                         trace: seq<Mark>, answered: seq<nat>, late: nat)

  /** The callback of a pong runs on another thread than the heartbeat, so its two
      points, the clear and the compare, are steps of their own. */
  datatype Event =
    | Heartbeat(nonce: nat)
    | PongArrives(nonce: nat)
    | ClearPending
    | Compare(index: nat)
    | PingArrives(nonce: nat)
    | StopChannel
    | StopNotice

  const INIT: Heart := Heart(false, false, false, [], None, [], [], [], 0)

  /** `send_ping` on a heartbeat. A subscription on a stopped channel is called back at
      once with the stop code, so it does not stay. */
  function OnHeartbeat(h: Heart, nonce: nat): Heart {
    if h.deaf then h
    else
      var sends := !h.pending;
      var live := sends && !h.stopped;
      h.(stopped := h.stopped || h.pending,
         waiting := if live then h.waiting + [nonce] else if h.pending then [] else h.waiting,
         pending := true,
         trace := if live then h.trace + [Sent(nonce)] else h.trace,
         late := h.late + Bit(sends && h.stopped))
  }

  /** The pong subscription is one-shot. */
  function OnPong(h: Heart, nonce: nat): Heart {
    if h.stopped then h
    else
      h.(trace := h.trace + [Pong(nonce)],
         waiting := [],
         entered := if h.waiting != [] then Some(Answer(h.waiting[0], nonce)) else h.entered)
  }

  /** `handle_receive_pong` up to the clear of the pending flag: a protocol whose slot is
      cleared returns. */
  function OnClear(h: Heart): Heart {
    if h.entered == None then h
    else
      h.(entered := None,
         pending := h.pending && h.deaf,
         comparing := if h.deaf then h.comparing else h.comparing + [h.entered.value])
  }

  /** The rest of it: a wrong nonce stops the channel. */
  function OnCompare(h: Heart, i: nat): Heart {
    if i >= |h.comparing| then h
    else
      var wrong := h.comparing[i].Wrong();
      h.(comparing := h.comparing[..i] + h.comparing[i + 1..],
         stopped := h.stopped || wrong,
         waiting := if wrong then [] else h.waiting)
  }

  function OnPing(h: Heart, nonce: nat): Heart {
    h.(answered := if h.stopped || h.deaf then h.answered else h.answered + [nonce])
  }

  function Next(h: Heart, ev: Event): Heart {
    match ev
    case Heartbeat(n) => OnHeartbeat(h, n)
    case PongArrives(n) => OnPong(h, n)
    case ClearPending => OnClear(h)
    case Compare(i) => OnCompare(h, i)
    case PingArrives(n) => OnPing(h, n)
    case StopChannel => h.(stopped := true, waiting := [])
    case StopNotice => h.(deaf := h.deaf || h.stopped)
  }

  function Run(h: Heart, evs: seq<Event>): Heart
    decreases |evs|
  {
    if evs == [] then h else Run(Next(h, evs[0]), evs[1..])
  }

  /** The last ping of a trace and what followed it: nothing yet, or a first pong. */
  datatype Tail = NoPing | Unanswered(ping: nat) | Answered(ping: nat, pong: nat)

  function Last(trace: seq<Mark>): Tail {
    if trace == [] then NoPing
    else
      var before := Last(trace[..|trace| - 1]);
      match trace[|trace| - 1]
      case Sent(n) => Unanswered(n)
      case Pong(n) => if before.Unanswered? then Answered(before.ping, n) else before
  }

  /** Every ping but the first was sent only after the first pong since the ping before
      it had carried that ping's nonce. */
  predicate Disciplined(trace: seq<Mark>) {
    forall k :: 0 <= k < |trace| && trace[k].Sent? ==> MayPing(Last(trace[..k]))
  }

  predicate MayPing(t: Tail) {
    t.NoPing? || (t.Answered? && t.ping == t.pong)
  }

  /** A wrong pong that has cleared the flag and not yet stopped the channel. */
  predicate Comparing(h: Heart, a: Answer) {
    a in h.comparing
  }

  ghost predicate WrongPending(h: Heart) {
    exists a :: Comparing(h, a) && a.Wrong()
  }

  /** What is owed, on a channel that has not stopped: a pending ping has its subscription
      or the callback of its pong, and without one the last ping was answered, rightly
      or by a pong whose comparison is under way. */
  ghost predicate Owed(h: Heart) {
    var last := Last(h.trace);
    if h.pending then
      if h.entered == None then h.waiting != [] && last == Unanswered(h.waiting[0])
      else last == Answered(h.entered.value.expected, h.entered.value.got)
    else
      MayPing(last) || (last.Answered? && Comparing(h, Answer(last.ping, last.pong)))
  }

  /** While the discipline has been kept, a wrong pong under comparison is the last word. */
  ghost predicate WrongIsLast(h: Heart) {
    forall a :: Comparing(h, a) && a.Wrong() ==> !h.pending && Last(h.trace) == Answered(a.expected, a.got)
  }

  ghost predicate Inv(h: Heart) {
    && (h.deaf ==> h.stopped)
    && (h.stopped ==> h.waiting == [])
    && (h.entered.Some? ==> h.pending && h.late == 0 && !Last(h.trace).Unanswered?)
    && h.late <= 1 && (h.late > 0 ==> h.stopped && h.pending)
    && (h.late == 0 && h.pending && h.entered == None ==> h.deaf || Last(h.trace).Unanswered?)
    && (Last(h.trace).Unanswered? ==> h.pending && h.entered == None)
    && (!h.stopped ==> Owed(h) && |h.waiting| + Bit(h.entered.Some?) == Bit(h.pending))
    && (!h.stopped && Disciplined(h.trace) ==> WrongIsLast(h))
  }

  lemma ExtendTrace(trace: seq<Mark>, m: Mark)
    ensures Disciplined(trace + [m]) <==> Disciplined(trace) && (m.Sent? ==> MayPing(Last(trace)))
    ensures Last(trace + [m]) ==
            match m
            case Sent(n) => Unanswered(n)
            case Pong(n) => if Last(trace).Unanswered? then Answered(Last(trace).ping, n) else Last(trace)
  {
    var t := trace + [m];
    assert t[..|trace|] == trace;
    assert forall k :: 0 <= k < |trace| ==> t[k] == trace[k] && t[..k] == trace[..k];
    if Disciplined(t) {
      assert m.Sent? ==> t[|trace|].Sent?;
      forall k | 0 <= k < |trace| && trace[k].Sent?
        ensures MayPing(Last(trace[..k]))
      {
        assert t[k].Sent?;
      }
    }
  }

  lemma SendInv(h: Heart, nonce: nat)
    requires Inv(h) && !h.stopped && !h.pending
    ensures Inv(OnHeartbeat(h, nonce))
  {
    ExtendTrace(h.trace, Sent(nonce));
    assert Disciplined(h.trace) && MayPing(Last(h.trace)) ==> !WrongPending(h);
  }

  lemma HeartbeatInv(h: Heart, nonce: nat)
    requires Inv(h)
    ensures Inv(OnHeartbeat(h, nonce))
  {
    if !h.stopped && !h.pending {
      SendInv(h, nonce);
    }
  }

  lemma PongInv(h: Heart, nonce: nat)
    requires Inv(h)
    ensures Inv(OnPong(h, nonce))
  {
    ExtendTrace(h.trace, Pong(nonce));
  }

  lemma ClearInv(h: Heart)
    requires Inv(h)
    ensures Inv(OnClear(h))
  {
    var h' := OnClear(h);
    if h.entered.Some? && !h.deaf {
      assert h'.comparing[|h.comparing|] == h.entered.value;
      assert Comparing(h', h.entered.value);
      assert forall a :: Comparing(h', a) ==> Comparing(h, a) || a == h.entered.value;
    }
  }

  lemma CompareInv(h: Heart, i: nat)
    requires Inv(h)
    ensures Inv(OnCompare(h, i))
  {
    if i < |h.comparing| {
      var h' := OnCompare(h, i);
      assert forall a :: Comparing(h', a) ==> Comparing(h, a);
      assert forall a :: Comparing(h, a) ==> Comparing(h', a) || a == h.comparing[i];
    }
  }

  lemma NextInv(h: Heart, ev: Event)
    requires Inv(h)
    ensures Inv(Next(h, ev))
  {
    match ev
    case Heartbeat(n) => HeartbeatInv(h, n);
    case PongArrives(n) => PongInv(h, n);
    case ClearPending => ClearInv(h);
    case Compare(i) => CompareInv(h, i);
    case _ =>
  }

  lemma {:induction false} RunInv(h: Heart, evs: seq<Event>)
    requires Inv(h)
    ensures Inv(Run(h, evs))
    decreases |evs|
  {
    if evs != [] {
      NextInv(h, evs[0]);
      RunInv(Next(h, evs[0]), evs[1..]);
    }
  }

  /** In every run: on a live channel a ping is pending exactly while its pong subscription
      is outstanding or its pong's callback has yet to clear the flag, and there is never
      more than one of these. At most one more ping is handed to the channel after it
      has stopped. */
  lemma OnePongOwed(evs: seq<Event>)
    ensures var h := Run(INIT, evs);
            && (!h.stopped ==> |h.waiting| + Bit(h.entered.Some?) == Bit(h.pending))
            && h.late <= 1 && (!h.stopped ==> h.late == 0)
  {
    RunInv(INIT, evs);
  }

  /** A heartbeat that sends on the live channel between the clear and the compare of a
      wrong pong. */
  ghost predicate Hasty(h: Heart, ev: Event) {
    ev.Heartbeat? && !h.stopped && !h.pending && WrongPending(h)
  }

  ghost predicate EverHasty(h: Heart, evs: seq<Event>)
    decreases |evs|
  {
    evs != [] && (Hasty(h, evs[0]) || EverHasty(Next(h, evs[0]), evs[1..]))
  }

  lemma StepDiscipline(h: Heart, ev: Event)
    requires Inv(h)
    ensures Disciplined(Next(h, ev).trace) ==> Disciplined(h.trace)
    ensures Disciplined(h.trace) ==> (Disciplined(Next(h, ev).trace) <==> !Hasty(h, ev))
  {
    match ev
    case Heartbeat(n) =>
      ExtendTrace(h.trace, Sent(n));
      if !h.stopped && !h.pending && Disciplined(h.trace) {
        var last := Last(h.trace);
        if a :| Comparing(h, a) && a.Wrong() {
          assert last == Answered(a.expected, a.got);
        } else {
          assert last.Answered? ==> !Comparing(h, Answer(last.ping, last.pong)) || last.ping == last.pong;
        }
      }
    case PongArrives(n) => ExtendTrace(h.trace, Pong(n));
    case _ =>
  }

  lemma {:induction false} Undisciplined(h: Heart, evs: seq<Event>)
    requires Inv(h) && !Disciplined(h.trace)
    ensures !Disciplined(Run(h, evs).trace)
    decreases |evs|
  {
    if evs != [] {
      StepDiscipline(h, evs[0]);
      NextInv(h, evs[0]);
      Undisciplined(Next(h, evs[0]), evs[1..]);
    }
  }

  lemma {:induction false} DisciplineFrom(h: Heart, evs: seq<Event>)
    requires Inv(h) && Disciplined(h.trace)
    ensures Disciplined(Run(h, evs).trace) <==> !EverHasty(h, evs)
    decreases |evs|
  {
    if evs != [] {
      StepDiscipline(h, evs[0]);
      NextInv(h, evs[0]);
      if Hasty(h, evs[0]) {
        Undisciplined(Next(h, evs[0]), evs[1..]);
      } else {
        DisciplineFrom(Next(h, evs[0]), evs[1..]);
      }
    }
  }

  /** The ping discipline: each ping on the live channel follows a matching first pong to
      the ping before it. A run keeps it exactly when no heartbeat sends between the clear
      and the compare of a wrong pong. */
  lemma PingDisciplineIff(evs: seq<Event>)
    ensures Disciplined(Run(INIT, evs).trace) <==> !EverHasty(INIT, evs)
  {
    DisciplineFrom(INIT, evs);
  }

  lemma RunFrom(h: Heart, evs: seq<Event>, k: nat)
    requires k < |evs|
    ensures Run(h, evs[k..]) == Run(Next(h, evs[k]), evs[k + 1..])
  {
    assert evs[k..][1..] == evs[k + 1..];
  }

  /** A run that breaks it: a wrong pong, and the next ping sent on the live channel before
      the nonces are compared. */
  lemma HastyPing(n: nat, m: nat, k: nat)
    requires n != m
    ensures var h := Run(INIT, [Heartbeat(n), PongArrives(m), ClearPending, Heartbeat(k)]);
            !h.stopped && h.trace == [Sent(n), Pong(m), Sent(k)] && !Disciplined(h.trace)
  {
    var evs := [Heartbeat(n), PongArrives(m), ClearPending, Heartbeat(k)];
    assert evs[0..] == evs;
    RunFrom(INIT, evs, 0);
    var h1 := Next(INIT, evs[0]);
    RunFrom(h1, evs, 1);
    var h2 := Next(h1, evs[1]);
    assert h2.entered == Some(Answer(n, m));
    RunFrom(h2, evs, 2);
    var h3 := Next(h2, evs[2]);
    RunFrom(h3, evs, 3);
    var h := Next(h3, evs[3]);
    assert Run(h, evs[4..]) == h;
    assert h2.trace == [Sent(n)] + [Pong(m)] && [Sent(n)] == [] + [Sent(n)];
    ExtendTrace([], Sent(n));
    ExtendTrace([Sent(n)], Pong(m));
    ExtendTrace(h2.trace, Sent(k));
  }

  /** What a heartbeat on a live channel does, in terms of what arrived before it: with a
      ping unanswered, or answered by a pong whose callback has yet to clear the flag, it
      stops the channel, and otherwise it sends. */
  lemma HeartbeatMeaning(evs: seq<Event>, nonce: nat)
    requires !Run(INIT, evs).stopped
    ensures var h := Run(INIT, evs);
            var h' := Next(h, Heartbeat(nonce));
            if Last(h.trace).Unanswered? || h.entered.Some?
            then h'.stopped && h'.trace == h.trace
            else !h'.stopped && h'.trace == h.trace + [Sent(nonce)] && h'.waiting == [nonce]
  {
    RunInv(INIT, evs);
    var h := Run(INIT, evs);
    if !h.pending {
      assert h.waiting == [];
    }
  }

  /** `handle_receive_pong` run without interruption. */
  function PongAlone(h: Heart): Heart {
    if h.entered == None then h
    else if h.deaf then OnClear(h)
    else OnCompare(OnClear(h), |h.comparing|)
  }

  /** A pong whose callback is not interrupted keeps a live channel up exactly when no ping
      was owed an answer or it carries the owed nonce. */
  lemma PongMeaning(evs: seq<Event>, nonce: nat)
    requires !Run(INIT, evs).stopped && Run(INIT, evs).entered == None
    ensures var h := Run(INIT, evs);
            var h' := PongAlone(OnPong(h, nonce));
            !h'.stopped <==> (Last(h.trace).Unanswered? ==> Last(h.trace).ping == nonce)
  {
    RunInv(INIT, evs);
  }

  /** After a mismatch a heartbeat that comes before the stop notice hands one more ping to
      the channel already stopped. */
  lemma LatePing(n: nat, m: nat, k: nat)
    requires n != m
    ensures Run(INIT, [Heartbeat(n), PongArrives(m), ClearPending, Compare(0), Heartbeat(k)]).late == 1
  {
    var evs := [Heartbeat(n), PongArrives(m), ClearPending, Compare(0), Heartbeat(k)];
    assert evs[0..] == evs;
    RunFrom(INIT, evs, 0);
    var h1 := Next(INIT, evs[0]);
    RunFrom(h1, evs, 1);
    var h2 := Next(h1, evs[1]);
    assert h2.entered == Some(Answer(n, m));
    RunFrom(h2, evs, 2);
    var h3 := Next(h2, evs[2]);
    RunFrom(h3, evs, 3);
    var h4 := Next(h3, evs[3]);
    RunFrom(h4, evs, 4);
    assert Run(Next(h4, evs[4]), evs[5..]) == Next(h4, evs[4]);
  }

  /** Exactly when that happens: the first heartbeat to reach a protocol that has not yet
      heard of the stop, with no ping left unanswered and no pong's callback yet to clear
      the flag. */
  lemma LatePingIff(evs: seq<Event>, nonce: nat)
    ensures var h := Run(INIT, evs);
            Next(h, Heartbeat(nonce)).late > h.late <==>
            h.stopped && !h.deaf && h.late == 0 && !Last(h.trace).Unanswered? && h.entered == None
  {
    RunInv(INIT, evs);
  }

  /** The protocol object. Each callback is one method, not overtaken by another. */
  class PingProtocol {
    var stopped: bool
    var deaf: bool
    var pending: bool
    var waiting: seq<nat>
    var entered: Option<Answer>
    var answered: seq<nat>
    ghost var comparing: seq<Answer>
    ghost var trace: seq<Mark>
    ghost var late: nat

    ghost function Abs(): Heart
      reads this
    {
      Heart(stopped, deaf, pending, waiting, entered, comparing, trace, answered, late)
    }

    constructor ()
      ensures Abs() == INIT
    {
      stopped, deaf, pending, waiting, entered, answered := false, false, false, [], None, [];
      comparing, trace, late := [], [], 0;
    }

    method Stop()
      modifies this`stopped, this`waiting
      ensures Abs() == Next(old(Abs()), StopChannel)
    {
      stopped := true;
      waiting := [];
    }

    /** `nonce` is the random draw. */
    method SendPing(nonce: nat)
      modifies this
      ensures Abs() == OnHeartbeat(old(Abs()), nonce)
    {
      if deaf {
        return;
      }
      if pending {
        Stop();
        return;
      }
      pending := true;
      if !stopped {
        waiting := waiting + [nonce];
        trace := trace + [Sent(nonce)];
      } else {
        late := late + 1;
      }
    }

    /** The channel hands a pong to the subscription waiting for it, if any. */
    method Receive(nonce: nat)
      modifies this
      ensures Abs() == OnPong(old(Abs()), nonce)
    {
      if stopped {
        return;
      }
      trace := trace + [Pong(nonce)];
      if waiting != [] {
        entered := Some(Answer(waiting[0], nonce));
        waiting := [];
      }
    }

    /** The channel may have stopped since the pong was handed over. */
    method HandleReceivePong()
      requires entered.Some?
      modifies this
      ensures Abs() == PongAlone(old(Abs()))
    {
      var answer := entered.value;
      entered := None;
      if deaf {
        return;
      }
      pending := false;
      ghost var all := comparing + [answer];
      assert all[..|comparing|] + all[|comparing| + 1..] == comparing;
      if answer.got != answer.expected {
        Stop();
      }
    }

    method HandleReceivePing(nonce: nat)
      modifies this`answered
      ensures Abs() == OnPing(old(Abs()), nonce)
    {
      if !stopped && !deaf {
        answered := answered + [nonce];
      }
    }
  }
}
