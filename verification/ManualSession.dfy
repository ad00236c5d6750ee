/** One manual connection: the attempts of its first cycle, which carries the caller's
    callback, and the reconnection cycles after it, which do not. */
module ManualSession {
  import opened Codes

  /** Where the current connect cycle is; `mine` says that it carries the callback. */
  datatype Cycle =
    | Connecting(retries: nat, mine: bool)
    | Waiting(remaining: nat, mine: bool)
    | Registering(mine: bool)
    | Up
    | Ended

  /** `attempts` counts the connection attempts of the current cycle, `due` is the
      outstanding start handler of the caller's channel, and `callback` the calls made
      of the caller's callback. */
  datatype Manual = Manual(stopped: bool, cycle: Cycle, attempts: nat, due: Option<Code>, callback: seq<Code>)

  datatype Event =
    | ConnectFails(ec: Code)
    | ConnectSucceeds
    | DelayElapsed
    | Registered(ec: Code)
    | ChannelStop
    | StartHandler
    | SessionStop

  function FloorSubtract(a: nat, b: nat): nat {
    if a > b then a - b else 0
  }

  function Call(m: Manual, mine: bool, ec: Code): seq<Code> {
    if mine then m.callback + [ec] else m.callback
  }

  /** `start_connect`. */
  function StartConnect(m: Manual, attempts: nat, mine: bool): Manual {
    m.(cycle := if m.stopped then Ended else Connecting(FloorSubtract(attempts, 1), mine),
       attempts := if m.stopped then m.attempts else m.attempts + 1,
       callback := if m.stopped then Call(m, mine, ServiceStopped) else m.callback)
  }

  /** `connect` without a callback, as used after a stop: a new cycle. Its handler does
      nothing, so the caller's callback is untouched. */
  function Reconnect(limit: nat, m: Manual): Manual {
    StartConnect(m.(attempts := 0), limit, false)
  }

  /** `connect` with the caller's callback. */
  function Begin(limit: nat, stopped: bool): Manual {
    StartConnect(Manual(stopped, Ended, 0, None, []), limit, true)
  }

  /** `handle_connect` with an error. */
  function OnConnectFails(limit: nat, m: Manual, ec: Code): Manual {
    if !m.cycle.Connecting? || ec == Success then m
    else
      var mine := m.cycle.mine;
      var remaining := if limit == 0 then 1 else m.cycle.retries;
      m.(cycle := if remaining > 0 then Waiting(remaining, mine) else Ended,
         callback := if remaining > 0 then m.callback else Call(m, mine, ec))
  }

  /** The registration of a channel ends: its stop handler reconnects on failure unless
      the address is in use, and its start handler is due. */
  function OnRegistered(limit: nat, m: Manual, ec: Code): Manual {
    if !m.cycle.Registering? then m
    else
      var again := ec != Success && ec != AddressInUse;
      m.(due := if m.cycle.mine then Some(ec) else m.due,
         cycle := if again then Reconnect(limit, m).cycle else if ec == Success then Up else Ended,
         attempts := if again then Reconnect(limit, m).attempts else m.attempts)
  }

  /** `handle_channel_start` of the caller's channel. */
  function OnStartHandler(m: Manual): Manual {
    if m.due == None then m
    else m.(due := None,
            callback := if m.due == Some(Success) then m.callback + [Success] else m.callback)
  }

  function Next(limit: nat, m: Manual, ev: Event): Manual {
    match ev
    case ConnectFails(ec) => OnConnectFails(limit, m, ec)
    case ConnectSucceeds => if m.cycle.Connecting? then m.(cycle := Registering(m.cycle.mine)) else m
    case DelayElapsed => if m.cycle.Waiting? then StartConnect(m, m.cycle.remaining, m.cycle.mine) else m
    case Registered(ec) => OnRegistered(limit, m, ec)
    case ChannelStop => if m.cycle.Up? then Reconnect(limit, m) else m
    case StartHandler => OnStartHandler(m)
    case SessionStop => m.(stopped := true)
  }

  function Run(limit: nat, m: Manual, evs: seq<Event>): Manual
    decreases |evs|
  {
    if evs == [] then m else Run(limit, Next(limit, m, evs[0]), evs[1..])
  }

  predicate Mine(c: Cycle) {
    match c
    case Connecting(_, mine) => mine
    case Waiting(_, mine) => mine
    case Registering(mine) => mine
    case _ => false
  }

  /** The caller's callback is in one place at most: with the first cycle, with its
      channel's start handler, or called. And a cycle under a limit has made and left
      exactly `limit` attempts. */
  ghost predicate Inv(limit: nat, m: Manual) {
    && |m.callback| + Bit(Mine(m.cycle)) + Bit(m.due.Some?) <= 1
    && (limit > 0 && m.cycle.Connecting? ==> m.attempts + m.cycle.retries == limit)
    && (m.cycle.Waiting? ==> m.cycle.remaining > 0 && (limit > 0 ==> m.attempts + m.cycle.remaining == limit))
  }

  lemma NextInv(limit: nat, m: Manual, ev: Event)
    requires Inv(limit, m)
    ensures Inv(limit, Next(limit, m, ev))
    ensures m.callback != [] ==> Next(limit, m, ev).callback == m.callback
    ensures !Mine(m.cycle) ==> !Mine(Next(limit, m, ev).cycle)
  {
  }

  lemma {:induction false} RunInv(limit: nat, m: Manual, evs: seq<Event>)
    requires Inv(limit, m)
    ensures Inv(limit, Run(limit, m, evs))
    ensures m.callback != [] ==> Run(limit, m, evs).callback == m.callback
    decreases |evs|
  {
    if evs != [] {
      NextInv(limit, m, evs[0]);
      RunInv(limit, Next(limit, m, evs[0]), evs[1..]);
    }
  }

  /** How the caller's own channel came out of its registration, if a connect attempt of
      the first cycle ever succeeded: the code of the first `Registered` event to find
      that cycle registering. */
  function Outcome(limit: nat, m: Manual, evs: seq<Event>): Option<Code>
    decreases |evs|
  {
    if evs == [] then None
    else if evs[0].Registered? && m.cycle == Registering(true) then Some(evs[0].ec)
    else Outcome(limit, Next(limit, m, evs[0]), evs[1..])
  }

  /** Once the first cycle is over and nothing is due, the callback is settled. */
  lemma {:induction false} SettledRun(limit: nat, m: Manual, evs: seq<Event>)
    requires Inv(limit, m) && !Mine(m.cycle) && m.due == None
    ensures Run(limit, m, evs).callback == m.callback && Outcome(limit, m, evs) == None
    decreases |evs|
  {
    if evs != [] {
      NextInv(limit, m, evs[0]);
      SettledRun(limit, Next(limit, m, evs[0]), evs[1..]);
    }
  }

  /** With the caller's channel registered with this code, its start handler calls back
      if that is success and drops the callback otherwise. */
  lemma {:induction false} RegisteredRun(limit: nat, m: Manual, evs: seq<Event>, ec: Code)
    requires Inv(limit, m) && m.due == Some(ec)
    ensures var r := Run(limit, m, evs);
            && !Mine(r.cycle) && (r.due == None || r.due == Some(ec))
            && r.callback == if r.due == None && ec == Success then [Success] else []
    decreases |evs|
  {
    if evs != [] {
      var m' := Next(limit, m, evs[0]);
      NextInv(limit, m, evs[0]);
      if m'.due == None {
        SettledRun(limit, m', evs[1..]);
        RunMine(limit, m', evs[1..]);
      } else {
        RegisteredRun(limit, m', evs[1..], ec);
      }
    }
  }

  lemma {:induction false} RunMine(limit: nat, m: Manual, evs: seq<Event>)
    requires Inv(limit, m) && !Mine(m.cycle) && m.due == None
    ensures !Mine(Run(limit, m, evs).cycle) && Run(limit, m, evs).due == None
    decreases |evs|
  {
    if evs != [] {
      NextInv(limit, m, evs[0]);
      RunMine(limit, Next(limit, m, evs[0]), evs[1..]);
    }
  }

  lemma {:induction false} FirstCycle(limit: nat, m: Manual, evs: seq<Event>)
    requires Inv(limit, m) && Mine(m.cycle)
    ensures var r := Run(limit, m, evs);
            !Mine(r.cycle) && r.due == None ==>
              match Outcome(limit, m, evs)
              case None => |r.callback| == 1 && r.callback[0] != Success
              case Some(ec) => r.callback == if ec == Success then [Success] else []
    decreases |evs|
  {
    if evs != [] {
      var m' := Next(limit, m, evs[0]);
      NextInv(limit, m, evs[0]);
      if Mine(m'.cycle) {
        FirstCycle(limit, m', evs[1..]);
      } else if m'.due.Some? {
        RegisteredRun(limit, m', evs[1..], m'.due.value);
      } else {
        SettledRun(limit, m', evs[1..]);
      }
    }
  }

  /** Across all reconnections the caller's callback runs at most once, and a limited
      cycle never exceeds its limit. */
  lemma CallbackOnce(limit: nat, stopped: bool, evs: seq<Event>)
    ensures var m := Run(limit, Begin(limit, stopped), evs);
            && |m.callback| <= 1
            && (limit > 0 && (m.cycle.Connecting? || m.cycle.Waiting?) ==> m.attempts <= limit)
  {
    RunInv(limit, Begin(limit, stopped), evs);
  }

  /** It does not always run. Once the first cycle is over it has been lost exactly when
      that cycle connected a channel whose registration then failed; it has been called
      with success exactly when that registration succeeded, and otherwise with an
      error. */
  lemma CallbackLostIff(limit: nat, stopped: bool, evs: seq<Event>)
    ensures var b := Begin(limit, stopped);
            var m := Run(limit, b, evs);
            !Mine(m.cycle) && m.due == None ==>
              && (m.callback == [] <==> Outcome(limit, b, evs).Some? && Outcome(limit, b, evs) != Some(Success))
              && (m.callback == [Success] <==> Outcome(limit, b, evs) == Some(Success))
  {
    if stopped {
      SettledRun(limit, Begin(limit, stopped), evs);
      assert Begin(limit, stopped).callback[0] == ServiceStopped;
    } else {
      FirstCycle(limit, Begin(limit, stopped), evs);
    }
  }

  /** The callback is lost for good by a run as short as this one. */
  lemma CallbackDropped(limit: nat)
    ensures var m := Run(limit, Begin(limit, false), [ConnectSucceeds, Registered(ChannelTimeout), StartHandler]);
            !Mine(m.cycle) && m.due == None && m.callback == []
  {
    var evs := [ConnectSucceeds, Registered(ChannelTimeout), StartHandler];
    assert evs[1..] == [Registered(ChannelTimeout), StartHandler];
    assert evs[1..][1..] == [StartHandler];
    assert evs[1..][1..][1..] == [];
    var m1 := Next(limit, Begin(limit, false), ConnectSucceeds);
    var m2 := Next(limit, m1, Registered(ChannelTimeout));
    assert Run(limit, m2, [StartHandler]) == Next(limit, m2, StartHandler);
    assert Run(limit, m1, evs[1..]) == Run(limit, m2, [StartHandler]);
  }

  /** The codes of the connection attempts that failed, in order. */
  function Failures(limit: nat, m: Manual, evs: seq<Event>): seq<Code>
    decreases |evs|
  {
    if evs == [] then []
    else
      (if Fails(m, evs[0]) then [evs[0].ec] else []) + Failures(limit, Next(limit, m, evs[0]), evs[1..])
  }

  predicate Failing(evs: seq<Event>) {
    ConnectSucceeds !in evs && SessionStop !in evs
  }

  /** A first cycle that has met only failures: it goes on, or has ended and called back. */
  ghost predicate Trying(limit: nat, m: Manual) {
    && Inv(limit, m) && !m.stopped && m.due == None
    && (m.cycle.Ended? || ((m.cycle.Connecting? || m.cycle.Waiting?) && Mine(m.cycle) && m.callback == []))
  }

  predicate Fails(m: Manual, ev: Event) {
    ev.ConnectFails? && ev.ec != Success && m.cycle.Connecting?
  }

  lemma FailingStep(limit: nat, m: Manual, ev: Event)
    requires Trying(limit, m) && ev != ConnectSucceeds && ev != SessionStop
    ensures var m' := Next(limit, m, ev);
            && Trying(limit, m')
            && (m.cycle.Ended? ==> m' == m)
            && m'.attempts + Bit(m.cycle.Connecting?) == m.attempts + Bit(Fails(m, ev)) + Bit(m'.cycle.Connecting?)
            && (!m.cycle.Ended? && m'.cycle.Ended? ==>
                  limit > 0 && m'.attempts == limit && Fails(m, ev) && m'.callback == [ev.ec])
  {
    NextInv(limit, m, ev);
  }

  lemma {:induction false} FailuresFrom(limit: nat, m: Manual, evs: seq<Event>)
    requires Trying(limit, m) && Failing(evs)
    ensures var r := Run(limit, m, evs);
            var f := Failures(limit, m, evs);
            && Trying(limit, r)
            && (m.cycle.Ended? ==> r == m && f == [])
            && r.attempts + Bit(m.cycle.Connecting?) == m.attempts + |f| + Bit(r.cycle.Connecting?)
            && (!m.cycle.Ended? && r.cycle.Ended? ==>
                  limit > 0 && r.attempts == limit && f != [] && r.callback == [f[|f| - 1]])
    decreases |evs|
  {
    if evs != [] {
      assert evs[0] in evs;
      assert forall x :: x in evs[1..] ==> x in evs;
      FailingStep(limit, m, evs[0]);
      FailuresFrom(limit, Next(limit, m, evs[0]), evs[1..]);
    }
  }

  /** In every run in which no attempt connects and the session stays up, the attempts
      made are the failures and perhaps one under way; with a limit L > 0 the cycle ends
      exactly on the L-th failure and then calls back once, with that last error; with
      no limit it never gives up. */
  lemma ExactlyLimitAttempts(limit: nat, evs: seq<Event>)
    requires Failing(evs)
    ensures var b := Begin(limit, false);
            var m := Run(limit, b, evs);
            var f := Failures(limit, b, evs);
            && m.attempts == |f| + Bit(m.cycle.Connecting?)
            && (m.cycle.Ended? <==> limit > 0 && |f| == limit)
            && (limit > 0 ==> |f| <= limit)
            && m.callback == if m.cycle.Ended? then [f[limit - 1]] else []
  {
    FailuresFrom(limit, Begin(limit, false), evs);
  }
}
