/** The event handler slot of a protocol (`protocol_events` over `protocol_timer`)
    at the grain of single loads, stores and invocations, so that any number of
    `set_event` calls on different threads may interleave between any two of them. */
module Events {
  import opened Codes
  import opened Synchronize
  import opened Sums

  /** Where one call of `set_event` has got to. */
  datatype Point = Load | Check | Clear | Notify | Count | Ignored | Delivered

  datatype Raise = Raise(at: Point, ec: Code) {
    predicate Done() {
      at == Ignored || at == Delivered
    }

    /** The handler was loaded and an error is bound to reach the join. */
    predicate CommitsError() {
      ec != Success && (at == Notify || at == Count || at == Delivered)
    }
  }

  /** `handler` is whether the slot holds the event handler, `armed` whether the
      protocol timer runs. The event handler stops the timer on a channel stop and
      passes the code on to `join`, behind which is the completion handler. The last
      two fields are history: the codes the event handler saw, and the codes the
      completion handler was called with. */
  datatype Slot = Slot(open: bool, handler: bool, armed: bool, join: Join, raises: seq<Raise>,
                       seen: seq<Code>, fired: seq<Code>) {
    /** `protocol_events::stopped(ec)`. */
    predicate Stopped(ec: Code) {
      !handler || StopCode(ec)
    }

    predicate Quiet() {
      forall i :: 0 <= i < |raises| ==> raises[i].Done()
    }
  }

  function Closed(limit: nat): Slot {
    Slot(false, false, false, Fresh(limit, OnError), [], [], [])
  }

  /** `protocol_events::start`: the slot is filled and the timer started. */
  function Open(limit: nat, armed: bool): Slot {
    Slot(true, true, armed, Fresh(limit, OnError), [], [], [])
  }

  /** A thread enters `set_event(ec)`. */
  function Begin(s: Slot, ec: Code): Slot {
    s.(raises := s.raises + [Raise(Load, ec)])
  }

  /** The i-th `set_event` call makes its next access. */
  function Step(s: Slot, i: nat): (r: Slot)
    requires i < |s.raises|
    ensures |r.raises| == |s.raises|
  {
    var r := s.raises[i];
    match r.at
    case Load => s.(raises := s.raises[i := r.(at := if s.handler then Check else Ignored)])
    case Check => s.(raises := s.raises[i := r.(at := if s.Stopped(r.ec) then Clear else Notify)])
    case Clear => s.(handler := false, raises := s.raises[i := r.(at := Notify)])
    case Notify =>
      s.(armed := s.armed && r.ec != ChannelStopped, seen := s.seen + [r.ec],
         raises := s.raises[i := r.(at := Count)])
    case Count =>
      var (join, fires) := s.join.Call(r.ec);
      s.(join := join, fired := if fires then s.fired + [r.ec] else s.fired,
         raises := s.raises[i := r.(at := Delivered)])
    case Ignored => s
    case Delivered => s
  }

  function Delivers(r: Raise): nat {
    Bit(r.at == Delivered)
  }

  function DeliversError(r: Raise): nat {
    Bit(r.at == Delivered && r.ec != Success)
  }

  /** Calls made with success, whatever has become of them. */
  function Succeeds(r: Raise): nat {
    Bit(r.ec == Success)
  }

  /** What the completions say of the calls delivered to the join: none while it has
      seen fewer than `limit` calls and no error, else exactly one, with success only
      if the join saw `limit` successes and with an error only if it saw one. */
  ghost predicate Tallied(s: Slot) {
    var all, errors := Sum(s.raises, Delivers), Sum(s.raises, DeliversError);
    && s.join.mode == OnError && s.join.limit > 0
    && errors <= all
    && if errors == 0 && all < s.join.limit
       then s.join.count == all && s.fired == []
       else s.join.Cleared() && |s.fired| == 1 &&
            (if s.fired[0] == Success then all - errors >= s.join.limit else errors > 0)
  }

  /** An ignored call found the slot cleared, the slot is cleared only with cause, and
      once it is, some error is bound to reach the join. */
  ghost predicate NothingLost(s: Slot) {
    && (forall i :: 0 <= i < |s.raises| && s.raises[i].at == Ignored ==> !s.handler)
    && (forall i :: 0 <= i < |s.raises| && s.raises[i].at == Clear ==> s.raises[i].ec != Success || !s.handler)
    && (s.open && !s.handler ==> exists i :: 0 <= i < |s.raises| && s.raises[i].CommitsError())
    && (!s.open ==> s.raises == [])
  }

  ghost predicate Inv(s: Slot) {
    Tallied(s) && NothingLost(s)
  }

  lemma BeginInv(s: Slot, ec: Code)
    requires Inv(s) && s.open
    ensures Inv(Begin(s, ec))
    ensures Sum(Begin(s, ec).raises, Succeeds) == Sum(s.raises, Succeeds) + Bit(ec == Success)
  {
    var r := Raise(Load, ec);
    SumAppend(s.raises, r, Delivers);
    SumAppend(s.raises, r, DeliversError);
    SumAppend(s.raises, r, Succeeds);
    if !s.handler {
      var i :| 0 <= i < |s.raises| && s.raises[i].CommitsError();
      assert Begin(s, ec).raises[i] == s.raises[i];
    }
  }

  lemma StepSums(s: Slot, i: nat)
    requires i < |s.raises|
    ensures var r, s' := s.raises[i], Step(s, i);
            && Sum(s'.raises, Delivers) == Sum(s.raises, Delivers) + Bit(r.at == Count)
            && Sum(s'.raises, DeliversError) == Sum(s.raises, DeliversError) + Bit(r.at == Count && r.ec != Success)
            && Sum(s'.raises, Succeeds) == Sum(s.raises, Succeeds)
  {
    if !s.raises[i].Done() {
      MoveSums(s.raises, i, Step(s, i).raises[i].at);
    }
  }

  lemma MoveSums(raises: seq<Raise>, i: nat, at: Point)
    requires i < |raises| && raises[i].at != Delivered
    ensures var r := raises[i];
            var moved := raises[i := r.(at := at)];
            && Sum(moved, Delivers) == Sum(raises, Delivers) + Bit(at == Delivered)
            && Sum(moved, DeliversError) == Sum(raises, DeliversError) + Bit(at == Delivered && r.ec != Success)
            && Sum(moved, Succeeds) == Sum(raises, Succeeds)
  {
    var r := raises[i].(at := at);
    SumUpdate(raises, i, r, Delivers);
    SumUpdate(raises, i, r, DeliversError);
    SumUpdate(raises, i, r, Succeeds);
  }

  lemma CallTallied(join: Join, ec: Code, fired: seq<Code>, all: nat, errors: nat)
    requires join.mode == OnError && join.limit > 0 && errors <= all
    requires if errors == 0 && all < join.limit
             then join.count == all && fired == []
             else join.Cleared() && |fired| == 1 &&
                  (if fired[0] == Success then all - errors >= join.limit else errors > 0)
    ensures var (join', fires) := join.Call(ec);
            var fired' := if fires then fired + [ec] else fired;
            var all', errors' := all + 1, errors + Bit(ec != Success);
            if errors' == 0 && all' < join.limit
            then join'.count == all' && fired' == []
            else join'.Cleared() && |fired'| == 1 &&
                 (if fired'[0] == Success then all' - errors' >= join.limit else errors' > 0)
  {
  }

  lemma StepTallied(s: Slot, i: nat)
    requires Tallied(s) && i < |s.raises|
    ensures Tallied(Step(s, i))
  {
    StepSums(s, i);
    if s.raises[i].at == Count {
      CallTallied(s.join, s.raises[i].ec, s.fired, Sum(s.raises, Delivers), Sum(s.raises, DeliversError));
    }
  }

  lemma StepNothingLost(s: Slot, i: nat)
    requires NothingLost(s) && i < |s.raises|
    ensures NothingLost(Step(s, i))
  {
    var s' := Step(s, i);
    if s.open && !s'.handler {
      if s.handler {
        assert s'.raises[i].CommitsError();
      } else {
        var j :| 0 <= j < |s.raises| && s.raises[j].CommitsError();
        assert s'.raises[j].CommitsError();
      }
    }
  }

  lemma StepInv(s: Slot, i: nat)
    requires Inv(s) && i < |s.raises|
    ensures Inv(Step(s, i))
    ensures Sum(Step(s, i).raises, Succeeds) == Sum(s.raises, Succeeds)
  {
    StepSums(s, i);
    StepTallied(s, i);
    StepNothingLost(s, i);
  }

  /** What a step leaves alone: the codes of the calls, and a cleared slot or a
      stopped timer stays so. */
  lemma StepFrame(s: Slot, i: nat)
    requires i < |s.raises|
    ensures var s' := Step(s, i);
            && s'.open == s.open && s'.join.limit == s.join.limit
            && (s'.handler ==> s.handler) && (s'.armed ==> s.armed)
            && |s'.raises| == |s.raises|
            && forall j :: 0 <= j < |s.raises| ==> s'.raises[j].ec == s.raises[j].ec
  {
  }

  /** A completion, once made, is the only one ever. */
  lemma StepStable(s: Slot, i: nat)
    requires Inv(s) && i < |s.raises|
    ensures s.fired != [] ==> Step(s, i).fired == s.fired
  {
  }

  /** Completion with success needs `limit` calls made with success. */
  lemma SuccessNeedsAll(s: Slot)
    requires Inv(s)
    ensures |s.fired| <= 1
    ensures s.fired == [Success] ==> Sum(s.raises, Succeeds) >= s.join.limit
  {
    DeliveredSuccesses(s.raises);
  }

  lemma {:induction false} DeliveredSuccesses(raises: seq<Raise>)
    ensures Sum(raises, Delivers) - Sum(raises, DeliversError) <= Sum(raises, Succeeds)
  {
    if raises != [] {
      DeliveredSuccesses(raises[..|raises| - 1]);
    }
  }

  /** When no call is under way, the completion handler has run, and exactly once, if
      and only if some call was made with an error or `limit` calls with success: no
      interleaving of loads and clears loses or repeats it. */
  lemma QuietCompletes(s: Slot)
    requires Inv(s) && s.Quiet()
    ensures |s.fired| == 1 <==>
            (exists i :: 0 <= i < |s.raises| && s.raises[i].ec != Success) ||
            Sum(s.raises, Succeeds) >= s.join.limit
  {
    if i :| 0 <= i < |s.raises| && s.raises[i].CommitsError() {
      SumUpdate(s.raises, i, s.raises[i], DeliversError);
    } else {
      assert forall i :: 0 <= i < |s.raises| ==> s.raises[i].ec == Success && s.raises[i].at == Delivered;
      SumMonotone(s.raises, Delivers, Succeeds);
      SumMonotone(s.raises, Succeeds, Delivers);
      SumZero(s.raises, DeliversError);
    }
  }

  /** With no error among the calls the one completion is success. */
  lemma QuietSucceeds(s: Slot)
    requires Inv(s) && s.Quiet() && |s.fired| == 1
    requires forall i :: 0 <= i < |s.raises| ==> s.raises[i].ec == Success
    ensures s.fired == [Success]
  {
    SumZero(s.raises, DeliversError);
  }

  /** The completion is guarded by the join, not by the slot: when two threads load the
      handler before either clears it, the event handler does see two stops. */
  lemma TwoStopsSeen(limit: nat)
    requires limit > 0
    ensures var s := Begin(Begin(Open(limit, true), ChannelStopped), ChannelStopped);
            var r := Race(Race(Race(Race(Race(s)))));
            r.seen == [ChannelStopped, ChannelStopped] && r.fired == [ChannelStopped] && !r.handler
  {
    var s := Begin(Begin(Open(limit, true), ChannelStopped), ChannelStopped);
    assert Race(s).raises == [Raise(Check, ChannelStopped), Raise(Check, ChannelStopped)];
    assert Race(Race(s)).raises == [Raise(Clear, ChannelStopped), Raise(Clear, ChannelStopped)];
    var notified := Race(Race(Race(Race(s))));
    assert notified.seen == [ChannelStopped, ChannelStopped];
    assert notified.raises == [Raise(Count, ChannelStopped), Raise(Count, ChannelStopped)];
  }

  /** The first two calls each make a step. */
  function Race(s: Slot): (r: Slot)
    requires |s.raises| == 2
    ensures |r.raises| == 2
  {
    Step(Step(s, 0), 1)
  }

  // How many stops the event handler sees, over every interleaving.

  /** A thread enters `set_event`, or the i-th call makes its next access. */
  datatype Access = Call(ec: Code) | Move(index: nat)

  function Apply(s: Slot, x: Access): Slot {
    match x
    case Call(ec) => Begin(s, ec)
    case Move(i) => if i < |s.raises| then Step(s, i) else s
  }

  function Drive(s: Slot, xs: seq<Access>): Slot
    decreases |xs|
  {
    if xs == [] then s else Drive(Apply(s, xs[0]), xs[1..])
  }

  /** The state from which the slot is first cleared, or the last if it never is. */
  function AtClear(s: Slot, xs: seq<Access>): Slot
    decreases |xs|
  {
    if xs == [] || !Apply(s, xs[0]).handler then s else AtClear(Apply(s, xs[0]), xs[1..])
  }

  /** Calls with a stop code that found the handler in the slot. */
  function StopLoaded(r: Raise): nat {
    Bit(StopCode(r.ec) && r.at != Load && r.at != Ignored)
  }

  /** Those of them that have told the event handler. */
  function StopTold(r: Raise): nat {
    Bit(StopCode(r.ec) && (r.at == Count || r.at == Delivered))
  }

  function IsStop(ec: Code): nat {
    Bit(StopCode(ec))
  }

  function Stops(seen: seq<Code>): nat {
    Sum(seen, IsStop)
  }

  /** While the slot is filled no call with a stop code is past clearing it. */
  ghost predicate Uncleared(s: Slot) {
    s.handler ==> forall i :: 0 <= i < |s.raises| && StopCode(s.raises[i].ec) ==>
      s.raises[i].at == Load || s.raises[i].at == Check || s.raises[i].at == Clear
  }

  ghost predicate StopsOk(s: Slot) {
    Uncleared(s) && Stops(s.seen) == Sum(s.raises, StopTold)
  }

  lemma MoveUncleared(s: Slot, i: nat)
    requires Uncleared(s) && i < |s.raises|
    ensures Uncleared(Step(s, i))
  {
  }

  lemma ToldSum(s: Slot, i: nat)
    requires i < |s.raises|
    ensures var r := s.raises[i];
            Sum(Step(s, i).raises, StopTold) == Sum(s.raises, StopTold) + Bit(r.at == Notify && StopCode(r.ec))
  {
    if !s.raises[i].Done() {
      SumUpdate(s.raises, i, Step(s, i).raises[i], StopTold);
    }
  }

  lemma SeenSum(s: Slot, i: nat)
    requires i < |s.raises|
    ensures var r := s.raises[i];
            Stops(Step(s, i).seen) == Stops(s.seen) + Bit(r.at == Notify && StopCode(r.ec))
  {
    SumAppend(s.seen, s.raises[i].ec, IsStop);
  }

  lemma MoveLoaded(s: Slot, i: nat)
    requires i < |s.raises| && (!s.handler || !Step(s, i).handler)
    ensures Sum(Step(s, i).raises, StopLoaded) == Sum(s.raises, StopLoaded)
  {
    var r := s.raises[i];
    if !r.Done() {
      SumUpdate(s.raises, i, r.(at := Step(s, i).raises[i].at), StopLoaded);
    }
  }

  lemma ApplyStops(s: Slot, x: Access)
    requires StopsOk(s)
    ensures StopsOk(Apply(s, x))
    ensures !s.handler || !Apply(s, x).handler ==>
              !Apply(s, x).handler && Sum(Apply(s, x).raises, StopLoaded) == Sum(s.raises, StopLoaded)
  {
    match x
    case Call(ec) =>
      SumAppend(s.raises, Raise(Load, ec), StopTold);
      SumAppend(s.raises, Raise(Load, ec), StopLoaded);
    case Move(i) =>
      if i < |s.raises| {
        MoveUncleared(s, i);
        ToldSum(s, i);
        SeenSum(s, i);
        if !s.handler || !Step(s, i).handler {
          MoveLoaded(s, i);
        }
      }
  }

  /** After the first clear no further call can reach the event handler with a stop. */
  lemma {:induction false} LoadedFrozen(s: Slot, xs: seq<Access>)
    requires StopsOk(s) && !s.handler
    ensures StopsOk(Drive(s, xs)) && !Drive(s, xs).handler
    ensures Sum(Drive(s, xs).raises, StopLoaded) == Sum(s.raises, StopLoaded)
    decreases |xs|
  {
    if xs != [] {
      ApplyStops(s, xs[0]);
      LoadedFrozen(Apply(s, xs[0]), xs[1..]);
    }
  }

  lemma {:induction false} LoadedAtClear(s: Slot, xs: seq<Access>)
    requires StopsOk(s) && s.handler
    ensures StopsOk(Drive(s, xs))
    ensures !Drive(s, xs).handler ==>
              Sum(Drive(s, xs).raises, StopLoaded) == Sum(AtClear(s, xs).raises, StopLoaded)
    decreases |xs|
  {
    if xs != [] {
      ApplyStops(s, xs[0]);
      if Apply(s, xs[0]).handler {
        LoadedAtClear(Apply(s, xs[0]), xs[1..]);
      } else {
        LoadedFrozen(Apply(s, xs[0]), xs[1..]);
      }
    }
  }

  /** In every interleaving, with no call under way, the event handler has seen exactly
      as many stops as calls with a stop code had loaded it before it was first cleared,
      and none if it was not. So it sees a second stop if and only if a second such call
      loads the handler before the first clears it. */
  lemma StopsSeen(limit: nat, armed: bool, xs: seq<Access>)
    ensures var s := Open(limit, armed);
            var r := Drive(s, xs);
            r.Quiet() ==> Stops(r.seen) == if r.handler then 0 else Sum(AtClear(s, xs).raises, StopLoaded)
  {
    var s := Open(limit, armed);
    var r := Drive(s, xs);
    LoadedAtClear(s, xs);
    if r.Quiet() {
      if r.handler {
        SumZero(r.raises, StopTold);
      } else {
        SumMonotone(r.raises, StopTold, StopLoaded);
        SumMonotone(r.raises, StopLoaded, StopTold);
      }
    }
  }

  /** `set_event` when nothing interleaves with it. */
  function SetEvent(s: Slot, ec: Code): Slot {
    var r := Raise(if s.handler then Delivered else Ignored, ec);
    if !s.handler then s.(raises := s.raises + [r])
    else
      var (join, fires) := s.join.Call(ec);
      s.(handler := !StopCode(ec), armed := s.armed && ec != ChannelStopped, join := join,
         raises := s.raises + [r], seen := s.seen + [ec], fired := if fires then s.fired + [ec] else s.fired)
  }

  function Steps(s: Slot, i: nat, n: nat): Slot
    requires i < |s.raises|
    decreases n
  {
    if n == 0 then s else Steps(Step(s, i), i, n - 1)
  }

  /** The fine-grained steps, run without interruption, are exactly `SetEvent`. */
  lemma SetEventAlone(s: Slot, ec: Code)
    ensures Steps(Begin(s, ec), |s.raises|, 5) == SetEvent(s, ec)
  {
    var i := |s.raises|;
    var s0 := Begin(s, ec);
    var s1 := Step(s0, i);
    var s2 := Step(s1, i);
    var s3 := Step(s2, i);
    var s4 := Step(s3, i);
    assert Steps(s4, i, 1) == Steps(Step(s4, i), i, 0);
    assert Steps(s3, i, 2) == Steps(s4, i, 1);
    assert Steps(s2, i, 3) == Steps(s3, i, 2);
    assert Steps(s1, i, 4) == Steps(s2, i, 3);
    assert Steps(s0, i, 5) == Steps(s1, i, 4);
    assert Step(s4, i).raises == SetEvent(s, ec).raises;
  }

  /** The slot as the base object the protocols have, used by one thread at a time. The
      completion handler is behind a join of `limit` calls. */
  class EventSlot {
    const limit: nat
    var handler: bool
    var armed: bool
    var count: nat
    var completions: seq<Code>
    ghost var slot: Slot

    ghost predicate Valid()
      reads this
    {
      && handler == slot.handler && armed == slot.armed
      && slot.join == Join(limit, OnError, count) && completions == slot.fired
    }

    constructor (limit: nat)
      ensures Valid() && this.limit == limit && slot == Closed(limit)
    {
      this.limit := limit;
      handler, armed, count, completions := false, false, 0, [];
      slot := Closed(limit);
    }

    /** The timer does not start on a channel that has stopped. */
    method Start(running: bool)
      requires Valid()
      modifies this
      ensures Valid() && slot == Open(limit, running)
    {
      handler, armed, count, completions := true, running, 0, [];
      slot := Open(limit, running);
    }

    /** The timer fires; it does not start itself again. */
    method Expire()
      requires Valid() && armed
      modifies this
      ensures Valid() && slot == old(slot).(armed := false)
    {
      armed := false;
      slot := slot.(armed := false);
    }

    method IsStopped(ec: Code) returns (r: bool)
      requires Valid()
      ensures r == slot.Stopped(ec)
    {
      r := !handler || ec == ChannelStopped || ec == ServiceStopped;
    }

    method JoinHandler(ec: Code)
      modifies this`count, this`completions
      ensures var (j, fires) := old(Join(limit, OnError, count)).Call(ec);
              Join(limit, OnError, count) == j &&
              completions == if fires then old(completions) + [ec] else old(completions)
    {
      if count >= limit {
        return;
      }
      count := if ec != Success then limit else count + 1;
      if count == limit {
        completions := completions + [ec];
      }
    }

    /** `protocol_timer::handle_notify`. */
    method HandleNotify(ec: Code)
      modifies this`count, this`completions, this`armed
      ensures armed == (old(armed) && ec != ChannelStopped)
      ensures var (j, fires) := old(Join(limit, OnError, count)).Call(ec);
              Join(limit, OnError, count) == j &&
              completions == if fires then old(completions) + [ec] else old(completions)
    {
      if ec == ChannelStopped {
        armed := false;
      }
      JoinHandler(ec);
    }

    /** `protocol_events::set_event`. */
    method RaiseEvent(ec: Code)
      requires Valid()
      modifies this
      ensures Valid() && slot == SetEvent(old(slot), ec)
    {
      ghost var after := SetEvent(slot, ec);
      if handler {
        var stopping := IsStopped(ec);
        if stopping {
          handler := false;
        }
        HandleNotify(ec);
      }
      slot := after;
    }
  }
}
