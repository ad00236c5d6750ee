/** The read cycle of a channel (`proxy`): heading, payload, dispatch, again. */
module ReadCycle {
  import opened Codes

  type Bytes = seq<bv8>

  /** A parsed heading. Parsing belongs to the message library. */
  datatype Heading = Heading(valid: bool, magic: nat, size: nat, checksum: nat)

  datatype Config = Config(magic: nat, maximum: nat, validate: bool, checksum: Bytes -> nat) {
    predicate Acceptable(h: Heading) {
      h.valid && h.magic == magic && h.size <= maximum
    }

    predicate Matches(h: Heading, payload: Bytes) {
      !validate || h.checksum == checksum(payload)
    }
  }

  /** What the channel does, in order. `Load` hands a message to the subscribers. */
  datatype Mark =
    | Opened
    | IssueHeading
    | HeadingRead(ec: Code, head: Heading)
    | IssuePayload(head: Heading)
    | PayloadRead(ec: Code, payload: Bytes)
    | Load(head: Heading, payload: Bytes)
    | Stopped

  /** Where the reading thread is. `Starting` is inside the start handler; `Want...` is
      before a stop test, `Issuing...` and `Loading` between a passed test and the act
      it guards, `Await...` is waiting for the socket. */
  datatype Reading =
    | Idle
    | Starting
    | WantHeading
    | IssuingHeading
    | AwaitHeading
    | HeadingEntered(ec: Code, head: Heading)
    | WantPayload(head: Heading)
    | IssuingPayload(head: Heading)
    | AwaitPayload(head: Heading)
    | PayloadEntered(head: Heading, ec: Code, payload: Bytes)
    | Loading(head: Heading, payload: Bytes)
    | Dispatching

  datatype Proxy = Proxy(stopped: bool, reading: Reading, trace: seq<Mark>)

  /** `Stop` comes from any thread, at any point. */
  datatype Event =
    | Start
    | StartReturns
    | Proceed
    | HeadingDone(ec: Code, head: Heading)
    | PayloadDone(ec: Code, payload: Bytes)
    | DispatchReturns(ec: Code, consumed: bool)
    | Stop

  const INIT: Proxy := Proxy(true, Idle, [])

  /** Whatever stopped the channel before, starting it opens it again. An earlier cycle
      must have come to its end. */
  function OnStart(p: Proxy): Proxy {
    if !p.stopped || !p.reading.Idle? then p
    else p.(stopped := false, reading := Starting, trace := p.trace + [Opened])
  }

  function OnStop(p: Proxy): Proxy {
    p.(stopped := true, trace := p.trace + [Stopped])
  }

  function OnHeadingDone(p: Proxy, ec: Code, h: Heading): Proxy {
    if !p.reading.AwaitHeading? then p
    else p.(reading := HeadingEntered(ec, h), trace := p.trace + [HeadingRead(ec, h)])
  }

  /** A successful read fills the payload buffer, which has the size announced. */
  function OnPayloadDone(p: Proxy, ec: Code, payload: Bytes): Proxy {
    if !p.reading.AwaitPayload? || (ec == Success && |payload| != p.reading.head.size) then p
    else p.(reading := PayloadEntered(p.reading.head, ec, payload), trace := p.trace + [PayloadRead(ec, payload)])
  }

  function OnDispatchReturns(p: Proxy, ec: Code, consumed: bool): Proxy {
    if !p.reading.Dispatching? then p
    else if ec != Success || !consumed then OnStop(p.(reading := Idle))
    else p.(reading := WantHeading)
  }

  /** The thread is about to test the stop flag. */
  predicate Tests(r: Reading) {
    r.WantHeading? || r.WantPayload? || r.HeadingEntered? || r.PayloadEntered?
  }

  /** A read or dispatch the thread can no longer be kept from. */
  predicate Committed(r: Reading) {
    r.IssuingHeading? || r.IssuingPayload? || r.Loading?
  }

  /** The checks of a completion handler that stop the channel. */
  predicate Fails(c: Config, r: Reading) {
    match r
    case HeadingEntered(ec, h) => ec != Success || !c.Acceptable(h)
    case PayloadEntered(h, ec, payload) => ec != Success || !c.Matches(h, payload)
    case _ => false
  }

  /** Where a passed test leads. */
  function Passed(r: Reading): Reading {
    match r
    case WantHeading => IssuingHeading
    case WantPayload(h) => IssuingPayload(h)
    case HeadingEntered(_, h) => WantPayload(h)
    case PayloadEntered(h, _, payload) => Loading(h, payload)
    case _ => r
  }

  /** The act a committed thread performs, and where it then is. */
  function Act(r: Reading): (Mark, Reading)
    requires Committed(r)
  {
    match r
    case IssuingHeading => (IssueHeading, AwaitHeading)
    case IssuingPayload(h) => (IssuePayload(h), AwaitPayload(h))
    case Loading(h, payload) => (Load(h, payload), Dispatching)
  }

  function OnProceed(c: Config, p: Proxy): Proxy {
    if Tests(p.reading) then
      if p.stopped then p.(reading := Idle)
      else if Fails(c, p.reading) then OnStop(p.(reading := Idle))
      else p.(reading := Passed(p.reading))
    else if Committed(p.reading) then
      var (m, r) := Act(p.reading);
      p.(reading := r, trace := p.trace + [m])
    else p
  }

  function Next(c: Config, p: Proxy, ev: Event): Proxy {
    match ev
    case Start => OnStart(p)
    case StartReturns => if p.reading.Starting? then p.(reading := WantHeading) else p
    case Proceed => OnProceed(c, p)
    case HeadingDone(ec, h) => OnHeadingDone(p, ec, h)
    case PayloadDone(ec, payload) => OnPayloadDone(p, ec, payload)
    case DispatchReturns(ec, consumed) => OnDispatchReturns(p, ec, consumed)
    case Stop => OnStop(p)
  }

  function Run(c: Config, p: Proxy, evs: seq<Event>): Proxy
    decreases |evs|
  {
    if evs == [] then p else Run(c, Next(c, p, evs[0]), evs[1..])
  }

  // What a trace says.

  function Front(trace: seq<Mark>): seq<Mark>
    requires trace != []
  {
    trace[..|trace| - 1]
  }

  function Back(trace: seq<Mark>): Mark
    requires trace != []
  {
    trace[|trace| - 1]
  }

  predicate Issues(m: Mark) {
    m.IssueHeading? || m.IssuePayload?
  }

  predicate Reads(m: Mark) {
    m.HeadingRead? || m.PayloadRead?
  }

  /** The last read issued or completed since the channel was opened. */
  function Latest(trace: seq<Mark>): Option<Mark> {
    if trace == [] || Back(trace).Opened? then None
    else if Issues(Back(trace)) || Reads(Back(trace)) then Some(Back(trace))
    else Latest(Front(trace))
  }

  /** The heading for which a payload was last asked. */
  function Asked(trace: seq<Mark>): Option<Heading> {
    if trace == [] || Back(trace).Opened? then None
    else if Back(trace).IssuePayload? then Some(Back(trace).head)
    else Asked(Front(trace))
  }

  /** What may follow, given the last read and the heading last asked for. A payload is
      read only for a heading just received, without error, valid, of this network and
      within the size limit; a message is handed on only with the payload just received
      for that heading, of the size announced and with a matching checksum where that is
      validated. */
  predicate Allowed(c: Config, latest: Option<Mark>, asked: Option<Heading>, m: Mark) {
    match m
    case Opened => latest == None || Reads(latest.value)
    case IssueHeading => latest == None || latest.value.PayloadRead?
    case HeadingRead(_, _) => latest == Some(IssueHeading)
    case IssuePayload(h) => c.Acceptable(h) && latest == Some(HeadingRead(Success, h))
    case PayloadRead(_, _) => latest != None && latest.value.IssuePayload?
    case Load(h, payload) =>
      && c.Acceptable(h) && c.Matches(h, payload) && |payload| == h.size
      && asked == Some(h) && latest == Some(PayloadRead(Success, payload))
    case Stopped => true
  }

  ghost predicate Legal(c: Config, trace: seq<Mark>) {
    trace != [] ==> Legal(c, Front(trace)) && Allowed(c, Latest(Front(trace)), Asked(Front(trace)), Back(trace))
  }

  /** Reads issued and not completed. */
  function Outstanding(trace: seq<Mark>): int {
    if trace == [] then 0
    else Outstanding(Front(trace)) + Bit(Issues(Back(trace))) - Bit(Reads(Back(trace)))
  }

  /** The reads issued since the channel was opened, in order: true for a heading. */
  function Issued(trace: seq<Mark>): seq<bool> {
    if trace == [] || Back(trace).Opened? then []
    else if Issues(Back(trace)) then Issued(Front(trace)) + [Back(trace).IssueHeading?]
    else Issued(Front(trace))
  }

  predicate Alternate(kinds: seq<bool>) {
    forall i :: 0 <= i < |kinds| ==> kinds[i] == (i % 2 == 0)
  }

  /** Reads issued and messages handed on. */
  function Acts(trace: seq<Mark>): nat {
    if trace == [] then 0
    else Acts(Front(trace)) + Bit(Issues(Back(trace)) || Back(trace).Load?)
  }

  /** Not opened, or stopped since. */
  predicate Halted(trace: seq<Mark>) {
    trace == [] || Back(trace).Stopped? || (!Back(trace).Opened? && Halted(Front(trace)))
  }

  /** The reads issued and messages handed on since the channel was opened, but after a
      stop. */
  function LateActs(trace: seq<Mark>): nat {
    if trace == [] || Back(trace).Opened? then 0
    else LateActs(Front(trace)) + Bit((Issues(Back(trace)) || Back(trace).Load?) && Halted(Front(trace)))
  }

  lemma {:induction false} LegalMeaning(c: Config, trace: seq<Mark>)
    requires Legal(c, trace)
    ensures Outstanding(trace) == Bit(Latest(trace) != None && Issues(Latest(trace).value))
    ensures Alternate(Issued(trace))
    ensures |Issued(trace)| % 2 ==
            Bit(Latest(trace) != None && (Latest(trace).value.IssueHeading? || Latest(trace).value.HeadingRead?))
    decreases |trace|
  {
    if trace != [] {
      LegalMeaning(c, Front(trace));
    }
  }

  /** What the trace looks like at each point of the cycle. */
  predicate Matched(c: Config, r: Reading, latest: Option<Mark>, asked: Option<Heading>) {
    match r
    case Idle => latest == None || Reads(latest.value)
    case Starting => latest == None
    case WantHeading => latest == None || latest.value.PayloadRead?
    case IssuingHeading => latest == None || latest.value.PayloadRead?
    case AwaitHeading => latest == Some(IssueHeading)
    case HeadingEntered(ec, h) => latest == Some(HeadingRead(ec, h))
    case WantPayload(h) => c.Acceptable(h) && latest == Some(HeadingRead(Success, h))
    case IssuingPayload(h) => c.Acceptable(h) && latest == Some(HeadingRead(Success, h))
    case AwaitPayload(h) => c.Acceptable(h) && latest == Some(IssuePayload(h)) && asked == Some(h)
    case PayloadEntered(h, ec, payload) =>
      && c.Acceptable(h) && latest == Some(PayloadRead(ec, payload)) && asked == Some(h)
      && (ec == Success ==> |payload| == h.size)
    case Loading(h, payload) => Allowed(c, latest, asked, Load(h, payload))
    case Dispatching => latest != None && latest.value.PayloadRead?
  }

  ghost predicate Inv(c: Config, p: Proxy) {
    && Legal(c, p.trace) && Matched(c, p.reading, Latest(p.trace), Asked(p.trace))
    && (p.stopped <==> Halted(p.trace))
    && (p.reading.Idle? ==> p.stopped)
    && LateActs(p.trace) <= 1
    && (!p.stopped || Committed(p.reading) ==> LateActs(p.trace) == 0)
  }

  function LatestAfter(latest: Option<Mark>, m: Mark): Option<Mark> {
    if m.Opened? then None else if Issues(m) || Reads(m) then Some(m) else latest
  }

  function AskedAfter(asked: Option<Heading>, m: Mark): Option<Heading> {
    if m.Opened? then None else if m.IssuePayload? then Some(m.head) else asked
  }

  lemma Extend(c: Config, trace: seq<Mark>, m: Mark)
    requires Legal(c, trace) && Allowed(c, Latest(trace), Asked(trace), m)
    ensures Legal(c, trace + [m])
    ensures Latest(trace + [m]) == LatestAfter(Latest(trace), m)
    ensures Asked(trace + [m]) == AskedAfter(Asked(trace), m)
    ensures LateActs(trace + [m]) ==
            if m.Opened? then 0 else LateActs(trace) + Bit((Issues(m) || m.Load?) && Halted(trace))
    ensures Halted(trace + [m]) <==> m.Stopped? || (!m.Opened? && Halted(trace))
  {
    assert Front(trace + [m]) == trace && Back(trace + [m]) == m;
  }

  lemma StopInv(c: Config, p: Proxy)
    requires Inv(c, p)
    ensures Inv(c, OnStop(p))
  {
    Extend(c, p.trace, Stopped);
  }

  lemma HeadingDoneInv(c: Config, p: Proxy, ec: Code, h: Heading)
    requires Inv(c, p)
    ensures Inv(c, OnHeadingDone(p, ec, h))
  {
    if p.reading.AwaitHeading? {
      Extend(c, p.trace, HeadingRead(ec, h));
    }
  }

  lemma PayloadDoneInv(c: Config, p: Proxy, ec: Code, payload: Bytes)
    requires Inv(c, p)
    ensures Inv(c, OnPayloadDone(p, ec, payload))
  {
    if p.reading.AwaitPayload? {
      Extend(c, p.trace, PayloadRead(ec, payload));
    }
  }

  /** A handler that fails stops the channel and ends the cycle. */
  lemma FailInv(c: Config, p: Proxy)
    requires Inv(c, p) && (p.reading.Dispatching? || Tests(p.reading))
    ensures Inv(c, OnStop(p.(reading := Idle)))
  {
    Extend(c, p.trace, Stopped);
  }

  lemma TestInv(c: Config, p: Proxy)
    requires Inv(c, p) && Tests(p.reading)
    ensures Inv(c, OnProceed(c, p))
  {
    if !p.stopped && Fails(c, p.reading) {
      FailInv(c, p);
    }
  }

  /** What a committed thread does is allowed, and leads where the cycle says. */
  lemma ActMatched(c: Config, r: Reading, latest: Option<Mark>, asked: Option<Heading>)
    requires Committed(r) && Matched(c, r, latest, asked)
    ensures var (m, r') := Act(r);
            Allowed(c, latest, asked, m) && Matched(c, r', LatestAfter(latest, m), AskedAfter(asked, m))
  {
  }

  lemma ActInv(c: Config, p: Proxy)
    requires Inv(c, p) && Committed(p.reading)
    ensures Inv(c, OnProceed(c, p))
  {
    ActMatched(c, p.reading, Latest(p.trace), Asked(p.trace));
    Extend(c, p.trace, Act(p.reading).0);
  }

  lemma DispatchInv(c: Config, p: Proxy, ec: Code, consumed: bool)
    requires Inv(c, p)
    ensures Inv(c, OnDispatchReturns(p, ec, consumed))
  {
    if p.reading.Dispatching? {
      FailInv(c, p);
    }
  }

  lemma StartInv(c: Config, p: Proxy)
    requires Inv(c, p)
    ensures Inv(c, OnStart(p))
  {
    if p.reading.Idle? {
      Extend(c, p.trace, Opened);
    }
  }

  lemma NextInv(c: Config, p: Proxy, ev: Event)
    requires Inv(c, p)
    ensures Inv(c, Next(c, p, ev))
  {
    match ev
    case Start => StartInv(c, p);
    case Proceed =>
      if Tests(p.reading) {
        TestInv(c, p);
      } else if Committed(p.reading) {
        ActInv(c, p);
      }
    case HeadingDone(ec, h) => HeadingDoneInv(c, p, ec, h);
    case PayloadDone(ec, payload) => PayloadDoneInv(c, p, ec, payload);
    case DispatchReturns(ec, consumed) => DispatchInv(c, p, ec, consumed);
    case Stop => StopInv(c, p);
    case _ =>
  }

  lemma {:induction false} RunInv(c: Config, p: Proxy, evs: seq<Event>)
    requires Inv(c, p)
    ensures Inv(c, Run(c, p, evs))
    decreases |evs|
  {
    if evs != [] {
      NextInv(c, p, evs[0]);
      RunInv(c, Next(c, p, evs[0]), evs[1..]);
    }
  }

  /** In every run at most one read is outstanding, heading and payload reads alternate,
      every message handed on was checked, and at most one read or dispatch follows a
      stop. A channel whose cycle has ended is stopped. */
  lemma ReadCycleSafety(c: Config, evs: seq<Event>)
    ensures var p := Run(c, INIT, evs);
            && Legal(c, p.trace)
            && 0 <= Outstanding(p.trace) <= 1
            && Alternate(Issued(p.trace))
            && LateActs(p.trace) <= 1
            && (p.reading.Idle? ==> p.stopped)
  {
    RunInv(c, INIT, evs);
    LegalMeaning(c, Run(c, INIT, evs).trace);
  }

  lemma SilentStep(c: Config, p: Proxy, ev: Event)
    requires p.stopped && !Committed(p.reading) && ev != Start
    ensures var q := Next(c, p, ev);
            q.stopped && !Committed(q.reading) && Acts(q.trace) == Acts(p.trace)
  {
    var q := Next(c, p, ev);
    if q.trace != p.trace {
      assert Front(q.trace) == p.trace;
    }
  }

  lemma {:induction false} Silenced(c: Config, p: Proxy, evs: seq<Event>)
    requires p.stopped && !Committed(p.reading) && Start !in evs
    ensures Acts(Run(c, p, evs).trace) == Acts(p.trace)
    decreases |evs|
  {
    if evs != [] {
      assert evs[0] in evs;
      assert forall x :: x in evs[1..] ==> x in evs;
      SilentStep(c, p, evs[0]);
      Silenced(c, Next(c, p, evs[0]), evs[1..]);
    }
  }

  lemma ActsAppend(trace: seq<Mark>, m: Mark)
    ensures Acts(trace + [m]) == Acts(trace) + Bit(Issues(m) || m.Load?)
  {
    assert Front(trace + [m]) == trace;
  }

  lemma StopOvertaken(c: Config, p: Proxy)
    requires Committed(p.reading)
    ensures Acts(Run(c, OnStop(p), [Proceed]).trace) == Acts(p.trace) + 1
  {
    var s := OnStop(p);
    var (m, r) := Act(p.reading);
    assert Next(c, s, Proceed) == s.(reading := r, trace := s.trace + [m]);
    assert Run(c, s, [Proceed]) == Run(c, Next(c, s, Proceed), []);
    ActsAppend(p.trace, Stopped);
    ActsAppend(s.trace, m);
  }

  ghost predicate Silences(c: Config, p: Proxy) {
    forall more :: Start !in more ==> Acts(Run(c, OnStop(p), more).trace) == Acts(p.trace)
  }

  /** A stop ends all reading and dispatching, whatever follows short of a new start,
      exactly when the reading thread is not between a passed test of the stop flag and
      the act it guards. */
  lemma StopSilencesIff(c: Config, evs: seq<Event>)
    ensures Silences(c, Run(c, INIT, evs)) <==> !Committed(Run(c, INIT, evs).reading)
  {
    var p := Run(c, INIT, evs);
    if Committed(p.reading) {
      StopOvertaken(c, p);
      assert Start !in [Proceed];
    } else {
      ActsAppend(p.trace, Stopped);
      forall more | Start !in more
        ensures Acts(Run(c, OnStop(p), more).trace) == Acts(p.trace)
      {
        Silenced(c, OnStop(p), more);
      }
    }
  }

  lemma RunFrom(c: Config, p: Proxy, evs: seq<Event>, k: nat)
    requires k < |evs|
    ensures Run(c, p, evs[k..]) == Run(c, Next(c, p, evs[k]), evs[k + 1..])
  {
    assert evs[k..][1..] == evs[k + 1..];
  }

  /** A run in which a heading read is issued after the stop. */
  lemma ReadAfterStop(c: Config)
    ensures var p := Run(c, INIT, [Start, StartReturns, Proceed, Stop, Proceed]);
            p.trace == [Opened, Stopped, IssueHeading] && LateActs(p.trace) == 1
  {
    var evs := [Start, StartReturns, Proceed, Stop, Proceed];
    assert evs[0..] == evs;
    RunFrom(c, INIT, evs, 0);
    var p1 := Next(c, INIT, evs[0]);
    RunFrom(c, p1, evs, 1);
    var p2 := Next(c, p1, evs[1]);
    RunFrom(c, p2, evs, 2);
    var p3 := Next(c, p2, evs[2]);
    RunFrom(c, p3, evs, 3);
    var p4 := Next(c, p3, evs[3]);
    RunFrom(c, p4, evs, 4);
    var p := Next(c, p4, evs[4]);
    assert Run(c, p, evs[5..]) == p;
    assert p3.trace == [Opened] && p4.trace == p3.trace + [Stopped] && p.trace == p4.trace + [IssueHeading];
    assert Front(p.trace) == p4.trace && Front(p4.trace) == p3.trace;
    assert LateActs(p3.trace) == 0 && LateActs(p4.trace) == 0 && Halted(p4.trace);
  }

  /** The reading thread runs on, undisturbed, to where it waits. */
  function Settle(c: Config, p: Proxy): Proxy {
    OnProceed(c, OnProceed(c, OnProceed(c, p)))
  }

  /** The channel object. Each method is one callback, not overtaken by a stop. */
  class Channel {
    const config: Config
    var stopped: bool
    var reading: Reading
    ghost var trace: seq<Mark>

    ghost function Abs(): Proxy
      reads this
    {
      Proxy(stopped, reading, trace)
    }

    constructor (config: Config)
      ensures Abs() == INIT && this.config == config
    {
      this.config := config;
      stopped, reading, trace := true, Idle, [];
    }

    /** A running channel refuses. The cycle of an earlier start has ended. */
    method Start() returns (ec: Code)
      requires stopped ==> reading.Idle?
      modifies this
      ensures Abs() == OnStart(old(Abs()))
      ensures ec == if old(stopped) then Success else OperationFailed
    {
      if !stopped {
        return OperationFailed;
      }
      ec := Success;
      stopped := false;
      reading := Starting;
      trace := trace + [Opened];
    }

    method Halt()
      modifies this`stopped, this`trace
      ensures Abs() == OnStop(old(Abs()))
    {
      stopped := true;
      trace := trace + [Stopped];
    }

    method AskHeading()
      requires reading.WantHeading?
      modifies this`reading, this`trace
      ensures Abs() == Settle(config, old(Abs()))
    {
      if stopped {
        reading := Idle;
        return;
      }
      reading := AwaitHeading;
      trace := trace + [IssueHeading];
    }

    method AskPayload(head: Heading)
      requires reading == WantPayload(head)
      modifies this`reading, this`trace
      ensures Abs() == Settle(config, old(Abs()))
    {
      if stopped {
        reading := Idle;
        return;
      }
      reading := AwaitPayload(head);
      trace := trace + [IssuePayload(head)];
    }

    method HandleReadHeading(ec: Code, head: Heading)
      requires reading.AwaitHeading?
      modifies this
      ensures Abs() == Settle(config, OnHeadingDone(old(Abs()), ec, head))
    {
      trace := trace + [HeadingRead(ec, head)];
      reading := Idle;
      if stopped {
        return;
      }
      if ec != Success {
        Halt();
        return;
      }
      if !head.valid {
        Halt();
        return;
      }
      if head.magic != config.magic {
        Halt();
        return;
      }
      if head.size > config.maximum {
        Halt();
        return;
      }
      reading := WantPayload(head);
      AskPayload(head);
    }

    /** Up to the dispatch of the message. */
    method HandleReadPayload(ec: Code, payload: Bytes)
      requires reading.AwaitPayload? && (ec == Success ==> |payload| == reading.head.size)
      modifies this
      ensures Abs() == Settle(config, OnPayloadDone(old(Abs()), ec, payload))
    {
      var head := reading.head;
      trace := trace + [PayloadRead(ec, payload)];
      reading := Idle;
      if stopped {
        return;
      }
      if ec != Success {
        Halt();
        return;
      }
      if config.validate && head.checksum != config.checksum(payload) {
        Halt();
        return;
      }
      reading := Dispatching;
      trace := trace + [Load(head, payload)];
    }

    /** From the return of the subscribers on. */
    method AfterDispatch(ec: Code, consumed: bool)
      requires reading.Dispatching?
      modifies this
      ensures Abs() == Settle(config, OnDispatchReturns(old(Abs()), ec, consumed))
    {
      if ec != Success {
        reading := Idle;
        Halt();
        return;
      }
      if !consumed {
        reading := Idle;
        Halt();
        return;
      }
      reading := WantHeading;
      AskHeading();
    }
  }
}
