/** The connect batch of `BatchConnect`, attempt by attempt, refines the counts that the
    outbound session keeps of it. So that every attempt reports once, which is proved
    there, is what keeps the slot of a batch in `Outbound`. */
module BatchRefinement {
  import opened Codes
  import opened Synchronize
  import opened Sums
  import B = BatchConnect
  import C = Connector
  import O = Outbound

  function Started(t: B.Try): nat {
    Bit(!t.Unstarted?)
  }

  /** With a connector that has not reported. */
  function Running(t: B.Try): nat {
    Bit(t.Connecting? && t.attempt.reports == [])
  }

  function Counts(b: B.Batch): O.Batch {
    O.Batch(Sum(b.tries, Started), Sum(b.tries, Running), After(Fresh(|b.tries|, OnSuccess), b.calls))
  }

  /** What a move of an attempt is to the session: its start, its report, or nothing. */
  function Seen(k: nat, t: B.Try, t': B.Try, authority: nat): Option<O.Event> {
    if t.Unstarted? && t'.Failed? then Some(O.Attempt(k, Some(t'.ec)))
    else if t.Unstarted? && t'.Connecting? then Some(O.Attempt(k, None))
    else if t.Reports() == [] && t'.Reports() != [] then Some(O.Report(k, t'.Reports()[0], authority))
    else None
  }

  /** An attempt that comes to start on a stopped session is refused. */
  function Refused(s: O.State, b: B.Batch, ev: B.Event): B.Event {
    if s.stopped && ev.index < |b.tries| && b.tries[ev.index].Unstarted? && !ev.Step?
    then B.Fail(ev.index, ChannelStopped)
    else ev
  }

  /** The session and one of its batches, step by step: the attempts of the batch move,
      or the session does something else. */
  datatype Joint = Joint(s: O.State, b: B.Batch)

  datatype Event = OfBatch(event: B.Event, authority: nat) | OfSession(step: O.Event)

  predicate Concerns(k: nat, ev: O.Event) {
    (ev.Attempt? || ev.Report?) && ev.batch == k
  }

  function Follow(c: O.Config, s: O.State, seen: Option<O.Event>): O.State {
    if seen.Some? then O.Next(c, s, seen.value) else s
  }

  function Next(c: O.Config, k: nat, j: Joint, ev: Event): Joint {
    match ev
    case OfBatch(x, authority) =>
      if x.index >= |j.b.tries| then j
      else
        var x' := Refused(j.s, j.b, x);
        var t := j.b.tries[x.index];
        Joint(Follow(c, j.s, Seen(k, t, B.NextTry(t, x'), authority)), B.Next(j.b, x'))
    case OfSession(x) => if Concerns(k, x) then j else j.(s := O.Next(c, j.s, x))
  }

  function Run(c: O.Config, k: nat, j: Joint, evs: seq<Event>): Joint
    decreases |evs|
  {
    if evs == [] then j else Run(c, k, Next(c, k, j, evs[0]), evs[1..])
  }

  lemma {:induction false} StartedBounded(tries: seq<B.Try>)
    ensures Sum(tries, Started) <= |tries|
  {
    if tries != [] {
      StartedBounded(tries[..|tries| - 1]);
    }
  }

  /** The counts after an attempt moves from t to t', calling the join so. */
  function Moved(was: O.Batch, t: B.Try, t': B.Try, made: seq<Code>): O.Batch
    requires was.next >= Started(t) && was.inflight >= Running(t)
  {
    O.Batch(was.next - Started(t) + Started(t'), was.inflight - Running(t) + Running(t'),
            if made == [] then was.join else was.join.Call(made[0]).0)
  }

  lemma CountsMoved(b: B.Batch, i: nat, t: B.Try, made: seq<Code>)
    requires i < |b.tries| && |made| <= 1
    ensures Counts(b).next >= Started(b.tries[i]) && Counts(b).inflight >= Running(b.tries[i])
    ensures Counts(B.Batch(b.tries[i := t], b.calls + made)) == Moved(Counts(b), b.tries[i], t, made)
  {
    SumUpdate(b.tries, i, t, Started);
    SumUpdate(b.tries, i, t, Running);
    if made == [] {
      assert b.calls + made == b.calls;
    } else {
      assert (b.calls + made)[..|b.calls|] == b.calls;
    }
  }

  lemma RoomToStart(b: B.Batch, i: nat)
    requires i < |b.tries| && b.tries[i].Unstarted?
    ensures Counts(b).next < |b.tries|
  {
    var tries := b.tries[i := B.Failed(NotFound)];
    SumUpdate(b.tries, i, B.Failed(NotFound), Started);
    StartedBounded(tries);
  }

  ghost predicate Agrees(c: O.Config, k: nat, j: Joint) {
    && O.Conserved(c, j.s) && B.Inv(j.b) && c.size == |j.b.tries|
    && k < |j.s.batches| && j.s.batches[k] == Counts(j.b)
  }

  /** How an attempt may move: it starts, which a stopped session refuses, or it goes on and
      reports at most once. */
  predicate Moves(s: O.State, t: B.Try, t': B.Try) {
    match t
    case Unstarted =>
      if t'.Failed? then t'.ec != Success && (s.stopped ==> t'.ec == ChannelStopped)
      else t'.Unstarted? || (t' == B.Connecting(C.INIT) && !s.stopped)
    case Failed(_) => t' == t
    case Connecting(_) => t'.Connecting? && |t'.Reports()| <= 1 && (t.Reports() != [] ==> t'.Reports() == t.Reports())
  }

  function Made(t: B.Try, t': B.Try): seq<Code> {
    if t.Reports() == [] then t'.Reports() else []
  }

  lemma StartFollows(c: O.Config, s: O.State, k: nat, t: B.Try, authority: nat)
    requires k < |s.batches| && s.batches[k].next < c.size && Moves(s, B.Unstarted, t) && !t.Unstarted?
    ensures var s' := Follow(c, s, Seen(k, B.Unstarted, t, authority));
            k < |s'.batches| && s'.batches[k] == Moved(s.batches[k], B.Unstarted, t, t.Reports())
  {
  }

  lemma ReportFollows(c: O.Config, s: O.State, k: nat, t: B.Try, t': B.Try, authority: nat)
    requires k < |s.batches| && s.batches[k].inflight > 0 && s.batches[k].next > 0
    requires t.Connecting? && Moves(s, t, t') && t.Reports() == [] && t'.Reports() != []
    ensures var s' := Follow(c, s, Seen(k, t, t', authority));
            k < |s'.batches| && s'.batches[k] == Moved(s.batches[k], t, t', t'.Reports())
  {
  }

  /** The session's count follows the move. */
  lemma SeenAgrees(c: O.Config, s: O.State, k: nat, t: B.Try, t': B.Try, authority: nat)
    requires k < |s.batches| && Moves(s, t, t')
    requires s.batches[k].next >= Started(t) && s.batches[k].inflight >= Running(t)
    requires t.Unstarted? ==> s.batches[k].next < c.size
    ensures var s' := Follow(c, s, Seen(k, t, t', authority));
            k < |s'.batches| && s'.batches[k] == Moved(s.batches[k], t, t', Made(t, t'))
  {
    if t.Unstarted? && !t'.Unstarted? {
      StartFollows(c, s, k, t', authority);
    } else if t.Connecting? && t.Reports() == [] && t'.Reports() != [] {
      ReportFollows(c, s, k, t, t', authority);
    }
  }

  /** It keeps the session's slots. */
  lemma SeenConserves(c: O.Config, s: O.State, k: nat, t: B.Try, t': B.Try, authority: nat)
    requires O.Conserved(c, s)
    ensures var s' := Follow(c, s, Seen(k, t, t', authority));
            O.Conserved(c, s') && O.Slots(s') == O.Slots(s)
  {
    var seen := Seen(k, t, t', authority);
    if seen.Some? && seen.value.Attempt? {
      O.AttemptConserved(c, s, k, seen.value.failure);
    } else if seen.Some? {
      O.ReportConserved(c, s, k, seen.value.ec, authority);
    }
  }

  lemma TryMoves(s: O.State, b: B.Batch, ev: B.Event)
    requires ev.index < |b.tries|
    requires B.TryOk(b.tries[ev.index]) && |b.tries[ev.index].Reports()| <= 1
    ensures Moves(s, b.tries[ev.index], B.NextTry(b.tries[ev.index], Refused(s, b, ev)))
  {
    B.TryStep(b.tries[ev.index], Refused(s, b, ev));
  }

  /** What the session does for its other batches and its channels leaves this one alone. */
  lemma SessionFrame(c: O.Config, s: O.State, k: nat, ev: O.Event)
    requires k < |s.batches| && !Concerns(k, ev)
    ensures k < |O.Next(c, s, ev).batches| && O.Next(c, s, ev).batches[k] == s.batches[k]
  {
  }

  /** Each step of the batch is none or one step of the session, which keeps the slots and
      agrees with the batch after it. */
  lemma StepRefines(c: O.Config, k: nat, j: Joint, ev: B.Event, authority: nat)
    requires Agrees(c, k, j)
    ensures var j' := Next(c, k, j, OfBatch(ev, authority));
            Agrees(c, k, j') && O.Slots(j'.s) == O.Slots(j.s)
  {
    if ev.index < |j.b.tries| {
      var i := ev.index;
      var ev' := Refused(j.s, j.b, ev);
      var t := j.b.tries[i];
      var t' := B.NextTry(t, ev');
      TryMoves(j.s, j.b, ev);
      B.NextInv(j.b, ev');
      SeenConserves(c, j.s, k, t, t', authority);
      CountsMoved(j.b, i, t', Made(t, t'));
      if t.Unstarted? {
        RoomToStart(j.b, i);
      }
      SeenAgrees(c, j.s, k, t, t', authority);
    }
  }

  lemma SessionAgrees(c: O.Config, k: nat, j: Joint, ev: O.Event)
    requires Agrees(c, k, j)
    ensures Agrees(c, k, Next(c, k, j, OfSession(ev)))
  {
    if !Concerns(k, ev) {
      O.NextConserved(c, j.s, ev);
      SessionFrame(c, j.s, k, ev);
    }
  }

  lemma {:induction false} RunRefines(c: O.Config, k: nat, j: Joint, evs: seq<Event>)
    requires Agrees(c, k, j)
    ensures Agrees(c, k, Run(c, k, j, evs))
    decreases |evs|
  {
    if evs != [] {
      if evs[0].OfBatch? {
        StepRefines(c, k, j, evs[0].event, evs[0].authority);
      } else {
        SessionAgrees(c, k, j, evs[0].step);
      }
      RunRefines(c, k, Next(c, k, j, evs[0]), evs[1..]);
    }
  }

  /** Let the session make a batch and then do whatever it does, stopping included, while
      the attempts of the batch move as they will. The session's slots are conserved, its
      count of the batch is right, and once every attempt is settled the batch is decided. */
  lemma BatchKeepsSlot(c: O.Config, s: O.State, k: nat, evs: seq<Event>)
    requires O.Conserved(c, s) && k < |s.batches| && s.batches[k] == O.NewBatch(c)
    ensures var r := Run(c, k, Joint(s, B.NewBatch(c.size)), evs);
            && O.Conserved(c, r.s) && k < |r.s.batches| && r.s.batches[k] == Counts(r.b)
            && ((forall i :: 0 <= i < |r.b.tries| ==> r.b.tries[i].Settled()) ==> r.s.batches[k].join.Cleared())
  {
    var b0 := B.NewBatch(c.size);
    SumZero(b0.tries, B.Reported);
    SumZero(b0.tries, Started);
    SumZero(b0.tries, Running);
    RunRefines(c, k, Joint(s, b0), evs);
    var r := Run(c, k, Joint(s, b0), evs);
    if forall i :: 0 <= i < |r.b.tries| ==> r.b.tries[i].Settled() {
      B.AllSettled(r.b);
      FiresAtMostOnce(Fresh(c.size, OnSuccess), r.b.calls);
    }
  }
}
