/** The result codes that flow through callbacks. Only the codes the network
    layer itself compares or produces are named. */
module Codes {

  datatype Code =
    | Success
    | ChannelStopped
    | ServiceStopped
    | ChannelTimeout
    | BadStream
    | OperationFailed
    | NotFound
    | AddressInUse
    | AddressBlocked
    | ResolveFailed
    | FileSystem
    | PeerThrottling
    | OtherError(value: nat)

  /** The two codes that protocols and channels take as "stopping". */
  predicate StopCode(ec: Code) {
    ec == ChannelStopped || ec == ServiceStopped
  }

  datatype Option<+T> = None | Some(value: T)

  function Bit(b: bool): nat {
    if b then 1 else 0
  }

  function Min(a: int, b: int): int {
    if a <= b then a else b
  }

  function Max(a: int, b: int): int {
    if a <= b then b else a
  }
}

/** `synchronize(handler, n, name, mode)`: a join over n callbacks that invokes
    its handler at most once. The counter update is the critical section, so one
    `Call` is one atomic step. */
module Synchronize {
  import opened Codes

  datatype Terminate = OnError | OnSuccess | OnCount

  datatype Join = Join(limit: nat, mode: Terminate, count: nat) {
    predicate Cleared() {
      count >= limit
    }

    /** Does one call with this code decide the join whatever the count? */
    predicate Decides(ec: Code) {
      match mode
      case OnError => ec != Success
      case OnSuccess => ec == Success
      case OnCount => false
    }

    /** The join after one call, and whether that call invokes the handler. */
    function Call(ec: Code): (r: (Join, bool))
      ensures r.0.limit == limit && r.0.mode == mode && r.0.count >= count
      ensures r.1 <==> !Cleared() && r.0.Cleared()
    {
      if Cleared() then (this, false)
      else
        var n := if Decides(ec) then limit else count + 1;
        (this.(count := n), n == limit)
    }
  }

  function Fresh(limit: nat, mode: Terminate): Join {
    Join(limit, mode, 0)
  }

  function After(j: Join, calls: seq<Code>): (r: Join)
    ensures r.limit == j.limit && r.mode == j.mode
  {
    if calls == [] then j
    else After(j, calls[..|calls| - 1]).Call(calls[|calls| - 1]).0
  }

  /** The codes the handler is invoked with over a whole series of calls. */
  function Fired(j: Join, calls: seq<Code>): seq<Code> {
    if calls == [] then []
    else
      var init := calls[..|calls| - 1];
      var last := calls[|calls| - 1];
      Fired(j, init) + if After(j, init).Call(last).1 then [last] else []
  }

  /** Call k of a fresh join is the one that decides it: it is the n-th call or
      carries a deciding code, and no earlier call did. */
  ghost predicate DecidingCall(limit: nat, mode: Terminate, calls: seq<Code>, k: int) {
    && 0 <= k < |calls| && k < limit
    && (k == limit - 1 || Join(limit, mode, 0).Decides(calls[k]))
    && forall i :: 0 <= i < k ==> !Join(limit, mode, 0).Decides(calls[i])
  }

  /** With fewer than n calls and no deciding code the handler has not run. */
  lemma {:induction false} UndecidedJoin(limit: nat, mode: Terminate, calls: seq<Code>)
    requires |calls| < limit
    requires forall i :: 0 <= i < |calls| ==> !Fresh(limit, mode).Decides(calls[i])
    ensures Fired(Fresh(limit, mode), calls) == []
    ensures After(Fresh(limit, mode), calls) == Join(limit, mode, |calls|)
  {
    if calls != [] {
      UndecidedJoin(limit, mode, calls[..|calls| - 1]);
      assert !Fresh(limit, mode).Decides(calls[|calls| - 1]);
    }
  }

  /** With a deciding call the handler has run exactly once, with that call's code. */
  lemma {:induction false} DecidedJoin(limit: nat, mode: Terminate, calls: seq<Code>, k: int)
    requires DecidingCall(limit, mode, calls, k)
    ensures Fired(Fresh(limit, mode), calls) == [calls[k]]
    ensures After(Fresh(limit, mode), calls).Cleared()
  {
    var init := calls[..|calls| - 1];
    if k == |calls| - 1 {
      UndecidedJoin(limit, mode, init);
    } else {
      assert DecidingCall(limit, mode, init, k);
      DecidedJoin(limit, mode, init, k);
    }
  }

  /** At most one invocation, for every join, from the start or midway. */
  lemma {:induction false} FiresAtMostOnce(j: Join, calls: seq<Code>)
    ensures |Fired(j, calls)| == Bit(!j.Cleared() && After(j, calls).Cleared())
    ensures j.Cleared() ==> After(j, calls) == j
  {
    if calls != [] {
      FiresAtMostOnce(j, calls[..|calls| - 1]);
    }
  }

  /** The first-success join of a connect batch: once all n attempts have
      reported there is exactly one result, and it is success exactly when some
      attempt succeeded. */
  lemma FirstSuccessJoin(n: nat, calls: seq<Code>)
    requires n > 0 && |calls| == n
    ensures |Fired(Fresh(n, OnSuccess), calls)| == 1
    ensures Fired(Fresh(n, OnSuccess), calls) == [Success] <==> Success in calls
  {
    if k :| 0 <= k < n && calls[k] == Success {
      var first := FirstSuccess(calls, k);
      DecidedJoin(n, OnSuccess, calls, first);
    } else {
      DecidedJoin(n, OnSuccess, calls, n - 1);
    }
  }

  lemma FirstSuccess(calls: seq<Code>, k: nat) returns (first: nat)
    requires k < |calls| && calls[k] == Success
    ensures first <= k && calls[first] == Success
    ensures forall i :: 0 <= i < first ==> calls[i] != Success
  {
    if j :| 0 <= j < k && calls[j] == Success {
      first := FirstSuccess(calls, j);
    } else {
      first := k;
    }
  }

  /** The all-reported join of the seed session fires exactly on the n-th call. */
  lemma CountJoin(n: nat, calls: seq<Code>)
    requires n > 0
    ensures |Fired(Fresh(n, OnCount), calls)| == Bit(|calls| >= n)
  {
    if |calls| < n {
      UndecidedJoin(n, OnCount, calls);
    } else {
      DecidedJoin(n, OnCount, calls, n - 1);
    }
  }
}
