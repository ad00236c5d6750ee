/** The collections kept by the outbound session's machine are those of the network: every
    step of a registration changes them by one operation of `Network`, or not at all. */
module NetworkRefinement {
  import opened Codes
  import opened Collections
  import N = Network
  import O = Outbound

  predicate Within(channels: seq<O.Channel>, ids: seq<nat>) {
    forall k :: 0 <= k < |ids| ==> ids[k] < |channels|
  }

  /** The channel as the network sees it. A channel's nonce never changes. */
  function PeerOf(channels: seq<O.Channel>, nonce: nat -> nat, i: nat): N.Peer
    requires i < |channels|
  {
    N.Peer(i, channels[i].authority, nonce(i))
  }

  function Peers(channels: seq<O.Channel>, nonce: nat -> nat, ids: seq<nat>): (r: seq<N.Peer>)
    requires Within(channels, ids)
    ensures |r| == |ids|
    ensures forall k :: 0 <= k < |ids| ==> r[k] == PeerOf(channels, nonce, ids[k])
  {
    seq(|ids|, k requires 0 <= k < |ids| => PeerOf(channels, nonce, ids[k]))
  }

  /** An authority is in use exactly when the network is connected to it. */
  lemma InUseIsConnects(s: O.State, nonce: nat -> nat, authority: nat)
    requires Within(s.channels, s.close)
    ensures O.InUse(s, authority) <==> N.Connects(Peers(s.channels, nonce, s.close), authority)
  {
    var peers := Peers(s.channels, nonce, s.close);
    if O.InUse(s, authority) {
      var k :| 0 <= k < |s.close| && s.close[k] < |s.channels| && s.channels[s.close[k]].authority == authority;
      assert peers[k].authority == authority;
    }
    if k :| 0 <= k < |peers| && peers[k].authority == authority {
      assert s.channels[s.close[k]].authority == authority;
    }
  }

  /** Open connections are distinct to the session exactly when they are to the network. */
  lemma DistinctIsDistinct(s: O.State, nonce: nat -> nat)
    requires Within(s.channels, s.close) && NoDup(s.close)
    ensures O.Distinct(s.close, s.channels) <==> N.DistinctAuthorities(Peers(s.channels, nonce, s.close))
  {
    var peers := Peers(s.channels, nonce, s.close);
    if O.Distinct(s.close, s.channels) {
      forall k, l | 0 <= k < l < |peers|
        ensures peers[k].authority != peers[l].authority
      {
        assert s.close[k] in s.close && s.close[l] in s.close && s.close[k] != s.close[l];
      }
    }
    if N.DistinctAuthorities(peers) {
      forall i, j | 0 <= i < j < |s.channels| && i in s.close && j in s.close
        ensures s.channels[i].authority != s.channels[j].authority
      {
        var k :| 0 <= k < |s.close| && s.close[k] == i;
        var l :| 0 <= l < |s.close| && s.close[l] == j;
        assert peers[k].authority != peers[l].authority;
      }
    }
  }

  lemma PeersPrepend(channels: seq<O.Channel>, nonce: nat -> nat, i: nat, ids: seq<nat>)
    requires Within(channels, ids) && i < |channels|
    ensures Within(channels, [i] + ids)
    ensures Peers(channels, nonce, [i] + ids) == [PeerOf(channels, nonce, i)] + Peers(channels, nonce, ids)
  {
  }

  lemma {:induction false} PeersWithout(channels: seq<O.Channel>, nonce: nat -> nat, ids: seq<nat>, i: nat)
    requires Within(channels, ids) && i < |channels|
    ensures Within(channels, Without(ids, i))
    ensures Peers(channels, nonce, Without(ids, i)) == Without(Peers(channels, nonce, ids), PeerOf(channels, nonce, i))
  {
    if ids != [] {
      var rest := ids[1..];
      assert ids == [ids[0]] + rest;
      PeersPrepend(channels, nonce, ids[0], rest);
      assert Peers(channels, nonce, ids)[1..] == Peers(channels, nonce, rest);
      if ids[0] != i {
        PeersWithout(channels, nonce, rest, i);
        PeersPrepend(channels, nonce, ids[0], Without(rest, i));
      }
    }
  }

  lemma PeersAppend(channels: seq<O.Channel>, nonce: nat -> nat, ids: seq<nat>, i: nat)
    requires Within(channels, ids) && i < |channels|
    ensures Peers(channels, nonce, ids + [i]) == Peers(channels, nonce, ids) + [PeerOf(channels, nonce, i)]
  {
  }

  /** Only the registration of a channel changes, which the network does not see. */
  lemma PeersSame(channels: seq<O.Channel>, channels': seq<O.Channel>, nonce: nat -> nat, ids: seq<nat>)
    requires Within(channels, ids) && |channels'| == |channels|
    requires forall i :: 0 <= i < |channels| ==> channels'[i].authority == channels[i].authority
    ensures Peers(channels', nonce, ids) == Peers(channels, nonce, ids)
  {
  }

  ghost predicate Tied(s: O.State) {
    Within(s.channels, s.handshake) && Within(s.channels, s.close)
  }

  lemma TrackedTied(s: O.State)
    requires O.Tracked(s)
    ensures Tied(s) && NoDup(s.close)
  {
    forall k | 0 <= k < |s.handshake|
      ensures s.handshake[k] < |s.channels|
    {
      assert s.handshake[k] in s.handshake;
    }
    forall k | 0 <= k < |s.close|
      ensures s.close[k] < |s.channels|
    {
      assert s.close[k] in s.close;
    }
  }

  /** The handshake collection: pended by one step, unpended by another. */
  lemma AdvancePends(c: O.Config, s: O.State, nonce: nat -> nat, i: nat)
    requires Tied(s) && i < |s.channels|
    ensures var s' := O.OnAdvance(c, s, i);
            var was := Peers(s.channels, nonce, s.handshake);
            var ch := PeerOf(s.channels, nonce, i);
            && Within(s'.channels, s'.handshake)
            && Peers(s'.channels, nonce, s'.handshake) ==
               match s.channels[i].reg
               case Pending => N.Pend(was, s.netStopped, ch).0
               case Unpending(_) => Without(was, ch)
               case _ => was
  {
    var s' := O.OnAdvance(c, s, i);
    PeersWithout(s.channels, nonce, s.handshake, i);
    PeersAppend(s.channels, nonce, s.handshake, i);
    PeersSame(s.channels, s'.channels, nonce, s'.handshake);
  }

  /** The collection of open connections: stored by one step, which passes on the code,
      and removed by another. */
  lemma AdvanceStores(c: O.Config, s: O.State, nonce: nat -> nat, i: nat)
    requires Tied(s) && i < |s.channels|
    ensures var s' := O.OnAdvance(c, s, i);
            var was := Peers(s.channels, nonce, s.close);
            var ch := PeerOf(s.channels, nonce, i);
            && Within(s'.channels, s'.close)
            && Peers(s'.channels, nonce, s'.close) ==
               (match s.channels[i].reg
                case Storing => N.Store(was, s.netStopped, ch).0
                case Delivering => Without(was, ch)
                case _ => was)
            && (s.channels[i].reg.Storing? ==> s'.channels[i].reg == O.Unpending(N.Store(was, s.netStopped, ch).1))
  {
    var s' := O.OnAdvance(c, s, i);
    InUseIsConnects(s, nonce, s.channels[i].authority);
    PeersWithout(s.channels, nonce, s.close, i);
    PeersAppend(s.channels, nonce, s.close, i);
    PeersSame(s.channels, s'.channels, nonce, s'.close);
  }

  /** In every run the network's open connections have pairwise distinct authorities. */
  lemma NetworkDistinct(c: O.Config, evs: seq<O.Event>, nonce: nat -> nat)
    requires c.size > 0
    ensures var s := O.Run(c, O.INIT, evs);
            Tied(s) && N.DistinctAuthorities(Peers(s.channels, nonce, s.close))
  {
    var s := O.Run(c, O.INIT, evs);
    O.RunInv(c, O.INIT, evs);
    TrackedTied(s);
    DistinctIsDistinct(s, nonce);
  }
}
