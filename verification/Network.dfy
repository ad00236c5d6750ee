/** The network's collections of channels as `p2p` keeps them. */
module Network {
  import opened Codes
  import opened Collections

  datatype Peer = Peer(id: nat, authority: nat, nonce: nat)

  predicate Connects(close: seq<Peer>, authority: nat) {
    exists i :: 0 <= i < |close| && close[i].authority == authority
  }

  predicate DistinctAuthorities(close: seq<Peer>) {
    forall i, j :: 0 <= i < j < |close| ==> close[i].authority != close[j].authority
  }

  /** `pend` of a channel: refused once the collection has stopped. */
  function Pend(handshake: seq<Peer>, stopped: bool, ch: Peer): (seq<Peer>, Code) {
    if stopped then (handshake, ServiceStopped) else (handshake + [ch], Success)
  }

  /** `store`: refused too while the authority is connected. */
  function Store(close: seq<Peer>, stopped: bool, ch: Peer): (seq<Peer>, Code) {
    if stopped then (close, ServiceStopped)
    else if Connects(close, ch.authority) then (close, AddressInUse)
    else (close + [ch], Success)
  }

  lemma {:induction false} WithoutDistinct(close: seq<Peer>, ch: Peer)
    requires DistinctAuthorities(close)
    ensures DistinctAuthorities(Without(close, ch))
    ensures |Without(close, ch)| == |close| - Bit(ch in close)
  {
    if close != [] {
      if close[0] != ch {
        WithoutDistinct(close[1..], ch);
        var rest := Without(close[1..], ch);
        forall i | 0 <= i < |rest|
          ensures rest[i].authority != close[0].authority
        {
          DistinctNoDup(close[1..]);
          WithoutNoDup(close[1..], ch);
          WithoutHas(close[1..], ch, rest[i]);
          assert rest[i] in rest;
          assert rest[i] in close[1..];
        }
      }
    }
  }

  /** Unpending undoes pending. */
  lemma {:induction false} PendUnpend(handshake: seq<Peer>, ch: Peer)
    requires ch !in handshake
    ensures Without(handshake + [ch], ch) == handshake
  {
    if handshake != [] {
      assert (handshake + [ch])[1..] == handshake[1..] + [ch];
      PendUnpend(handshake[1..], ch);
    }
  }

  lemma DistinctNoDup(close: seq<Peer>)
    requires DistinctAuthorities(close)
    ensures NoDup(close)
  {
  }

  /** `stopped` is that of the collections, which are open when the network is made. */
  class P2p {
    var stopped: bool
    var handshake: seq<Peer>
    var close: seq<Peer>

    ghost predicate Valid()
      reads this
    {
      DistinctAuthorities(close)
    }

    constructor ()
      ensures Valid() && !stopped && handshake == [] && close == []
    {
      stopped, handshake, close := false, [], [];
    }

    /** The place of the first element equal to `ch`, or the length. */
    static method IndexOf(list: seq<Peer>, ch: Peer) returns (i: nat)
      ensures i <= |list| && (i < |list| ==> list[i] == ch)
      ensures ch !in list[..i]
    {
      i := 0;
      while i < |list| && list[i] != ch
        invariant i <= |list| && ch !in list[..i]
      {
        i := i + 1;
      }
    }

    static method Erase(list: seq<Peer>, ch: Peer) returns (r: seq<Peer>)
      ensures r == Without(list, ch)
    {
      var i := IndexOf(list, ch);
      if i == |list| {
        assert list[..i] == list;
        WithoutHas(list, ch, ch);
        return list;
      }
      WithoutAt(list, ch, i);
      r := list[..i] + list[i + 1..];
    }

    method PendChannel(ch: Peer) returns (ec: Code)
      modifies this`handshake
      ensures (handshake, ec) == Pend(old(handshake), stopped, ch)
    {
      if stopped {
        return ServiceStopped;
      }
      handshake := handshake + [ch];
      ec := Success;
    }

    method UnpendChannel(ch: Peer)
      modifies this`handshake
      ensures handshake == Without(old(handshake), ch)
    {
      handshake := Erase(handshake, ch);
    }

    /** Whether some channel in handshake carries the nonce (loopback detection). */
    method Pending(nonce: nat) returns (r: bool)
      ensures r <==> exists i :: 0 <= i < |handshake| && handshake[i].nonce == nonce
    {
      for i := 0 to |handshake|
        invariant forall k :: 0 <= k < i ==> handshake[k].nonce != nonce
      {
        if handshake[i].nonce == nonce {
          return true;
        }
      }
      r := false;
    }

    method Connected(authority: nat) returns (r: bool)
      ensures r <==> Connects(close, authority)
    {
      for i := 0 to |close|
        invariant forall k :: 0 <= k < i ==> close[k].authority != authority
      {
        if close[i].authority == authority {
          return true;
        }
      }
      r := false;
    }

    /** Refused while stopped or while the authority is already connected. */
    method StoreChannel(ch: Peer) returns (ec: Code)
      requires Valid()
      modifies this`close
      ensures Valid() && (close, ec) == Store(old(close), stopped, ch)
    {
      if stopped {
        return ServiceStopped;
      }
      var used := Connected(ch.authority);
      if used {
        return AddressInUse;
      }
      close := close + [ch];
      ec := Success;
    }

    method RemoveChannel(ch: Peer)
      requires Valid()
      modifies this`close
      ensures Valid() && close == Without(old(close), ch)
      ensures ch !in close && |close| == |old(close)| - Bit(ch in old(close))
    {
      WithoutDistinct(close, ch);
      DistinctNoDup(close);
      WithoutNoDup(close, ch);
      close := Erase(close, ch);
    }
  }
}
