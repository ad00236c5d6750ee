/** The host address pool as a value: a bounded, evicting FIFO of addresses. */
module HostPool {
  import opened Codes

  /** A network address; two entries are the same host when ip and port agree. */
  datatype Address = Address(ip: nat, port: nat, services: bv64, timestamp: nat)

  /** What a line of the hosts file denotes. */
  datatype Authority = Authority(ip: nat, port: nat)

  predicate SameHost(a: Address, b: Address) {
    a.port == b.port && a.ip == b.ip
  }

  predicate Has(s: seq<Address>, a: Address) {
    exists i :: 0 <= i < |s| && SameHost(s[i], a)
  }

  predicate Distinct(s: seq<Address>) {
    forall i, j :: 0 <= i < j < |s| ==> !SameHost(s[i], s[j])
  }

  /** The newest `cap` entries. */
  function LastN<T>(cap: nat, s: seq<T>): (r: seq<T>)
    ensures |r| == Min(cap, |s|)
  {
    if |s| <= cap then s else s[|s| - cap..]
  }

  /** `circular_buffer::push_back`: the oldest entry goes when the buffer is full. */
  function Push(cap: nat, s: seq<Address>, a: Address): (r: seq<Address>)
    requires |s| <= cap && cap > 0
    ensures |r| <= cap
  {
    (if |s| < cap then s else s[1..]) + [a]
  }

  lemma PushIsLastN(cap: nat, s: seq<Address>, t: seq<Address>, a: Address)
    requires cap > 0
    ensures Push(cap, LastN(cap, s + t), a) == LastN(cap, s + (t + [a]))
  {
    assert s + (t + [a]) == (s + t) + [a];
  }

  // Sampling arithmetic of a batch.

  const MAX_SIZE: nat := 0xFFFF_FFFF_FFFF_FFFF

  function CeilingAdd(a: nat, b: nat): nat {
    if a + b > MAX_SIZE then MAX_SIZE else a + b
  }

  function Usable(cap: nat, count: nat): nat {
    Min(count, cap)
  }

  function Accept(cap: nat, size: nat, random: nat): nat
    requires size <= cap
  {
    Max(cap - size, random)
  }

  function Stride(usable: nat, accept: nat): (step: nat)
    requires accept > 0
    ensures step >= 1
  {
    Max(usable / accept, 1)
  }

  function Examined(usable: nat, step: nat): nat
    requires step > 0
  {
    (usable + step - 1) / step
  }

  lemma {:induction false} MulOrder(x: nat, y: nat, z: nat)
    ensures x <= y ==> x * z <= y * z
    ensures x < y ==> x * z + z <= y * z
    decreases y
  {
    if x < y {
      MulOrder(x, y - 1, z);
      assert y * z == (y - 1) * z + z;
    }
  }

  lemma Quotient(a: nat, b: nat)
    requires b > 0
    ensures (a / b) * b <= a < (a / b) * b + b
  {
  }

  /** A counter k that has just passed `usable` in strides of `step` counts the
      examined indices. */
  lemma ExaminedUnique(usable: nat, step: nat, k: nat)
    requires step > 0 && usable <= k * step < usable + step
    ensures k == Examined(usable, step)
  {
    var q := Examined(usable, step);
    Quotient(usable + step - 1, step);
    MulOrder(k, q, step);
    MulOrder(q, k, step);
  }

  lemma StrideIsQuotient(usable: nat, accept: nat)
    requires 0 < accept <= usable
    ensures var q := Stride(usable, accept);
            q >= 1 && q * accept <= usable < q * accept + accept
  {
    Quotient(usable, accept);
    MulOrder(usable / accept, 0, accept);
  }

  lemma StrideBounds(usable: nat, accept: nat, q: nat, n: nat)
    requires 0 < accept <= usable && q >= 1
    requires q * accept <= usable < q * accept + accept
    requires n * q <= usable + q - 1 < n * q + q
    ensures accept <= n <= usable
    ensures n <= 2 * accept - 1
  {
    MulOrder(n, accept, q);
    MulOrder(usable, n, q);
    MulOrder(1, q, usable);
    MulOrder(2 * accept - 1, n, q);
    MulOrder(1, accept, q - 1);
    assert (2 * accept - 1) * q == accept * q + accept * (q - 1) + accept - q;
  }

  /** With fewer addresses than asked for, all of them. */
  lemma ExaminedScarce(usable: nat, accept: nat)
    requires usable < accept
    ensures Stride(usable, accept) == 1 && Examined(usable, 1) == usable
  {
  }

  lemma ExaminedEnough(usable: nat, accept: nat)
    requires 0 < accept <= usable
    ensures accept <= Examined(usable, Stride(usable, accept)) <= Min(usable, 2 * accept - 1)
  {
    var q := Stride(usable, accept);
    StrideIsQuotient(usable, accept);
    Quotient(usable + q - 1, q);
    StrideBounds(usable, accept, q, Examined(usable, q));
  }

  /** The sample is never smaller than asked for (hence never smaller than the gap,
      addresses permitting) and never twice as large as asked for. */
  lemma ExaminedBounds(cap: nat, size: nat, count: nat, random: nat)
    requires size <= cap && cap > 0 && count > 0
    requires 1 <= random <= Usable(cap, count)
    ensures var usable := Usable(cap, count);
            var accept := Accept(cap, size, random);
            && accept >= 1
            && var n := Examined(usable, Stride(usable, accept));
            && Min(accept, usable) <= n <= Min(usable, 2 * accept - 1)
            && Min(cap - size, usable) <= n <= cap
  {
    var usable := Usable(cap, count);
    var accept := Accept(cap, size, random);
    if accept <= usable {
      ExaminedEnough(usable, accept);
    } else {
      ExaminedScarce(usable, accept);
    }
  }

  // Batch insertion.

  /** The hosts at indices 0, step, 2 * step, ..., (k - 1) * step. */
  function Sample(hosts: seq<Address>, step: nat, k: nat): (r: seq<Address>)
    ensures |r| <= k
  {
    if k == 0 then []
    else Sample(hosts, step, k - 1) +
         if (k - 1) * step < |hosts| then [hosts[(k - 1) * step]] else []
  }

  /** Which of the sampled hosts enter the pool: the valid ones that are not in it
      when their turn comes. */
  function Admit(cap: nat, valid: Address -> bool, old_: seq<Address>, sample: seq<Address>): (r: seq<Address>)
    ensures |r| <= |sample|
  {
    if sample == [] then []
    else
      var acc := Admit(cap, valid, old_, sample[..|sample| - 1]);
      var a := sample[|sample| - 1];
      if valid(a) && !Has(LastN(cap, old_ + acc), a) then acc + [a] else acc
  }

  /** The batch insert as a whole. */
  function InsertBatch(cap: nat, valid: Address -> bool, entries: seq<Address>,
                       hosts: seq<Address>, random: nat): seq<Address>
    requires |entries| <= cap && cap > 0
    requires hosts != [] && 1 <= random <= Usable(cap, |hosts|)
  {
    LastN(cap, entries + Admit(cap, valid, entries, BatchSample(cap, |entries|, hosts, random)))
  }

  function BatchSample(cap: nat, size: nat, hosts: seq<Address>, random: nat): seq<Address>
    requires size <= cap && cap > 0
    requires hosts != [] && 1 <= random <= Usable(cap, |hosts|)
  {
    var usable := Usable(cap, |hosts|);
    var step := Stride(usable, Accept(cap, size, random));
    Sample(hosts, step, Examined(usable, step))
  }

  lemma LastNDistinct(cap: nat, s: seq<Address>, a: Address)
    requires Distinct(LastN(cap, s)) && !Has(LastN(cap, s), a)
    ensures Distinct(LastN(cap, s + [a]))
  {
    if cap > 0 {
      var before := LastN(cap, s);
      PushIsLastN(cap, s, [], a);
      assert s + [] == s && [] + [a] == [a];
      DistinctAppend(if |before| < cap then before else before[1..], a);
    }
  }

  /** What is appended to a pool, at most `cap` of it, is all still there. */
  lemma LastNSuffix(cap: nat, s: seq<Address>, t: seq<Address>)
    requires |t| <= cap
    ensures var r := LastN(cap, s + t); |t| <= |r| && r[|r| - |t|..] == t
  {
  }

  lemma DistinctAppend(s: seq<Address>, a: Address)
    requires Distinct(s) && !Has(s, a)
    ensures Distinct(s + [a])
  {
  }

  /** Accepted hosts are pairwise distinct: each was looked up in a pool that still
      held every host its own batch had accepted before it. */
  lemma {:induction false} AdmitDistinct(cap: nat, valid: Address -> bool, old_: seq<Address>, sample: seq<Address>)
    requires |sample| <= cap
    ensures Distinct(Admit(cap, valid, old_, sample))
  {
    if sample != [] {
      var init := sample[..|sample| - 1];
      var a := sample[|sample| - 1];
      AdmitDistinct(cap, valid, old_, init);
      var acc := Admit(cap, valid, old_, init);
      if valid(a) && !Has(LastN(cap, old_ + acc), a) {
        LastNSuffix(cap, old_, acc);
        assert !Has(LastN(cap, old_ + acc)[|LastN(cap, old_ + acc)| - |acc|..], a);
        DistinctAppend(acc, a);
      }
    }
  }

  lemma {:induction false} AdmitKeepsDistinct(cap: nat, valid: Address -> bool, old_: seq<Address>, sample: seq<Address>)
    requires Distinct(LastN(cap, old_))
    ensures Distinct(LastN(cap, old_ + Admit(cap, valid, old_, sample)))
  {
    if sample == [] {
      assert old_ + [] == old_;
    } else {
      var init := sample[..|sample| - 1];
      var a := sample[|sample| - 1];
      AdmitKeepsDistinct(cap, valid, old_, init);
      var acc := Admit(cap, valid, old_, init);
      if valid(a) && !Has(LastN(cap, old_ + acc), a) {
        LastNDistinct(cap, old_ + acc, a);
        assert old_ + (acc + [a]) == (old_ + acc) + [a];
      }
    }
  }

  lemma {:induction false} AdmitSampled(cap: nat, valid: Address -> bool, old_: seq<Address>, sample: seq<Address>)
    ensures forall a :: a in Admit(cap, valid, old_, sample) ==> valid(a) && a in sample
  {
    if sample != [] {
      AdmitSampled(cap, valid, old_, sample[..|sample| - 1]);
    }
  }

  lemma HasAppend(s: seq<Address>, t: seq<Address>, a: Address)
    ensures Has(s + t, a) <==> Has(s, a) || Has(t, a)
  {
    if i :| 0 <= i < |s| && SameHost(s[i], a) {
      assert SameHost((s + t)[i], a);
    }
    if i :| 0 <= i < |t| && SameHost(t[i], a) {
      assert SameHost((s + t)[|s| + i], a);
    }
  }

  lemma LastNHas(cap: nat, s: seq<Address>, a: Address)
    ensures Has(LastN(cap, s), a) ==> Has(s, a)
  {
    var from := |s| - |LastN(cap, s)|;
    assert LastN(cap, s) == s[from..];
    if i :| 0 <= i < |LastN(cap, s)| && SameHost(LastN(cap, s)[i], a) {
      assert SameHost(s[from + i], a);
    }
  }

  lemma FreshLast(s: seq<Address>)
    requires s != [] && Distinct(s)
    ensures !Has(s[..|s| - 1], s[|s| - 1])
  {
  }

  lemma AdmitOne(cap: nat, valid: Address -> bool, old_: seq<Address>, init: seq<Address>, a: Address)
    requires Admit(cap, valid, old_, init) == init
    requires valid(a) && !Has(old_, a) && !Has(init, a)
    ensures Admit(cap, valid, old_, init + [a]) == init + [a]
  {
    assert (init + [a])[..|init|] == init;
    HasAppend(old_, init, a);
    LastNHas(cap, old_ + init, a);
  }

  /** When every sampled host is valid and new, the whole sample enters. */
  lemma {:induction false} AdmitAllFresh(cap: nat, valid: Address -> bool, old_: seq<Address>, sample: seq<Address>)
    requires Distinct(sample)
    requires forall i :: 0 <= i < |sample| ==> valid(sample[i]) && !Has(old_, sample[i])
    ensures Admit(cap, valid, old_, sample) == sample
  {
    if sample != [] {
      var init := sample[..|sample| - 1];
      var a := sample[|sample| - 1];
      AdmitAllFresh(cap, valid, old_, init);
      FreshLast(sample);
      AdmitOne(cap, valid, old_, init, a);
      assert init + [a] == sample;
    }
  }

  /** The batch insert, for every pool, list and draw. */
  lemma InsertBatchSurvival(cap: nat, valid: Address -> bool, entries: seq<Address>,
                            hosts: seq<Address>, random: nat)
    requires |entries| <= cap && cap > 0
    requires hosts != [] && 1 <= random <= Usable(cap, |hosts|)
    ensures var acc := Admit(cap, valid, entries, BatchSample(cap, |entries|, hosts, random));
            var r := InsertBatch(cap, valid, entries, hosts, random);
            && r == LastN(cap, entries + acc) && |r| <= cap
            && Distinct(acc)
            && |acc| <= |r| && acc == r[|r| - |acc|..]
            && (forall a :: a in acc ==> valid(a) && a in hosts)
            && (Distinct(entries) ==> Distinct(r))
  {
    var sample := BatchSample(cap, |entries|, hosts, random);
    ExaminedBounds(cap, |entries|, |hosts|, random);
    var acc := Admit(cap, valid, entries, sample);
    AdmitDistinct(cap, valid, entries, sample);
    AdmitSampled(cap, valid, entries, sample);
    LastNSuffix(cap, entries, acc);
    if Distinct(entries) {
      AdmitKeepsDistinct(cap, valid, entries, sample);
    }
    var usable := Usable(cap, |hosts|);
    var step := Stride(usable, Accept(cap, |entries|, random));
    SampleOfHosts(hosts, step, Examined(usable, step));
  }

  lemma {:induction false} SampleOfHosts(hosts: seq<Address>, step: nat, k: nat)
    ensures forall a :: a in Sample(hosts, step, k) ==> a in hosts
  {
    if k > 0 {
      SampleOfHosts(hosts, step, k - 1);
    }
  }

  // Persistence.

  function ToAuthority(a: Address): Authority {
    Authority(a.ip, a.port)
  }

  function ToAddress(h: Authority): Address {
    Address(h.ip, h.port, 0, 0)
  }

  /** The lines `stop` writes, one per entry, oldest first. */
  function Saved(print_: Authority -> string, entries: seq<Address>): (r: seq<string>)
    ensures |r| == |entries|
  {
    seq(|entries|, i requires 0 <= i < |entries| => print_(ToAuthority(entries[i])))
  }

  /** The entries `start` reads back: lines with a zero port are skipped. */
  function Loaded(parse: string -> Authority, lines: seq<string>): (r: seq<Address>)
    ensures |r| <= |lines|
  {
    if lines == [] then []
    else
      var host := parse(lines[|lines| - 1]);
      var rest := Loaded(parse, lines[..|lines| - 1]);
      if host.port != 0 then rest + [ToAddress(host)] else rest
  }

  /** What of a pool survives a save and a load. */
  function Kept(entries: seq<Address>): (r: seq<Address>)
    ensures |r| <= |entries|
  {
    if entries == [] then []
    else
      var a := entries[|entries| - 1];
      var rest := Kept(entries[..|entries| - 1]);
      if a.port != 0 then rest + [ToAddress(ToAuthority(a))] else rest
  }

  ghost predicate RoundTrips(print_: Authority -> string, parse: string -> Authority) {
    forall h :: parse(print_(h)) == h
  }

  lemma {:induction false} LoadSaved(print_: Authority -> string, parse: string -> Authority, entries: seq<Address>)
    requires RoundTrips(print_, parse)
    ensures Loaded(parse, Saved(print_, entries)) == Kept(entries)
  {
    if entries != [] {
      var n := |entries| - 1;
      LoadSaved(print_, parse, entries[..n]);
      assert Saved(print_, entries)[..n] == Saved(print_, entries[..n]);
      assert parse(Saved(print_, entries)[n]) == ToAuthority(entries[n]);
    }
  }

  /** A second save and load changes nothing. */
  lemma {:induction false} KeptIdempotent(entries: seq<Address>)
    ensures Kept(Kept(entries)) == Kept(entries)
  {
    if entries != [] {
      var n := |entries| - 1;
      KeptIdempotent(entries[..n]);
      var k := Kept(entries[..n]);
      if entries[n].port != 0 {
        assert Kept(entries)[..|k|] == k;
      }
    }
  }

  /** A host is kept exactly when it is in the pool with a non-zero port. */
  lemma {:induction false} KeptHas(entries: seq<Address>, a: Address)
    ensures Has(Kept(entries), a) <==> a.port != 0 && Has(entries, a)
  {
    if entries != [] {
      var n := |entries| - 1;
      KeptHas(entries[..n], a);
      HasAppend(entries[..n], [entries[n]], a);
      assert entries[..n] + [entries[n]] == entries;
      var x := ToAddress(ToAuthority(entries[n]));
      assert Has([x], a) <==> SameHost([x][0], a);
      assert Has([entries[n]], a) <==> SameHost([entries[n]][0], a);
      HasAppend(Kept(entries[..n]), [x], a);
    }
  }

  lemma {:induction false} KeptDistinct(entries: seq<Address>)
    requires Distinct(entries)
    ensures Distinct(Kept(entries))
  {
    if entries != [] {
      var n := |entries| - 1;
      KeptDistinct(entries[..n]);
      var x := ToAddress(ToAuthority(entries[n]));
      KeptHas(entries[..n], x);
      if entries[n].port != 0 {
        DistinctAppend(Kept(entries[..n]), x);
      }
    }
  }
}
