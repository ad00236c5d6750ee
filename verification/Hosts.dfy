/** The operations of the host pool, first on values, then as the class with its
    ring buffer, each method proved against the value operation. */
module PoolOperations {
  import opened Codes
  import opened HostPool

  /** `capacity` is the configured capacity; the buffer holds at least one entry
      because a circular buffer of capacity zero cannot be made. */
  datatype Pool = Pool(capacity: nat, entries: seq<Address>, stopped: bool) {
    predicate Disabled() {
      capacity == 0
    }

    function Room(): nat {
      Max(capacity, 1)
    }

    predicate Bounded() {
      |entries| <= Room() && (Disabled() ==> entries == [])
    }
  }

  /** The hosts file: unreadable, or its lines. */
  datatype File = Bad | Lines(lines: seq<string>)

  function IndexOf(s: seq<Address>, a: Address): (i: nat)
    ensures i <= |s|
    ensures i < |s| ==> SameHost(s[i], a)
    ensures forall j :: 0 <= j < i ==> !SameHost(s[j], a)
  {
    if s == [] then 0
    else if SameHost(s[0], a) then 0
    else 1 + IndexOf(s[1..], a)
  }

  function StoreOne(p: Pool, valid: Address -> bool, host: Address): (r: (Pool, Code))
    requires p.Bounded()
    ensures r.0.Bounded()
  {
    if p.Disabled() || !valid(host) then (p, Success)
    else if p.stopped then (p, ServiceStopped)
    else if Has(p.entries, host) then (p, Success)
    else (p.(entries := Push(p.Room(), p.entries, host)), Success)
  }

  predicate Drawable(p: Pool, hosts: seq<Address>, random: nat) {
    1 <= random <= Usable(p.Room(), |hosts|)
  }

  function StoreMany(p: Pool, valid: Address -> bool, hosts: seq<Address>, random: nat): (r: (Pool, Code))
    requires p.Bounded() && (hosts != [] ==> Drawable(p, hosts, random))
    ensures r.0.Bounded()
  {
    if p.Disabled() || hosts == [] then (p, Success)
    else if p.stopped then (p, ServiceStopped)
    else (p.(entries := InsertBatch(p.Room(), valid, p.entries, hosts, random)), Success)
  }

  function Remove(p: Pool, host: Address): (r: (Pool, Code))
    requires p.Bounded()
    ensures r.0.Bounded()
  {
    if p.Disabled() then (p, NotFound)
    else if p.stopped then (p, ServiceStopped)
    else
      var i := IndexOf(p.entries, host);
      if i < |p.entries| then (p.(entries := p.entries[..i] + p.entries[i + 1..]), Success)
      else (p, NotFound)
  }

  function Start(p: Pool, parse: string -> Authority, file: File): (r: (Pool, Code))
    requires p.Bounded()
    ensures r.0.Bounded()
  {
    if p.Disabled() then (p, Success)
    else if !p.stopped then (p, OperationFailed)
    else if file.Bad? then (p.(stopped := false), FileSystem)
    else (p.(stopped := false, entries := LastN(p.Room(), p.entries + Loaded(parse, file.lines))), Success)
  }

  /** `writable` says that the file stream is not bad; the last component is what is
      written. */
  function Stop(p: Pool, print_: Authority -> string, writable: bool): (r: (Pool, Code, File))
    requires p.Bounded()
    ensures r.0.Bounded()
  {
    if p.Disabled() || p.stopped then (p, Success, Bad)
    else if !writable then (p.(stopped := true), FileSystem, Bad)
    else (p.(stopped := true, entries := []), Success, Lines(Saved(print_, p.entries)))
  }

  /** A successful save followed by a load restores, in order, exactly the entries
      with a non-zero port, reduced to ip and port; every further cycle changes
      nothing. */
  lemma StopStartRoundTrip(p: Pool, print_: Authority -> string, parse: string -> Authority)
    requires RoundTrips(print_, parse)
    requires p.Bounded() && !p.Disabled() && !p.stopped
    ensures var (down, ec, file) := Stop(p, print_, true);
            var (up, ec') := Start(down, parse, file);
            && ec == Success && ec' == Success && down.entries == []
            && up == p.(entries := Kept(p.entries))
            && var (down2, _, file2) := Stop(up, print_, true);
               Start(down2, parse, file2).0 == up
  {
    LoadSaved(print_, parse, p.entries);
    assert [] + Kept(p.entries) == Kept(p.entries);
    LoadSaved(print_, parse, Kept(p.entries));
    KeptIdempotent(p.entries);
  }

  lemma RemoveKeepsDistinct(s: seq<Address>, i: nat)
    requires Distinct(s) && i < |s|
    ensures Distinct(s[..i] + s[i + 1..])
  {
  }

  lemma EraseHas(s: seq<Address>, i: nat, b: Address)
    requires Distinct(s) && i < |s|
    ensures Has(s[..i] + s[i + 1..], b) <==> Has(s, b) && !SameHost(s[i], b)
  {
    var r := s[..i] + s[i + 1..];
    if Has(r, b) {
      var j :| 0 <= j < |r| && SameHost(r[j], b);
      assert r[j] == s[if j < i then j else j + 1];
    }
    if Has(s, b) && !SameHost(s[i], b) {
      var j :| 0 <= j < |s| && SameHost(s[j], b);
      assert r[if j < i then j else j - 1] == s[j];
    }
  }

  /** Removal takes the host out and nothing else; storing it makes it findable and
      evicts at most the oldest entry. */
  lemma StoreRemoveMeaning(p: Pool, valid: Address -> bool, a: Address, b: Address)
    requires p.Bounded() && !p.Disabled() && !p.stopped && Distinct(p.entries)
    ensures Has(Remove(p, a).0.entries, b) <==> Has(p.entries, b) && !SameHost(a, b)
    ensures Remove(p, a).1 == Success <==> Has(p.entries, a)
    ensures valid(a) ==> Has(StoreOne(p, valid, a).0.entries, a)
    ensures valid(a) && !Has(p.entries, a) ==>
              StoreOne(p, valid, a).0.entries == LastN(p.Room(), p.entries + [a])
  {
    var i := IndexOf(p.entries, a);
    if i < |p.entries| {
      EraseHas(p.entries, i, b);
    }
    if valid(a) {
      StoreAppends(p, valid, a);
    }
  }

  lemma StoreAppends(p: Pool, valid: Address -> bool, a: Address)
    requires p.Bounded() && !p.Disabled() && !p.stopped && valid(a)
    ensures Has(StoreOne(p, valid, a).0.entries, a)
    ensures !Has(p.entries, a) ==> StoreOne(p, valid, a).0.entries == LastN(p.Room(), p.entries + [a])
  {
    if !Has(p.entries, a) {
      var r := StoreOne(p, valid, a).0.entries;
      assert SameHost(r[|r| - 1], a);
      PushIsLastN(p.Room(), p.entries, [], a);
      assert p.entries + [] == p.entries && [] + [a] == [a];
    }
  }

  // Whole runs of a node over one hosts file.

  /** A stream that is bad fails the load or save. One that merely could not be opened is
      not bad: such a load finds no lines and such a save leaves the file as it was, and
      both are taken for successes. */
  datatype Op =
    | OpStore(host: Address)
    | OpStoreMany(hosts: seq<Address>, random: nat)
    | OpRemove(host: Address)
    | OpStart
    | OpStartFails
    | OpStartUnread
    | OpStop
    | OpStopFails
    | OpStopUnwritten

  datatype World = World(pool: Pool, file: seq<string>)

  datatype Text = Text(print_: Authority -> string, parse: string -> Authority, valid: Address -> bool)

  function Apply(t: Text, w: World, op: Op): (r: World)
    requires w.pool.Bounded()
    ensures r.pool.Bounded() && r.pool.capacity == w.pool.capacity
  {
    match op
    case OpStore(a) => w.(pool := StoreOne(w.pool, t.valid, a).0)
    case OpStoreMany(hs, random) =>
      if hs != [] && !Drawable(w.pool, hs, random) then w
      else w.(pool := StoreMany(w.pool, t.valid, hs, random).0)
    case OpRemove(a) => w.(pool := Remove(w.pool, a).0)
    case OpStart => w.(pool := Start(w.pool, t.parse, Lines(w.file)).0)
    case OpStartFails => w.(pool := Start(w.pool, t.parse, Bad).0)
    case OpStartUnread => w.(pool := Start(w.pool, t.parse, Lines([])).0)
    case OpStop =>
      var (p, _, f) := Stop(w.pool, t.print_, true);
      World(p, if f.Lines? then f.lines else w.file)
    case OpStopFails => w.(pool := Stop(w.pool, t.print_, false).0)
    case OpStopUnwritten => w.(pool := Stop(w.pool, t.print_, true).0)
  }

  function Run(t: Text, w: World, ops: seq<Op>): (r: World)
    requires w.pool.Bounded()
    ensures r.pool.Bounded() && r.pool.capacity == w.pool.capacity
  {
    if ops == [] then w
    else Apply(t, Run(t, w, ops[..|ops| - 1]), ops[|ops| - 1])
  }

  function NewPool(maxAddress: nat, configured: nat): (p: Pool)
    ensures p.Bounded()
  {
    Pool(Min(maxAddress, configured), [], true)
  }

  ghost predicate Unique(t: Text, w: World) {
    && w.pool.Bounded()
    && Distinct(w.pool.entries)
    && (w.pool.stopped ==> w.pool.entries == [])
    && Distinct(Loaded(t.parse, w.file))
  }

  lemma StoresKeepUnique(t: Text, w: World, op: Op)
    requires Unique(t, w) && (op.OpStore? || op.OpStoreMany?)
    ensures Unique(t, Apply(t, w, op))
  {
    var p := w.pool;
    match op
    case OpStore(a) =>
      if !p.Disabled() && t.valid(a) && !p.stopped && !Has(p.entries, a) {
        PushIsLastN(p.Room(), p.entries, [], a);
        assert p.entries + [] == p.entries && [] + [a] == [a];
        LastNDistinct(p.Room(), p.entries, a);
      }
    case OpStoreMany(hs, random) =>
      if !p.Disabled() && hs != [] && !p.stopped && Drawable(p, hs, random) {
        InsertBatchSurvival(p.Room(), t.valid, p.entries, hs, random);
      }
  }

  lemma RemoveKeepsUnique(t: Text, w: World, a: Address)
    requires Unique(t, w)
    ensures Unique(t, Apply(t, w, OpRemove(a)))
  {
    var i := IndexOf(w.pool.entries, a);
    if i < |w.pool.entries| {
      RemoveKeepsDistinct(w.pool.entries, i);
    }
  }

  lemma StartKeepsUnique(t: Text, w: World)
    requires Unique(t, w)
    ensures Unique(t, Apply(t, w, OpStart))
  {
    if !w.pool.Disabled() && w.pool.stopped {
      assert [] + Loaded(t.parse, w.file) == Loaded(t.parse, w.file);
    }
  }

  lemma StopKeepsUnique(t: Text, w: World)
    requires RoundTrips(t.print_, t.parse) && Unique(t, w)
    ensures Unique(t, Apply(t, w, OpStop))
  {
    LoadSaved(t.print_, t.parse, w.pool.entries);
    KeptDistinct(w.pool.entries);
  }

  lemma ApplyKeepsUnique(t: Text, w: World, op: Op)
    requires RoundTrips(t.print_, t.parse)
    requires Unique(t, w) && op != OpStopFails
    ensures Unique(t, Apply(t, w, op))
  {
    match op
    case OpStart => StartKeepsUnique(t, w);
    case OpStartFails =>
    case OpStartUnread =>
      assert [] + Loaded(t.parse, []) == [];
    case OpStopUnwritten =>
    case OpStop => StopKeepsUnique(t, w);
    case OpRemove(a) => RemoveKeepsUnique(t, w, a);
    case _ => StoresKeepUnique(t, w, op);
  }

  /** From a new pool over a hosts file without duplicate lines, every run in which
      each save succeeds keeps the pool bounded, empty if disabled, and free of
      duplicate hosts. */
  lemma {:induction false} EveryRunUnique(t: Text, maxAddress: nat, configured: nat, file: seq<string>, ops: seq<Op>)
    requires RoundTrips(t.print_, t.parse)
    requires Distinct(Loaded(t.parse, file))
    requires OpStopFails !in ops
    ensures Unique(t, Run(t, World(NewPool(maxAddress, configured), file), ops))
  {
    if ops != [] {
      EveryRunUnique(t, maxAddress, configured, file, ops[..|ops| - 1]);
      ApplyKeepsUnique(t, Run(t, World(NewPool(maxAddress, configured), file), ops[..|ops| - 1]), ops[|ops| - 1]);
    }
  }

  predicate ShareNone(s: seq<Address>, t: seq<Address>) {
    forall i :: 0 <= i < |s| ==> !Has(t, s[i])
  }

  lemma DistinctConcat(s: seq<Address>, t: seq<Address>)
    ensures Distinct(s + t) <==> Distinct(s) && Distinct(t) && ShareNone(s, t)
  {
    var r := s + t;
    assert forall i :: 0 <= i < |s| ==> r[i] == s[i];
    assert forall i :: 0 <= i < |t| ==> r[|s| + i] == t[i];
    if Distinct(r) {
      forall i, j | 0 <= i < j < |t|
        ensures !SameHost(t[i], t[j])
      {
        assert !SameHost(r[|s| + i], r[|s| + j]);
      }
      forall i, j | 0 <= i < |s| && 0 <= j < |t|
        ensures !SameHost(t[j], s[i])
      {
        assert !SameHost(r[i], r[|s| + j]);
      }
    } else {
      var i, j :| 0 <= i < j < |r| && SameHost(r[i], r[j]);
      if i < |s| <= j {
        assert SameHost(t[j - |s|], s[i]);
      }
    }
  }

  lemma LastNConcat(cap: nat, s: seq<Address>, t: seq<Address>)
    ensures LastN(cap, s + t) == LastN(cap - Min(cap, |t|), s) + LastN(cap, t)
  {
  }

  /** What a load of these lines keeps of the file, and leaves of the pool. */
  function FromFile(p: Pool, parse: string -> Authority, lines: seq<string>): (r: seq<Address>)
    ensures |r| <= p.Room()
  {
    LastN(p.Room(), Loaded(parse, lines))
  }

  function Left(p: Pool, parse: string -> Authority, lines: seq<string>): seq<Address> {
    LastN(p.Room() - |FromFile(p, parse, lines)|, p.entries)
  }

  lemma StartEntries(p: Pool, parse: string -> Authority, lines: seq<string>)
    requires p.Bounded() && !p.Disabled() && p.stopped
    ensures Start(p, parse, Lines(lines)).0.entries == Left(p, parse, lines) + FromFile(p, parse, lines)
  {
    LastNConcat(p.Room(), p.entries, Loaded(parse, lines));
  }

  /** Loading makes no duplicate check. The pool is free of duplicates afterwards exactly
      when what is left of its entries and what is kept of the file are, and share no
      host. */
  lemma StartUniqueIff(p: Pool, parse: string -> Authority, lines: seq<string>)
    requires p.Bounded() && !p.Disabled() && p.stopped
    ensures var left, fromFile := Left(p, parse, lines), FromFile(p, parse, lines);
            Distinct(Start(p, parse, Lines(lines)).0.entries) <==>
              Distinct(left) && Distinct(fromFile) && ShareNone(left, fromFile)
  {
    StartEntries(p, parse, lines);
    DistinctConcat(Left(p, parse, lines), FromFile(p, parse, lines));
  }

  /** Even a first load does it, of a file that names a host twice. */
  lemma DoubleLineDuplicates(t: Text, maxAddress: nat, configured: nat, line: string)
    requires maxAddress >= 2 && configured >= 2 && t.parse(line).port != 0
    ensures !Distinct(Run(t, World(NewPool(maxAddress, configured), [line, line]), [OpStart]).pool.entries)
  {
    var w := World(NewPool(maxAddress, configured), [line, line]);
    var a := ToAddress(t.parse(line));
    assert [line, line][..1] == [line] && [line][..0] == [];
    assert Loaded(t.parse, [line]) == [a];
    assert Loaded(t.parse, [line, line]) == [a] + [a];
    assert [OpStart][..0] == [];
    assert Run(t, w, [OpStart]) == Apply(t, w, OpStart);
    var r := Run(t, w, [OpStart]).pool.entries;
    assert r == [] + [a, a];
    assert SameHost(r[0], r[1]);
  }

  /** A failed save leaves the entries in the pool, so the next load of the file they came
      from duplicates them: from a new pool over a file with a single host, a load, a
      failed save and a load are enough. */
  lemma FailedStopDuplicates(t: Text, maxAddress: nat, configured: nat, line: string)
    requires maxAddress >= 2 && configured >= 2 && t.parse(line).port != 0
    ensures var a := ToAddress(t.parse(line));
            Run(t, World(NewPool(maxAddress, configured), [line]), [OpStart, OpStopFails, OpStart]).pool.entries == [a, a]
    ensures !Distinct(Run(t, World(NewPool(maxAddress, configured), [line]), [OpStart, OpStopFails, OpStart]).pool.entries)
  {
    var w := World(NewPool(maxAddress, configured), [line]);
    var a := ToAddress(t.parse(line));
    var ops := [OpStart, OpStopFails, OpStart];
    assert [line][..0] == [];
    assert Loaded(t.parse, [line]) == [a];
    assert ops[..2] == [OpStart, OpStopFails] && ops[..2][..1] == [OpStart] && [OpStart][..0] == [];
    var w1 := Apply(t, w, OpStart);
    assert Run(t, w, [OpStart]) == w1;
    assert w1.pool.entries == [] + [a];
    var w2 := Apply(t, w1, OpStopFails);
    assert Run(t, w, ops[..2]) == w2;
    var r := Apply(t, w2, OpStart).pool.entries;
    assert r == [a] + [a];
    assert SameHost(r[0], r[1]);
  }
}

/** The pool as the source has it: a ring of fixed capacity updated in place. */
module Hosts {
  import opened Codes
  import opened HostPool
  import P = PoolOperations

  lemma QuotientBound(a: nat, b: nat)
    requires b >= 1
    ensures a / b <= a
  {
    Quotient(a, b);
    MulOrder(1, b, a / b);
  }

  datatype Fetched = Fetched(ec: Code, hosts: seq<Address>)

  /** The array index of the i-th oldest entry of a ring. */
  function Slot(size: nat, first: nat, i: nat): nat {
    if first + i < size then first + i else first + i - size
  }

  /** The entries of a ring, oldest first. */
  ghost function Window(store: seq<Address>, first: nat, len: nat): (r: seq<Address>)
    requires first < |store| && len <= |store|
    ensures |r| == len
    ensures forall i :: 0 <= i < len ==> r[i] == store[Slot(|store|, first, i)]
  {
    seq(len, i requires 0 <= i < len => store[Slot(|store|, first, i)])
  }

  /** A sequence with entries i + 1 to j moved up one place. */
  ghost function Shifted(was: seq<Address>, i: nat, j: nat): (r: seq<Address>)
    requires i <= j < |was|
    ensures |r| == |was|
    ensures forall k :: 0 <= k < |was| ==> r[k] == was[if i <= k < j then k + 1 else k]
  {
    seq(|was|, k requires 0 <= k < |was| => was[if i <= k < j then k + 1 else k])
  }

  lemma ShiftStep(was: seq<Address>, i: nat, j: nat)
    requires i <= j && j + 1 < |was|
    ensures Shifted(was, i, j)[j + 1] == was[j + 1]
    ensures Shifted(was, i, j)[j := was[j + 1]] == Shifted(was, i, j + 1)
  {
  }

  lemma ShiftEnd(was: seq<Address>, i: nat)
    requires i < |was|
    ensures Shifted(was, i, |was| - 1)[..|was| - 1] == was[..i] + was[i + 1..]
  {
  }

  lemma StrideAdvance(k: nat, step: nat, usable: nat)
    requires step > 0 && k * step < usable
    ensures (k + 1) * step == k * step + step
  {
  }

  lemma SampleNext(hosts: seq<Address>, step: nat, k: nat, index: nat)
    requires index == k * step < |hosts|
    ensures Sample(hosts, step, k + 1) == Sample(hosts, step, k) + [hosts[index]]
  {
  }

  class Hosts {
    const capacity: nat
    const disabled: bool
    const valid: Address -> bool
    const ring: array<Address>
    var first: nat
    var len: nat
    var stopped: bool

    ghost predicate Valid()
      reads this`first, this`len
    {
      && ring.Length == Max(capacity, 1) <= MAX_SIZE
      && disabled == (capacity == 0)
      && first < ring.Length
      && len <= ring.Length
      && (disabled ==> len == 0)
    }

    ghost function Entries(): (s: seq<Address>)
      requires Valid()
      reads this`first, this`len, ring
    {
      Window(ring[..], first, len)
    }

    ghost function Abs(): (p: P.Pool)
      requires Valid()
      reads this, ring
      ensures p.Bounded()
    {
      P.Pool(capacity, Entries(), stopped)
    }

    constructor (maxAddress: nat, configured: nat, valid: Address -> bool, blank: Address)
      requires maxAddress <= MAX_SIZE
      ensures Valid() && Abs() == P.NewPool(maxAddress, configured) && this.valid == valid
      ensures fresh(ring)
    {
      capacity := Min(maxAddress, configured);
      disabled := Min(maxAddress, configured) == 0;
      this.valid := valid;
      ring := new Address[Max(Min(maxAddress, configured), 1)](_ => blank);
      first, len, stopped := 0, 0, true;
    }

    method At(i: nat) returns (a: Address)
      requires Valid() && i < len
      ensures a == Entries()[i]
    {
      a := ring[Slot(ring.Length, first, i)];
    }

    method PushBack(a: Address)
      requires Valid() && !disabled
      modifies this`first, this`len, ring
      ensures Valid()
      ensures Entries() == Push(ring.Length, old(Entries()), a)
    {
      if len == ring.Length {
        ring[first] := a;
        first := if first + 1 == ring.Length then 0 else first + 1;
        assert Entries() == old(Entries())[1..] + [a];
      } else {
        ring[Slot(ring.Length, first, len)] := a;
        len := len + 1;
        assert Entries() == old(Entries()) + [a];
      }
    }

    method SetAt(i: nat, a: Address)
      requires Valid() && i < len
      modifies ring
      ensures Entries() == old(Entries())[i := a]
    {
      ring[Slot(ring.Length, first, i)] := a;
    }

    /** Erase the i-th entry by moving the later ones up. */
    method Erase(i: nat)
      requires Valid() && i < len
      modifies this`len, ring
      ensures Valid()
      ensures Entries() == old(Entries())[..i] + old(Entries())[i + 1..]
    {
      ghost var was := Entries();
      var j := i;
      assert was == Shifted(was, i, i);
      while j + 1 < len
        invariant i <= j < len == |was| && Valid()
        invariant Entries() == Shifted(was, i, j)
      {
        var next := At(j + 1);
        SetAt(j, next);
        ShiftStep(was, i, j);
        j := j + 1;
      }
      DropLast();
      ShiftEnd(was, i);
    }

    method DropLast()
      requires Valid() && len > 0
      modifies this`len
      ensures Valid() && len == old(len) - 1
      ensures Entries() == old(Entries())[..len]
    {
      len := len - 1;
    }

    method Find(host: Address) returns (i: nat)
      requires Valid()
      ensures i == P.IndexOf(Entries(), host)
    {
      i := 0;
      while i < len
        invariant 0 <= i <= len
        invariant forall k :: 0 <= k < i ==> !SameHost(Entries()[k], host)
      {
        var a := At(i);
        if SameHost(a, host) {
          return;
        }
        i := i + 1;
      }
    }

    method Count() returns (n: nat)
      requires Valid()
      ensures n == |Entries()|
    {
      n := len;
    }

    /** `random` is the draw from [0, size - 1]. */
    method FetchOne(random: nat) returns (r: Fetched)
      requires Valid() && (len > 0 ==> random < len)
      ensures r.ec == Success <==> !disabled && !stopped && Entries() != []
      ensures r.ec == Success ==> r.hosts == [Entries()[random]]
      ensures r.ec != Success ==> r.hosts == [] && r.ec == if !disabled && stopped then ServiceStopped else NotFound
    {
      if disabled {
        return Fetched(NotFound, []);
      }
      if stopped {
        return Fetched(ServiceStopped, []);
      }
      if len == 0 {
        return Fetched(NotFound, []);
      }
      var a := At(random);
      r := Fetched(Success, [a]);
    }

    method Oldest(count: nat) returns (out: seq<Address>)
      requires Valid() && count <= len
      ensures out == Entries()[..count]
    {
      out := [];
      for index := 0 to count
        invariant out == Entries()[..index]
      {
        var a := At(index);
        out := out + [a];
      }
    }

    /** `divisor` is the draw from [1, 20]; `shuffle` reorders at random. The result
        is a reordering of the oldest size / divisor entries. */
    method FetchMany(divisor: nat, shuffle: seq<Address> -> seq<Address>) returns (r: Fetched)
      requires Valid() && 1 <= divisor <= 20
      requires forall s {:trigger shuffle(s)} :: multiset(shuffle(s)) == multiset(s)
      ensures r.ec == Success <==> !disabled && !stopped && Entries() != []
      ensures r.ec == Success ==> multiset(r.hosts) == multiset(Entries()[..len / divisor])
      ensures r.ec != Success ==> r.hosts == [] && r.ec == if !disabled && stopped then ServiceStopped else NotFound
    {
      if disabled {
        return Fetched(NotFound, []);
      }
      if stopped {
        return Fetched(ServiceStopped, []);
      }
      if len == 0 {
        return Fetched(NotFound, []);
      }
      var count := Min(len, capacity) / divisor;
      QuotientBound(len, divisor);
      if count == 0 {
        return Fetched(Success, []);
      }
      var out := Oldest(count);
      r := Fetched(Success, shuffle(out));
    }

    method Start(parse: string -> Authority, file: P.File) returns (ec: Code)
      requires Valid()
      modifies this, ring
      ensures Valid()
      ensures (Abs(), ec) == P.Start(old(Abs()), parse, file)
    {
      if disabled {
        return Success;
      }
      if !stopped {
        return OperationFailed;
      }
      stopped := false;
      if file.Bad? {
        return FileSystem;
      }
      ghost var was := Entries();
      assert was + [] == was;
      for line := 0 to |file.lines|
        invariant Valid() && !stopped
        invariant Entries() == LastN(ring.Length, was + Loaded(parse, file.lines[..line]))
      {
        var host := parse(file.lines[line]);
        assert file.lines[..line + 1][..line] == file.lines[..line];
        if host.port != 0 {
          PushIsLastN(ring.Length, was, Loaded(parse, file.lines[..line]), ToAddress(host));
          PushBack(ToAddress(host));
        }
      }
      assert file.lines[..|file.lines|] == file.lines;
      ec := Success;
    }

    method Stop(print_: Authority -> string, writable: bool) returns (ec: Code, file: P.File)
      requires Valid()
      modifies this`stopped, this`len
      ensures Valid()
      ensures (Abs(), ec, file) == P.Stop(old(Abs()), print_, writable)
    {
      if disabled {
        return Success, P.Bad;
      }
      if stopped {
        return Success, P.Bad;
      }
      stopped := true;
      if !writable {
        return FileSystem, P.Bad;
      }
      var lines := [];
      for i := 0 to len
        invariant Valid() && stopped && Entries() == old(Entries())
        invariant lines == Saved(print_, Entries()[..i])
      {
        var a := At(i);
        lines := lines + [print_(ToAuthority(a))];
      }
      assert Entries()[..len] == old(Entries());
      ec, file := Success, P.Lines(lines);
      len := 0;
    }

    method Remove(host: Address) returns (ec: Code)
      requires Valid()
      modifies this`len, ring
      ensures Valid()
      ensures (Abs(), ec) == P.Remove(old(Abs()), host)
    {
      if disabled {
        return NotFound;
      }
      if stopped {
        return ServiceStopped;
      }
      var i := Find(host);
      if i < len {
        Erase(i);
        return Success;
      }
      ec := NotFound;
    }

    method StoreOne(host: Address) returns (ec: Code)
      requires Valid()
      modifies this`first, this`len, ring
      ensures Valid()
      ensures (Abs(), ec) == P.StoreOne(old(Abs()), valid, host)
    {
      if disabled || !valid(host) {
        return Success;
      }
      if stopped {
        return ServiceStopped;
      }
      var i := Find(host);
      if i == len {
        PushBack(host);
      }
      ec := Success;
    }

    /** How many addresses of a batch to look at, and in what strides. */
    method Pace(count: nat, random: nat) returns (usable: nat, step: nat)
      requires Valid() && count > 0 && 1 <= random <= Usable(ring.Length, count)
      ensures usable == Usable(ring.Length, count)
      ensures step == Stride(usable, Accept(ring.Length, len, random))
    {
      usable := Min(count, ring.Length);
      var gap := ring.Length - len;
      var accept := Max(gap, random);
      step := Max(usable / accept, 1);
    }

    /** One turn of the batch loop: the pool, holding the newest of `was` and what
        the batch accepted so far, takes the host if it is valid and not there. */
    method Consider(host: Address, ghost was: seq<Address>, ghost sample: seq<Address>)
      requires Valid() && !disabled
      requires Entries() == LastN(ring.Length, was + Admit(ring.Length, valid, was, sample))
      modifies this`first, this`len, ring
      ensures Valid()
      ensures Entries() == LastN(ring.Length, was + Admit(ring.Length, valid, was, sample + [host]))
    {
      assert (sample + [host])[..|sample|] == sample;
      if valid(host) {
        var i := Find(host);
        if i == len {
          PushIsLastN(ring.Length, was, Admit(ring.Length, valid, was, sample), host);
          PushBack(host);
        }
      }
    }

    /** The batch loop: every `step`-th of the first `usable` hosts, in order. */
    method Admitting(hosts: seq<Address>, usable: nat, step: nat)
      requires Valid() && !disabled
      requires 1 <= step && usable <= |hosts| && usable <= ring.Length
      modifies this`first, this`len, ring
      ensures Valid()
      ensures Entries() == LastN(ring.Length, old(Entries()) +
                Admit(ring.Length, valid, old(Entries()), Sample(hosts, step, Examined(usable, step))))
    {
      ghost var was := Entries();
      ghost var k := 0;
      assert was + [] == was;
      var index := 0;
      while index < usable
        invariant Valid() && index <= MAX_SIZE
        invariant index < usable ==> index == k * step
        invariant usable <= index ==> usable <= k * step < usable + step
        invariant Entries() == LastN(ring.Length, was + Admit(ring.Length, valid, was, Sample(hosts, step, k)))
        decreases MAX_SIZE - index
      {
        Consider(hosts[index], was, Sample(hosts, step, k));
        SampleNext(hosts, step, k, index);
        StrideAdvance(k, step, usable);
        k := k + 1;
        index := CeilingAdd(index, step);
      }
      ExaminedUnique(usable, step, k);
    }

    /** `random` is the draw from [1, usable]. */
    method StoreMany(hosts: seq<Address>, random: nat) returns (ec: Code)
      requires Valid()
      requires hosts != [] ==> P.Drawable(Abs(), hosts, random)
      modifies this`first, this`len, ring
      ensures Valid()
      ensures (Abs(), ec) == P.StoreMany(old(Abs()), valid, hosts, random)
    {
      if disabled || hosts == [] {
        return Success;
      }
      if stopped {
        return ServiceStopped;
      }
      var usable, step := Pace(|hosts|, random);
      Admitting(hosts, usable, step);
      ec := Success;
    }
  }
}
