/** The packed hash table: choosing its size, laying variable-length elements
    end to end in buckets, and walking them by alignment arithmetic. */
module NgxHash {
  import opened Options
  import opened NgxWildcard
  import opened NgxNames

  const PTR := 8
  const USHORT := 0x1_0000

  /** A key to be stored; keys without data are skipped. */
  datatype HashKey<V> = HashKey(name: string, hash: nat, value: V, skip: bool)

  /** ngx_align, for a power of two. */
  function Align(d: nat, a: nat): (r: nat)
    requires a > 0
    ensures d <= r < d + a
  {
    if d % a == 0 then d else d + a - d % a
  }

  /** NGX_HASH_ELT_SIZE: a value pointer, a two-byte length and the name. */
  function EltSize(len: nat): (n: nat)
    ensures n % PTR == 0 && n >= 2 * PTR && n >= PTR + 2 + len
  {
    PTR + Align(len + 2, PTR)
  }

  /** The step by which ngx_hash_find goes from one element to the next. */
  lemma NextElement(addr: nat, len: nat)
    requires addr % PTR == 0
    ensures Align(addr + PTR + 2 + len, PTR) == addr + EltSize(len)
  {
    var k := addr / PTR + 1;
    assert addr + PTR == k * PTR;
    AlignShifted(k, len + 2);
  }

  lemma AlignShifted(k: nat, d: nat)
    ensures Align(k * PTR + d, PTR) == k * PTR + Align(d, PTR)
  {
    var q, r := d / PTR, d % PTR;
    assert k * PTR + d == PTR * (k + q) + r;
  }

  predicate InBucket<V>(k: HashKey<V>, size: nat, b: nat)
    requires size > 0
  {
    !k.skip && k.hash % size == b
  }

  /** Bytes that the keys need in bucket b, without the terminator. */
  function Bytes<V>(names: seq<HashKey<V>>, size: nat, b: nat): (n: nat)
    requires size > 0
    ensures n % PTR == 0
  {
    if names == [] then 0
    else
      var last := names[|names| - 1];
      var before := Bytes(names[..|names| - 1], size, b);
      AddAligned(before, EltSize(|last.name|));
      before + if InBucket(last, size, b) then EltSize(|last.name|) else 0
  }

  lemma AddAligned(a: nat, b: nat)
    requires a % PTR == 0 && b % PTR == 0
    ensures (a + b) % PTR == 0
  {
    assert a + b == PTR * (a / PTR + b / PTR);
  }

  /** All buckets of a table of this size fit. */
  ghost predicate Fits<V>(names: seq<HashKey<V>>, size: nat, bucketSize: nat)
    requires size > 0
  {
    forall b :: 0 <= b < size ==> Bytes(names, size, b) <= bucketSize
  }

  /** What the n-th key adds to bucket b. */
  ghost predicate Grown<V>(names: seq<HashKey<V>>, n: nat, size: nat, b: nat)
    requires n < |names| && size > 0
  {
    Bytes(names[..n + 1], size, b) ==
    Bytes(names[..n], size, b) + if InBucket(names[n], size, b) then EltSize(|names[n].name|) else 0
  }

  lemma BytesStep<V>(names: seq<HashKey<V>>, n: nat, size: nat, b: nat)
    requires n < |names| && size > 0
    ensures Grown(names, n, size, b)
  {
    assert names[..n + 1][..n] == names[..n];
  }

  lemma {:induction false} BytesGrow<V>(names: seq<HashKey<V>>, n: nat, size: nat, b: nat)
    requires n <= |names| && size > 0
    ensures Bytes(names[..n], size, b) <= Bytes(names, size, b)
    decreases |names| - n
  {
    if n < |names| {
      BytesStep(names, n, size, b);
      BytesGrow(names, n + 1, size, b);
    } else {
      assert names[..n] == names;
    }
  }

  // ------------------------------------------------------------- size search

  /** The u_short counter of bucket b after all keys. */
  function Counter<V>(names: seq<HashKey<V>>, size: nat, b: nat): (n: nat)
    requires size > 0
    ensures n < USHORT
  {
    if names == [] then 0
    else
      var last := names[|names| - 1];
      var n := Counter(names[..|names| - 1], size, b);
      if InBucket(last, size, b) then (n + EltSize(|last.name|)) % USHORT else n
  }

  /** No counter ever exceeds the limit. */
  ghost predicate Passes<V>(names: seq<HashKey<V>>, size: nat, limit: nat)
    requires size > 0
  {
    forall n, b :: 0 <= n <= |names| && 0 <= b < size ==> Counter(names[..n], size, b) <= limit
  }

  /** One round of the search: the size is taken when no counter exceeds the
      bucket size, both cut to 16 bits. */
  method TrySize<V>(names: seq<HashKey<V>>, size: nat, bucketSize: nat) returns (ok: bool)
    requires 0 < size
    ensures ok <==> Passes(names, size, bucketSize % USHORT)
  {
    hide EltSize, Align, InBucket, Counter;
    var test := new nat[size](_ => 0);
    var n := 0;
    forall b | 0 <= b < size ensures test[b] == Counter(names[..0], size, b) { NoCounter(names, size, b); }
    while n < |names|
      invariant n <= |names|
      invariant forall b :: 0 <= b < size ==> test[b] == Counter(names[..n], size, b)
      invariant forall m, b :: 0 <= m <= n && 0 <= b < size ==> Counter(names[..m], size, b) <= bucketSize % USHORT
    {
      OneBucket(names[n], size);
      if !names[n].skip {
        var key := names[n].hash % size;
        CounterStep(names, n, size, key);
        test[key] := (test[key] + EltSize(|names[n].name|)) % USHORT;
        if test[key] > bucketSize % USHORT {
          assert Counter(names[..n + 1], size, key) > bucketSize % USHORT;
          return false;
        }
      }
      forall b | 0 <= b < size
        ensures test[b] == Counter(names[..n + 1], size, b) <= bucketSize % USHORT
      {
        CounterStep(names, n, size, b);
        assert Counter(names[..n], size, b) <= bucketSize % USHORT;
      }
      n := n + 1;
    }
    ok := true;
  }

  lemma NoCounter<V>(names: seq<HashKey<V>>, size: nat, b: nat)
    requires size > 0
    ensures Counter(names[..0], size, b) == 0
  {
  }

  lemma CounterStep<V>(names: seq<HashKey<V>>, n: nat, size: nat, b: nat)
    requires size > 0 && n < |names|
    ensures Counter(names[..n + 1], size, b) ==
            if InBucket(names[n], size, b) then (Counter(names[..n], size, b) + EltSize(|names[n].name|)) % USHORT
            else Counter(names[..n], size, b)
  {
    hide EltSize, InBucket;
    assert names[..n + 1][..n] == names[..n];
  }

  /** No element takes a counter that is within the limit around the corner. */
  predicate NoWrap<V>(names: seq<HashKey<V>>, bucketSize: nat)
  {
    bucketSize < USHORT && forall n :: 0 <= n < |names| ==> bucketSize + EltSize(|names[n].name|) < USHORT
  }

  lemma {:induction false} CounterIsBytes<V>(names: seq<HashKey<V>>, n: nat, size: nat, b: nat, bucketSize: nat)
    requires size > 0 && n <= |names| && NoWrap(names, bucketSize) && b < size
    requires forall m :: 0 <= m < n ==>
      Counter(names[..m], size, b) <= bucketSize || Bytes(names[..m], size, b) <= bucketSize
    ensures Counter(names[..n], size, b) == Bytes(names[..n], size, b)
  {
    hide EltSize, Align, InBucket, Counter, Bytes;
    if n == 0 {
      NoCounter(names, size, b);
      NoBytes(names, size, b);
    } else {
      CounterIsBytes(names, n - 1, size, b, bucketSize);
      CounterStep(names, n - 1, size, b);
      BytesStep(names, n - 1, size, b);
      assert Counter(names[..n - 1], size, b) <= bucketSize;
      SmallSum(Counter(names[..n - 1], size, b), EltSize(|names[n - 1].name|));
    }
  }

  /** Where no counter can wrap around, a size passes exactly when every bucket
      fits. */
  lemma PassesExactly<V>(names: seq<HashKey<V>>, size: nat, bucketSize: nat)
    requires size > 0 && NoWrap(names, bucketSize)
    ensures Passes(names, size, bucketSize % USHORT) <==> Fits(names, size, bucketSize)
  {
    hide EltSize, Align, InBucket, Counter, Bytes, NoWrap;
    Uncut(names, bucketSize);
    assert names[..|names|] == names;
    if Passes(names, size, bucketSize) {
      forall b | 0 <= b < size ensures Bytes(names, size, b) <= bucketSize {
        CounterIsBytes(names, |names|, size, b, bucketSize);
        assert Counter(names[..|names|], size, b) <= bucketSize;
      }
    }
    if Fits(names, size, bucketSize) {
      forall n, b | 0 <= n <= |names| && 0 <= b < size ensures Counter(names[..n], size, b) <= bucketSize {
        forall m | 0 <= m <= n ensures Bytes(names[..m], size, b) <= bucketSize { BytesGrow(names, m, size, b); }
        CounterIsBytes(names, n, size, b, bucketSize);
      }
    }
  }

  lemma Uncut<V>(names: seq<HashKey<V>>, bucketSize: nat)
    requires NoWrap(names, bucketSize)
    ensures bucketSize % USHORT == bucketSize
  {
  }

  /** Where it can, the search goes wrong: two keys of one bucket that are
      together too large for the counter pass, and do not fit. */
  lemma WrapAround<V>(k: HashKey<V>, l: HashKey<V>, size: nat, bucketSize: nat)
    requires size > 0 && !k.skip && !l.skip && k.hash % size == l.hash % size && bucketSize < USHORT
    requires EltSize(|k.name|) <= bucketSize && EltSize(|l.name|) <= bucketSize
    requires EltSize(|k.name|) + EltSize(|l.name|) >= USHORT
    ensures Passes([k, l], size, bucketSize % USHORT) && !Fits([k, l], size, bucketSize)
  {
    hide EltSize;
    hide InBucket, Counter, Bytes;
    var names, b := [k, l], k.hash % size;
    assert names[..0] == [] && names[..1] == [k] && names[..2] == names;
    OneBucket(k, size);
    OneBucket(l, size);
    forall n, c | 0 <= n <= |names| && 0 <= c < size ensures Counter(names[..n], size, c) <= bucketSize {
      NoCounter(names, size, c);
      CounterStep(names, 0, size, c);
      CounterStep(names, 1, size, c);
    }
    NoBytes(names, size, b);
    BytesStep(names, 0, size, b);
    BytesStep(names, 1, size, b);
  }

  /** The search takes a size exactly when every bucket fits. */
  ghost predicate Searches(names: seq<HashKey<()>>, size: nat, bucketSize: nat)
    requires size > 0
  {
    Passes(names, size, bucketSize % USHORT) <==> Fits(names, size, bucketSize)
  }

  ghost predicate AllFit(names: seq<HashKey<()>>, bucketSize: nat)
  {
    forall n :: 0 <= n < |names| ==> EltSize(|names[n].name|) <= bucketSize
  }

  /** The bucket sizes for which the search is right about every list of keys
      that each fit into a bucket are those below 2^15. */
  lemma LimitExact(bucketSize: nat)
    ensures bucketSize < USHORT / 2 <==>
            forall names, size :: size > 0 && AllFit(names, bucketSize) ==> Searches(names, size, bucketSize)
  {
    hide EltSize, Passes, Fits;
    if bucketSize < USHORT / 2 {
      forall names: seq<HashKey<()>>, size: nat | size > 0 && AllFit(names, bucketSize)
        ensures Searches(names, size, bucketSize)
      {
        PassesExactly(names, size, bucketSize);
      }
    } else {
      var m := if bucketSize % USHORT < USHORT / 2 then 1 else bucketSize / (USHORT / 2) + 1;
      CopiesFail(m, bucketSize);
    }
  }

  /** m keys whose elements take half the range of a counter. */
  ghost function Copies(m: nat): (names: seq<HashKey<()>>)
    ensures |names| == m
  {
    var name: string := seq(USHORT / 2 - 10, _ => 'a');
    seq(m, _ => HashKey(name, 0, (), false))
  }

  lemma {:induction false} CopiesSum(m: nat)
    ensures Counter(Copies(m), 1, 0) == m % 2 * (USHORT / 2) && Bytes(Copies(m), 1, 0) == m * (USHORT / 2)
  {
    hide EltSize, Counter, Bytes;
    var names := Copies(m);
    if m == 0 {
      assert names == names[..0];
      NoCounter(names, 1, 0);
      NoBytes(names, 1, 0);
    } else {
      CopiesSum(m - 1);
      assert names[..m - 1] == Copies(m - 1) && names[..m] == names;
      CounterStep(names, m - 1, 1, 0);
      BytesStep(names, m - 1, 1, 0);
      HalfElement();
      Parity(m);
    }
  }

  lemma Parity(m: nat)
    requires m > 0
    ensures ((m - 1) % 2 * (USHORT / 2) + USHORT / 2) % USHORT == m % 2 * (USHORT / 2)
  {
  }

  lemma HalfElement()
    ensures EltSize(USHORT / 2 - 10) == USHORT / 2
  {
  }

  lemma CopiesFail(m: nat, bucketSize: nat)
    requires bucketSize >= USHORT / 2
    requires if bucketSize % USHORT < USHORT / 2 then m == 1 else m * (USHORT / 2) > bucketSize
    ensures AllFit(Copies(m), bucketSize) && !Searches(Copies(m), 1, bucketSize)
  {
    hide EltSize, Counter, Bytes;
    var names, limit := Copies(m), bucketSize % USHORT;
    HalfElement();
    CopiesSum(m);
    assert names[..m] == names;
    if limit < USHORT / 2 {
      assert Counter(names[..m], 1, 0) > limit;
    } else {
      forall n, b | 0 <= n <= m && 0 <= b < 1 ensures Counter(names[..n], 1, b) <= limit {
        assert names[..n] == Copies(n);
        CopiesSum(n);
      }
    }
  }

  lemma NoBytes<V>(names: seq<HashKey<V>>, size: nat, b: nat)
    requires size > 0
    ensures Bytes(names[..0], size, b) == 0
  {
  }

  lemma SmallSum(a: nat, b: nat)
    requires a + b < USHORT
    ensures (a + b) % USHORT == a + b
  {
  }

  lemma OneBucket<V>(k: HashKey<V>, size: nat)
    requires size > 0
    ensures 0 <= k.hash % size < size
    ensures forall b :: 0 <= b < size ==> (InBucket(k, size, b) <==> !k.skip && b == k.hash % size)
  {
  }

  /** The search of ngx_hash_init: the least size from start on that fits. */
  method FindSize<V>(names: seq<HashKey<V>>, bucketSize: nat, start: nat, maxSize: nat) returns (size: Option<nat>)
    requires 0 < start && NoWrap(names, bucketSize)
    ensures size.Some? ==> start <= size.value <= maxSize && Fits(names, size.value, bucketSize)
    ensures forall s :: start <= s < (if size.Some? then size.value else maxSize + 1) ==> !Fits(names, s, bucketSize)
  {
    hide Fits, Passes, NoWrap;
    var s := start;
    while s <= maxSize
      invariant start <= s
      invariant forall t :: start <= t < s ==> !Fits(names, t, bucketSize)
    {
      var ok := TrySize(names, s, bucketSize);
      PassesExactly(names, s, bucketSize);
      if ok {
        return Some(s);
      }
      s := s + 1;
    }
    size := None;
  }

  // ------------------------------------------------------------------ layout

  predicate CacheLine(c: nat) { c == 32 || c == 64 || c == 128 }

  function Rounded(d: nat, line: nat): (n: nat)
    requires CacheLine(line)
    ensures n % PTR == 0 && n >= d && n == Align(d, line)
  {
    AlignMultiple(d, line);
    PointerMultiple(Align(d, line), line);
    Align(d, line)
  }

  lemma AlignMultiple(d: nat, a: nat)
    requires CacheLine(a)
    ensures Align(d, a) % a == 0
  {
    if a == 32 { } else if a == 64 { } else { }
  }

  lemma PointerMultiple(n: nat, a: nat)
    requires CacheLine(a) && n % a == 0
    ensures n % PTR == 0
  {
    if a == 32 { } else if a == 64 { } else { }
  }

  /** The space given to bucket b: elements, terminator, rounded up. */
  function Room<V>(names: seq<HashKey<V>>, size: nat, line: nat, b: nat): (n: nat)
    requires size > 0 && CacheLine(line)
    ensures n % PTR == 0
    ensures Bytes(names, size, b) > 0 ==> n >= Bytes(names, size, b) + PTR
  {
    var bytes := Bytes(names, size, b);
    if bytes == 0 then 0 else Rounded(bytes + PTR, line)
  }

  function Sum(a: nat, b: nat): (r: nat)
    requires a % PTR == 0 && b % PTR == 0
    ensures r == a + b && r % PTR == 0
  {
    a + b
  }

  /** Where bucket b begins in the block of elements. */
  function Start<V>(names: seq<HashKey<V>>, size: nat, line: nat, b: nat): (n: nat)
    requires size > 0 && CacheLine(line)
    ensures n % PTR == 0
  {
    if b == 0 then 0 else Sum(Start(names, size, line, b - 1), Room(names, size, line, b - 1))
  }

  /** Where the n-th key is stored. */
  function Addr<V>(names: seq<HashKey<V>>, size: nat, line: nat, n: nat): (a: nat)
    requires size > 0 && CacheLine(line) && n < |names|
    ensures a % PTR == 0
  {
    var b := names[n].hash % size;
    Sum(Start(names, size, line, b), Bytes(names[..n], size, b))
  }

  /** Where the null value that ends bucket b is stored. */
  function EndOf<V>(names: seq<HashKey<V>>, size: nat, line: nat, b: nat): (a: nat)
    requires size > 0 && CacheLine(line)
  {
    Start(names, size, line, b) + Bytes(names, size, b)
  }

  lemma {:induction false} StartGrows<V>(names: seq<HashKey<V>>, size: nat, line: nat, b: nat, c: nat)
    requires size > 0 && CacheLine(line) && b < c
    ensures Start(names, size, line, b) + Room(names, size, line, b) <= Start(names, size, line, c)
  {
    hide Room, Bytes;
    if b + 1 < c { StartGrows(names, size, line, b, c - 1); }
  }

  /** An element lies inside its bucket, before the bucket's terminator. */
  lemma InsideBucket<V>(names: seq<HashKey<V>>, size: nat, line: nat, n: nat)
    requires size > 0 && CacheLine(line) && n < |names| && !names[n].skip
    ensures var b := names[n].hash % size;
            && Start(names, size, line, b) <= Addr(names, size, line, n)
            && Addr(names, size, line, n) + EltSize(|names[n].name|) <= EndOf(names, size, line, b)
            && EndOf(names, size, line, b) + PTR <= Start(names, size, line, b) + Room(names, size, line, b)
  {
    hide EltSize, Align;
    var b := names[n].hash % size;
    BytesStep(names, n, size, b);
    BytesGrow(names, n + 1, size, b);
  }

  /** Two elements never overlap. */
  lemma ElementsApart<V>(names: seq<HashKey<V>>, size: nat, line: nat, n: nat, m: nat)
    requires size > 0 && CacheLine(line) && n < m < |names| && !names[n].skip && !names[m].skip
    ensures var p, q := Addr(names, size, line, n), Addr(names, size, line, m);
            p + EltSize(|names[n].name|) <= q || q + EltSize(|names[m].name|) <= p
  {
    hide EltSize, Align, Room, Start, Bytes;
    var b, c := names[n].hash % size, names[m].hash % size;
    InsideBucket(names, size, line, n);
    InsideBucket(names, size, line, m);
    if b < c {
      StartGrows(names, size, line, b, c);
    } else if c < b {
      StartGrows(names, size, line, c, b);
    } else {
      BytesStep(names, n, size, b);
      assert names[..m][..n + 1] == names[..n + 1];
      BytesGrow(names[..m], n + 1, size, b);
    }
  }

  /** An element never overlaps the terminator of any bucket. */
  lemma TerminatorApart<V>(names: seq<HashKey<V>>, size: nat, line: nat, n: nat, c: nat)
    requires size > 0 && CacheLine(line) && n < |names| && !names[n].skip && Bytes(names, size, c) > 0
    ensures var p, e := Addr(names, size, line, n), EndOf(names, size, line, c);
            p + EltSize(|names[n].name|) <= e || e + PTR <= p
  {
    hide EltSize, Align, Start, Bytes;
    var b := names[n].hash % size;
    InsideBucket(names, size, line, n);
    hide Room;
    if b < c { StartGrows(names, size, line, b, c); } else if c < b { StartGrows(names, size, line, c, b); }
  }

  // ------------------------------------------------------------------ memory

  function PutChars(chars: map<nat, char>, at: nat, name: string): (r: map<nat, char>)
    ensures forall x :: at <= x < at + |name| ==> x in r && r[x] == name[x - at]
    ensures forall x :: x in chars && !(at <= x < at + |name|) ==> x in r && r[x] == chars[x]
    decreases |name|
  {
    if name == [] then chars
    else
      var rest := PutChars(chars, at + 1, name[1..]);
      rest[at := name[0]]
  }

  /** The block of elements: value pointers, lengths and name characters by
      their addresses. */
  datatype Mem<V> = Mem(vals: map<nat, Option<V>>, lens: map<nat, nat>, chars: map<nat, char>)
  {
    /** Store an element at address a. */
    function Put(a: nat, name: string, value: V): Mem<V>
    {
      Mem(vals[a := Some(value)], lens[a := |name|], PutChars(chars, a + PTR + 2, name))
    }

    function PutNull(a: nat): Mem<V> { this.(vals := vals[a := None]) }
  }

  datatype Table<V> = Table(size: nat, buckets: seq<Option<nat>>, mem: Mem<V>)

  ghost predicate Holds<V>(mem: Mem<V>, a: nat, name: string, value: V)
  {
    && a in mem.vals && mem.vals[a] == Some(value)
    && a in mem.lens && mem.lens[a] == |name|
    && (forall x :: a + PTR + 2 <= x < a + PTR + 2 + |name| ==>
          x in mem.chars && mem.chars[x] == name[x - (a + PTR + 2)])
  }

  /** Every key is stored where it belongs. */
  ghost predicate Stored<V>(mem: Mem<V>, names: seq<HashKey<V>>, size: nat, line: nat, upTo: nat)
    requires size > 0 && CacheLine(line) && upTo <= |names|
  {
    forall n :: 0 <= n < upTo && !names[n].skip ==>
      Holds(mem, Addr(names, size, line, n), Lower(names[n].name), names[n].value)
  }

  /** Every used bucket ends in a null value. */
  ghost predicate Ended<V>(mem: Mem<V>, names: seq<HashKey<V>>, size: nat, line: nat, upTo: nat)
    requires size > 0 && CacheLine(line)
  {
    forall b :: 0 <= b < upTo && Bytes(names, size, b) > 0 ==>
      EndOf(names, size, line, b) in mem.vals && mem.vals[EndOf(names, size, line, b)] == None
  }

  /** What a table must look like for lookups. */
  ghost predicate Built<V>(t: Table<V>, names: seq<HashKey<V>>, line: nat)
  {
    && t.size > 0 && CacheLine(line) && |t.buckets| == t.size
    && (forall b :: 0 <= b < t.size ==>
          t.buckets[b] == if Bytes(names, t.size, b) == 0 then None else Some(Start(names, t.size, line, b)))
    && Stored(t.mem, names, t.size, line, |names|) && Ended(t.mem, names, t.size, line, t.size)
  }

  lemma HoldsKept<V>(mem: Mem<V>, a: nat, name: string, value: V, a': nat, name': string, value': V)
    requires Holds(mem, a, name, value)
    requires a + EltSize(|name|) <= a' || a' + EltSize(|name'|) <= a
    ensures Holds(mem.Put(a', name', value'), a, name, value)
  {
    hide Align;
  }

  lemma HoldsNew<V>(mem: Mem<V>, a: nat, name: string, value: V)
    ensures Holds(mem.Put(a, name, value), a, name, value)
  {
  }

  lemma StoreNext<V>(mem: Mem<V>, names: seq<HashKey<V>>, size: nat, line: nat, m: nat)
    requires size > 0 && CacheLine(line) && m < |names| && !names[m].skip && Stored(mem, names, size, line, m)
    ensures Stored(mem.Put(Addr(names, size, line, m), Lower(names[m].name), names[m].value), names, size, line, m + 1)
  {
    hide EltSize, Addr, Holds;
    var a, name := Addr(names, size, line, m), Lower(names[m].name);
    HoldsNew(mem, a, name, names[m].value);
    forall n | 0 <= n < m && !names[n].skip
      ensures Holds(mem.Put(a, name, names[m].value), Addr(names, size, line, n), Lower(names[n].name), names[n].value)
    {
      ElementsApart(names, size, line, n, m);
      HoldsKept(mem, Addr(names, size, line, n), Lower(names[n].name), names[n].value, a, name, names[m].value);
    }
  }

  lemma EndNext<V>(mem: Mem<V>, names: seq<HashKey<V>>, size: nat, line: nat, b: nat)
    requires size > 0 && CacheLine(line) && Bytes(names, size, b) > 0
    requires Stored(mem, names, size, line, |names|)
    ensures Stored(mem.PutNull(EndOf(names, size, line, b)), names, size, line, |names|)
  {
    hide Addr, EndOf, Bytes;
    forall n | 0 <= n < |names| && !names[n].skip
      ensures Holds(mem.PutNull(EndOf(names, size, line, b)), Addr(names, size, line, n), Lower(names[n].name),
                    names[n].value)
    {
      TerminatorApart(names, size, line, n, b);
    }
  }

  /** The second half of ngx_hash_init: lay out the buckets and fill them. */
  method Place<V>(names: seq<HashKey<V>>, size: nat, bucketSize: nat, line: nat) returns (t: Table<V>)
    requires size > 0 && CacheLine(line) && bucketSize + PTR + line <= USHORT && Fits(names, size, bucketSize)
    ensures Built(t, names, line) && t.size == size
  {
    hide EltSize, Align, Bytes, Room, Start, InBucket, Stored, Ended;
    var test := new nat[size](_ => PTR);
    var n := 0;
    forall b | 0 <= b < size ensures test[b] == PTR + Bytes(names[..0], size, b) { NoBytes(names, size, b); }
    while n < |names|
      invariant n <= |names|
      invariant forall b :: 0 <= b < size ==> test[b] == PTR + Bytes(names[..n], size, b)
    {
      OneBucket(names[n], size);
      if !names[n].skip {
        var key := names[n].hash % size;
        Counted(names, n, size, bucketSize, key);
        test[key] := (test[key] + EltSize(|names[n].name|)) % USHORT;
      }
      forall b | 0 <= b < size ensures test[b] == PTR + Bytes(names[..n + 1], size, b) {
        BytesStep(names, n, size, b);
      }
      n := n + 1;
    }
    assert names[..n] == names;

    var i := 0;
    var elts := 0;
    var buckets: seq<Option<nat>> := [];
    StartZero(names, size, line);
    while i < size
      invariant i <= size && |buckets| == i && elts == Start(names, size, line, i)
      invariant forall b :: i <= b < size ==> test[b] == PTR + Bytes(names, size, b)
      invariant forall b :: 0 <= b < i ==>
        buckets[b] == if Bytes(names, size, b) == 0 then None else Some(Start(names, size, line, b))
    {
      RoomAt(names, size, line, bucketSize, i);
      if test[i] == PTR {
        buckets := buckets + [None];
      } else {
        test[i] := Align(test[i], line) % USHORT;
        buckets := buckets + [Some(elts)];
        elts := elts + test[i];
      }
      i := i + 1;
    }
    var mem := Fill(names, size, bucketSize, line, buckets);
    t := Table(size, buckets, mem);
  }

  /** Adding a key to its bucket's counter does not wrap around. */
  lemma Counted<V>(names: seq<HashKey<V>>, n: nat, size: nat, bucketSize: nat, key: nat)
    requires size > 0 && bucketSize + PTR < USHORT && Fits(names, size, bucketSize) && n < |names|
    requires key < size && InBucket(names[n], size, key)
    ensures Grown(names, n, size, key)
    ensures Bytes(names[..n + 1], size, key) % USHORT == Bytes(names[..n + 1], size, key)
    ensures (PTR + Bytes(names[..n + 1], size, key)) % USHORT == PTR + Bytes(names[..n + 1], size, key)
  {
    hide EltSize, Align, Bytes, InBucket;
    BytesStep(names, n, size, key);
    BytesGrow(names, n + 1, size, key);
    SmallSum(Bytes(names[..n + 1], size, key), 0);
    SmallSum(PTR, Bytes(names[..n + 1], size, key));
  }

  lemma StartZero<V>(names: seq<HashKey<V>>, size: nat, line: nat)
    requires size > 0 && CacheLine(line)
    ensures Start(names, size, line, 0) == 0
  {
  }

  lemma RoomAt<V>(names: seq<HashKey<V>>, size: nat, line: nat, bucketSize: nat, b: nat)
    requires size > 0 && CacheLine(line) && bucketSize + PTR + line <= USHORT
    requires Fits(names, size, bucketSize) && b < size
    ensures Start(names, size, line, b + 1) == Start(names, size, line, b) + Room(names, size, line, b)
    ensures Bytes(names, size, b) == 0 ==> Room(names, size, line, b) == 0
    ensures Bytes(names, size, b) > 0 ==>
      Align(PTR + Bytes(names, size, b), line) % USHORT == Room(names, size, line, b)
  {
    hide Bytes, Align;
    var r := Room(names, size, line, b);
    assert Bytes(names, size, b) > 0 ==> r < USHORT;
  }

  /** Copies the keys into their buckets and ends every bucket. */
  method Fill<V>(names: seq<HashKey<V>>, size: nat, bucketSize: nat, line: nat, buckets: seq<Option<nat>>)
    returns (mem: Mem<V>)
    requires size > 0 && CacheLine(line) && bucketSize + PTR < USHORT && Fits(names, size, bucketSize)
    requires |buckets| == size && forall b :: 0 <= b < size ==>
      buckets[b] == if Bytes(names, size, b) == 0 then None else Some(Start(names, size, line, b))
    ensures Stored(mem, names, size, line, |names|) && Ended(mem, names, size, line, size)
  {
    hide EltSize, Align, Bytes, Room, Start, InBucket, Stored, Ended;
    mem := Mem(map[], map[], map[]);
    var test := new nat[size](_ => 0);
    var n := 0;
    forall b | 0 <= b < size ensures test[b] == Bytes(names[..0], size, b) { NoBytes(names, size, b); }
    NothingStored(mem, names, size, line);
    while n < |names|
      invariant n <= |names| && Stored(mem, names, size, line, n)
      invariant forall b :: 0 <= b < size ==> test[b] == Bytes(names[..n], size, b)
    {
      OneBucket(names[n], size);
      if names[n].skip {
        SkipStored(mem, names, size, line, n);
      } else {
        var key := names[n].hash % size;
        HasBytes(names, n, size);
        Counted(names, n, size, bucketSize, key);
        var elt := buckets[key].value + test[key];
        StoreNext(mem, names, size, line, n);
        mem := mem.Put(elt, Lower(names[n].name), names[n].value);
        test[key] := (test[key] + EltSize(|names[n].name|)) % USHORT;
      }
      forall b | 0 <= b < size ensures test[b] == Bytes(names[..n + 1], size, b) { BytesStep(names, n, size, b); }
      n := n + 1;
    }
    assert names[..n] == names;
    mem := Terminate(mem, names, size, line, buckets, test);
  }

  /** Puts a null value behind the last element of every used bucket. */
  method Terminate<V>(mem0: Mem<V>, ghost names: seq<HashKey<V>>, size: nat, ghost line: nat,
                      buckets: seq<Option<nat>>, test: array<nat>) returns (mem: Mem<V>)
    requires size > 0 && CacheLine(line) && Stored(mem0, names, size, line, |names|) && test.Length == size
    requires |buckets| == size && forall b :: 0 <= b < size ==>
      buckets[b] == if Bytes(names, size, b) == 0 then None else Some(Start(names, size, line, b))
    requires forall b :: 0 <= b < size ==> test[b] == Bytes(names, size, b)
    ensures Stored(mem, names, size, line, |names|) && Ended(mem, names, size, line, size)
  {
    hide Bytes, Start, Stored;
    mem := mem0;
    var i := 0;
    while i < size
      invariant i <= size && Stored(mem, names, size, line, |names|) && Ended(mem, names, size, line, i)
    {
      if buckets[i].Some? {
        EndNext(mem, names, size, line, i);
        EndsKept(mem, names, size, line, i);
        mem := mem.PutNull(buckets[i].value + test[i]);
      }
      i := i + 1;
    }
  }

  lemma NothingStored<V>(mem: Mem<V>, names: seq<HashKey<V>>, size: nat, line: nat)
    requires size > 0 && CacheLine(line)
    ensures Stored(mem, names, size, line, 0)
  {
  }

  lemma SkipStored<V>(mem: Mem<V>, names: seq<HashKey<V>>, size: nat, line: nat, n: nat)
    requires size > 0 && CacheLine(line) && n < |names| && names[n].skip && Stored(mem, names, size, line, n)
    ensures Stored(mem, names, size, line, n + 1)
  {
    hide Addr, Holds;
  }

  lemma HasBytes<V>(names: seq<HashKey<V>>, n: nat, size: nat)
    requires size > 0 && n < |names| && !names[n].skip
    ensures Bytes(names, size, names[n].hash % size) > 0
  {
    hide Align, Bytes;
    BytesStep(names, n, size, names[n].hash % size);
    BytesGrow(names, n + 1, size, names[n].hash % size);
  }

  lemma EndsKept<V>(mem: Mem<V>, names: seq<HashKey<V>>, size: nat, line: nat, b: nat)
    requires size > 0 && CacheLine(line) && Ended(mem, names, size, line, b)
    ensures Ended(mem.PutNull(EndOf(names, size, line, b)), names, size, line, b + 1)
  {
    hide Bytes, Start;
  }

  // ---------------------------------------------------------- ngx_hash_init

  datatype InitResult<V> = TooSmall | NotFound | Done(table: Table<V>)

  /** The size at which the search starts. */
  function FirstSize(nelts: nat, bucketSize: nat, maxSize: nat): (s: nat)
    requires bucketSize >= 2 * PTR
    ensures s > 0
  {
    var s := nelts / (bucketSize / (2 * PTR));
    if maxSize > 10000 && nelts > 0 && maxSize / nelts < 100 then maxSize - 1000 else if s > 0 then s else 1
  }

  /** Room, counters and elements keep within 16 bits, as they do for every
      bucket size below 2^15. */
  predicate Narrow<V>(names: seq<HashKey<V>>, bucket: nat, line: nat)
  {
    && bucket + line <= USHORT
    && forall n :: 0 <= n < |names| && EltSize(|names[n].name|) + PTR <= bucket ==>
         bucket + EltSize(|names[n].name|) < USHORT + PTR
  }

  lemma SmallNarrow<V>(names: seq<HashKey<V>>, bucket: nat, line: nat)
    requires bucket < USHORT / 2 && CacheLine(line)
    ensures Narrow(names, bucket, line)
  {
    hide EltSize;
  }

  /** ngx_hash_init, up to the point where the size search fails. Without keys
      a bucket of less than three pointers makes the code divide by zero. */
  method HashInit<V>(names: seq<HashKey<V>>, bucket: nat, maxSize: nat, line: nat) returns (r: InitResult<V>)
    requires CacheLine(line) && Narrow(names, bucket, line) && (names == [] ==> 3 * PTR <= bucket)
    ensures r.TooSmall? <==> exists n :: 0 <= n < |names| && bucket < EltSize(|names[n].name|) + PTR
    ensures !r.TooSmall? ==> 3 * PTR <= bucket
    ensures !r.TooSmall? && 3 * PTR <= bucket ==>
      var room, end := bucket - PTR, if r.Done? then r.table.size else maxSize + 1;
      var start := FirstSize(|names|, room, maxSize);
      && (forall s :: start <= s < end ==> !Fits(names, s, room))
      && (r.Done? ==> start <= end <= maxSize && Fits(names, end, room) && Built(r.table, names, line))
  {
    hide Fits, Align;
    var n := 0;
    while n < |names|
      invariant n <= |names| && forall i :: 0 <= i < n ==> EltSize(|names[i].name|) + PTR <= bucket
    {
      if bucket < EltSize(|names[n].name|) + PTR {
        return TooSmall;
      }
      n := n + 1;
    }
    assert 3 * PTR <= bucket by { if names != [] { assert EltSize(|names[0].name|) + PTR <= bucket; } }
    hide FirstSize;
    var size := FindSize(names, bucket - PTR, FirstSize(|names|, bucket - PTR, maxSize), maxSize);
    match size {
      case None => r := NotFound;
      case Some(s) =>
        var t := Place(names, s, bucket - PTR, line);
        r := Done(t);
    }
  }

  // ------------------------------------------------------------------ lookup

  /** The first key from n on in bucket b that has this name. */
  function FirstFrom<V>(names: seq<HashKey<V>>, size: nat, b: nat, name: string, n: nat): (r: Option<V>)
    requires size > 0 && n <= |names|
    decreases |names| - n
  {
    if n == |names| then None
    else if InBucket(names[n], size, b) && Lower(names[n].name) == name then Some(names[n].value)
    else FirstFrom(names, size, b, name, n + 1)
  }

  /** The next key of the bucket, if any. */
  lemma {:induction false} NextIn<V>(names: seq<HashKey<V>>, size: nat, b: nat, name: string, n: nat) returns (m: nat)
    requires size > 0 && n <= |names|
    ensures n <= m <= |names| && Bytes(names[..m], size, b) == Bytes(names[..n], size, b)
    ensures m < |names| ==> InBucket(names[m], size, b)
    ensures FirstFrom(names, size, b, name, m) == FirstFrom(names, size, b, name, n)
    decreases |names| - n
  {
    hide Bytes, EltSize;
    if n == |names| || InBucket(names[n], size, b) { return n; }
    BytesStep(names, n, size, b);
    m := NextIn(names, size, b, name, n + 1);
  }

  /** ngx_hash_find: the walk finds what a linear search of the keys finds. */
  method Find<V>(t: Table<V>, key: nat, name: string, ghost names: seq<HashKey<V>>, ghost line: nat)
    returns (r: Option<V>)
    requires Built(t, names, line)
    ensures r == FirstFrom(names, t.size, key % t.size, name, 0)
  {
    hide EltSize, Align, Bytes, Start, InBucket, Room, Stored, Ended;
    var b := key % t.size;
    ghost var n := NextIn(names, t.size, b, name, 0);
    NoBytes(names, t.size, b);
    BucketUsed(names, t.size, b, n);
    if t.buckets[b].None? {
      return None;
    }
    var elt: nat := t.buckets[b].value;
    WalkAt(t, names, line, b, n);
    while t.mem.vals[elt].Some?
      invariant n <= |names| && (n < |names| ==> InBucket(names[n], t.size, b))
      invariant elt == Start(names, t.size, line, b) + Bytes(names[..n], t.size, b) && elt in t.mem.vals
      invariant t.mem.vals[elt].Some? <==> n < |names|
      invariant FirstFrom(names, t.size, b, name, 0) == FirstFrom(names, t.size, b, name, n)
      decreases |names| - n
    {
      StoredAt(t, names, line, b, n);
      var same := SameName(t.mem, elt, name, Lower(names[n].name), names[n].value);
      if same {
        return t.mem.vals[elt];
      }
      var len := t.mem.lens[elt];
      elt := Align(elt + PTR + 2 + len, PTR);
      BytesStep(names, n, t.size, b);
      n := NextIn(names, t.size, b, name, n + 1);
      WalkAt(t, names, line, b, n);
    }
    r := None;
  }

  /** Compares a name with the one stored in an element. */
  method SameName<V>(mem: Mem<V>, a: nat, name: string, ghost stored: string, ghost value: V) returns (same: bool)
    requires Holds(mem, a, stored, value)
    ensures same <==> name == stored
  {
    var len := mem.lens[a];
    if |name| != len {
      return false;
    }
    var i := 0;
    while i < len
      invariant i <= len && forall j :: 0 <= j < i ==> name[j] == stored[j]
    {
      assert stored[i] == mem.chars[a + PTR + 2 + i];
      if name[i] != mem.chars[a + PTR + 2 + i] {
        return false;
      }
      i := i + 1;
    }
    same := true;
  }

  lemma BucketUsed<V>(names: seq<HashKey<V>>, size: nat, b: nat, n: nat)
    requires size > 0 && n <= |names| && (n < |names| ==> InBucket(names[n], size, b))
    requires Bytes(names[..n], size, b) == 0
    ensures Bytes(names, size, b) == 0 <==> n == |names|
  {
    hide Align, Bytes;
    if n < |names| { HasBytes(names, n, size); } else { assert names[..n] == names; }
  }

  /** At the next key's address there is its value, behind the last a null. */
  lemma WalkAt<V>(t: Table<V>, names: seq<HashKey<V>>, line: nat, b: nat, n: nat)
    requires Built(t, names, line) && n <= |names| && (n < |names| ==> InBucket(names[n], t.size, b))
    requires b < t.size && Bytes(names, t.size, b) > 0
    ensures var a := Start(names, t.size, line, b) + Bytes(names[..n], t.size, b);
            a in t.mem.vals && (t.mem.vals[a].Some? <==> n < |names|)
  {
    hide Bytes, Start;
    if n < |names| {
      assert Holds(t.mem, Addr(names, t.size, line, n), Lower(names[n].name), names[n].value);
    } else {
      assert names[..n] == names;
    }
  }

  lemma StoredAt<V>(t: Table<V>, names: seq<HashKey<V>>, line: nat, b: nat, n: nat)
    requires Built(t, names, line) && n < |names| && InBucket(names[n], t.size, b)
    ensures var a := Start(names, t.size, line, b) + Bytes(names[..n], t.size, b);
            && Holds(t.mem, a, Lower(names[n].name), names[n].value)
            && Align(a + PTR + 2 + |names[n].name|, PTR) == a + EltSize(|names[n].name|)
  {
    hide Bytes, Start, EltSize, Align;
    NextElement(Start(names, t.size, line, b) + Bytes(names[..n], t.size, b), |names[n].name|);
  }

  /** With hashes that agree with the names, lookup by name finds the first key
      of that name in the whole list. */
  lemma {:induction false} FirstByName<V>(names: seq<HashKey<V>>, size: nat, hash: string -> nat, name: string, n: nat)
    requires size > 0 && n <= |names|
    requires forall i :: 0 <= i < |names| ==> names[i].hash == hash(Lower(names[i].name))
    ensures FirstFrom(names, size, hash(name) % size, name, n) == FirstFrom(names, 1, 0, name, n)
    decreases |names| - n
  {
    if n < |names| { FirstByName(names, size, hash, name, n + 1); }
  }
}
