/**
 * Growable arrays over the pool (ngx_array.c): an array that ends where the
 * pool's first block is filled to grows in place, any other moves.
 */
module NgxArray {
  import opened Options
  import opened NgxPool

  // The array's bytes of memory and its header are live regions of the pool, and not list headers.
  ghost predicate Mine(live: map<Id, Region>, larges: seq<Large>, id: Id, start: Addr, len: nat)
  {
    id in live && live[id].start == start && live[id].len == len && NotHead(larges, id)
  }

  function Bytes(mem: Addr -> bv8, start: Addr, len: nat): (s: seq<bv8>)
  {
    seq(len, i requires 0 <= i < len => mem(start + i))
  }

  function Copied(mem: Addr -> bv8, to: Addr, from: Addr, len: nat): (m: Addr -> bv8)
  {
    (x: Addr) => if to <= x < to + len then mem(from + (x - to)) else mem(x)
  }

  lemma CopiedBytes(mem: Addr -> bv8, to: Addr, from: Addr, len: nat)
    ensures Bytes(Copied(mem, to, from, len), to, len) == Bytes(mem, from, len)
  {
  }

  lemma CopiedElsewhere(mem: Addr -> bv8, to: Addr, from: Addr, len: nat, start: Addr, n: nat)
    requires Apart(start, n, to, len)
    ensures Bytes(Copied(mem, to, from, len), start, n) == Bytes(mem, start, n)
  {
  }

  // The bytes taken by n elements.
  function Span(size: nat, n: nat): nat
  {
    size * n
  }

  lemma SpanAdd(size: nat, m: nat, n: nat)
    ensures Span(size, m + n) == Span(size, m) + Span(size, n)
  {
  }

  lemma SpanGrows(size: nat, m: nat, n: nat)
    requires size > 0
    ensures m <= n ==> Span(size, m) <= Span(size, n)
    ensures m > 0 ==> Span(size, m) > 0
  {
  }

  class Array {
    const pool: Pool
    const addr: Addr           // where the header lies
    const head: Id             // the header's region
    const size: nat            // of one element
    var elts: Addr
    var nelts: nat
    var nalloc: nat
    var region: Id             // the elements' region

    ghost predicate Valid()
      reads this, pool
    {
      && pool.Holds(None) && size > 0 && nelts <= nalloc && nalloc > 0
      && Mine(pool.live, pool.larges, region, elts, Span(size, nalloc))
      && Mine(pool.live, pool.larges, head, addr, ARRAY_HEAD) && head != region
    }

    // The elements, as bytes.
    ghost function Elements(): seq<bv8>
      reads this, pool
    {
      Bytes(pool.mem, elts, Span(size, nelts))
    }

    constructor (pool: Pool, addr: Addr, head: Id, elts: Addr, region: Id, n: nat, size: nat)
      requires pool.Holds(None) && n > 0 && size > 0 && head != region
      requires Mine(pool.live, pool.larges, region, elts, Span(size, n))
      requires Mine(pool.live, pool.larges, head, addr, ARRAY_HEAD)
      ensures Valid() && Elements() == [] && this.pool == pool && this.size == size && nalloc == n && nelts == 0
      ensures this.head == head && this.region == region
    {
      this.pool, this.addr, this.head, this.size := pool, addr, head, size;
      this.elts, this.nelts, this.nalloc, this.region := elts, 0, n, region;
    }

    // Every region but the array's own is as it was, and so are its bytes.
    twostate predicate OthersKept()
      reads this`region, pool
    {
      && (forall r :: r in old(pool.live) && r != old(region) ==> r in pool.live && pool.live[r] == old(pool.live[r]))
      && (forall r :: r in old(pool.live) ==> var g := old(pool.live[r]);
        Bytes(pool.mem, g.start, g.len) == Bytes(old(pool.mem), g.start, g.len))
    }

    // The array is last in the pool and grows where it is.
    method GrowInPlace(n: nat)
      requires Valid() && pool.blocks != [] && elts + Span(size, nalloc) == pool.blocks[0].last
      requires pool.blocks[0].last + Span(size, n) <= pool.blocks[0].base + pool.psize
      modifies this`nalloc, pool
      ensures Valid() && OthersKept() && Elements() == old(Elements()) && nalloc == old(nalloc) + n
    {
      hide Inv, Bytes, Span;
      SpanAdd(size, nalloc, n);
      pool.Stretch(region, Span(size, n));
      nalloc := nalloc + n;
    }

    // The array moves to a new region, for wanted elements.
    method Move(wanted: nat) returns (ok: bool)
      requires Valid() && wanted >= nelts && wanted > 0
      modifies this`elts, this`nalloc, this`region, pool
      ensures Valid() && OthersKept() && Elements() == old(Elements())
      ensures ok ==> nalloc == wanted && region !in old(pool.live)
      ensures !ok ==> elts == old(elts) && nalloc == old(nalloc) && region == old(region)
    {
      hide Inv, Bytes, Span, Copied;
      SpanGrows(size, wanted, wanted);
      SpanGrows(size, nelts, wanted);
      var p, id := pool.Alloc(Span(size, wanted), true);
      if p.None? {
        return false;
      }
      var used := Span(size, nelts);
      CopiedBytes(pool.mem, p.value, elts, used);
      ghost var s, m := pool.Now(None), pool.mem;
      pool.mem := Copied(pool.mem, p.value, elts, used);
      forall r | r in old(pool.live)
        ensures var g := old(pool.live[r]);
          Bytes(pool.mem, g.start, g.len) == Bytes(old(pool.mem), g.start, g.len)
      {
        var g := old(pool.live[r]);
        LiveApart(s, pool.psize, r, id);
        CopiedElsewhere(m, p.value, elts, used, g.start, g.len);
      }
      elts, region, nalloc := p.value, id, wanted;
      ok := true;
    }

    // Room for n more elements: in place, if the array is last in the pool and
    // they fit, else in a new region for wanted elements.
    method Grow(n: nat, wanted: nat) returns (ok: bool)
      requires Valid() && n > 0 && wanted >= nelts + n && nalloc < nelts + n
      modifies this`elts, this`nalloc, this`region, pool
      ensures Valid() && OthersKept() && Elements() == old(Elements())
      ensures ok ==> nalloc >= nelts + n
      ensures ok && region == old(region) ==> elts == old(elts) && nalloc == old(nalloc) + n
      ensures ok && region != old(region) ==> nalloc == wanted && region !in old(pool.live)
      ensures !ok ==> elts == old(elts) && nalloc == old(nalloc) && region == old(region)
    {
      hide Inv, Bytes, Span, Array.OthersKept;
      pool.HasBlock();
      var first := pool.blocks[0];
      if elts + Span(size, nalloc) == first.last && first.last + Span(size, n) <= first.base + pool.psize {
        GrowInPlace(n);
        return true;
      }
      ok := Move(wanted);
    }

    /**
     * ngx_array_push_n: the address of n new elements.  The elements there
     * were keep their bytes, wherever the array now lies, and no other region
     * of the pool is touched.
     */
    method PushN(n: nat) returns (p: Option<Addr>)
      requires Valid()
      modifies this`elts, this`nalloc, this`region, this`nelts, pool
      ensures Valid() && OthersKept()
      ensures p.Some? ==> nelts == old(nelts) + n && p.value == elts + Span(size, old(nelts))
      ensures p.Some? ==> Elements() == old(Elements()) + Bytes(pool.mem, p.value, Span(size, n))
      ensures p.None? ==> nelts == old(nelts) && Elements() == old(Elements())
    {
      hide Inv, Span, Array.OthersKept, Bytes;
      if nelts + n > nalloc {
        var ok := Grow(n, 2 * (if n >= nalloc then n else nalloc));
        if !ok {
          return None;
        }
      } else {
        NothingChanged();
      }
      p := Some(elts + Span(size, nelts));
      SpanAdd(size, nelts, n);
      BytesSplit(pool.mem, elts, Span(size, nelts), Span(size, n));
      nelts := nelts + n;
    }

    // ngx_array_push: a full array makes room for one more or doubles.
    method Push() returns (p: Option<Addr>)
      requires Valid()
      modifies this`elts, this`nalloc, this`region, this`nelts, pool
      ensures Valid() && OthersKept()
      ensures p.Some? ==> nelts == old(nelts) + 1 && p.value == elts + Span(size, old(nelts))
      ensures p.Some? ==> Elements() == old(Elements()) + Bytes(pool.mem, p.value, size)
      ensures p.None? ==> nelts == old(nelts) && Elements() == old(Elements())
    {
      hide Inv, Span, Array.OthersKept, Bytes;
      if nelts == nalloc {
        var ok := Grow(1, 2 * nalloc);
        if !ok {
          return None;
        }
      } else {
        NothingChanged();
      }
      p := Some(elts + Span(size, nelts));
      SpanOne(size);
      SpanAdd(size, nelts, 1);
      BytesSplit(pool.mem, elts, Span(size, nelts), size);
      nelts := nelts + 1;
    }

    twostate lemma NothingChanged()
      requires unchanged(this) && unchanged(pool)
      ensures OthersKept()
    {
    }

    /**
     * ngx_array_destroy: what sits last in the pool is given back, first the
     * elements, then the header.
     */
    method Destroy()
      requires Valid()
      modifies pool
      ensures pool.Holds(None) && pool.mem == old(pool.mem)
      ensures old(pool.blocks) != []
      ensures var last := old(pool.blocks)[0].last;
        var elements := elts + Span(size, nalloc) == last;
        var header := addr + ARRAY_HEAD == (if elements then elts else last);
        pool.live == old(pool.live) - (if elements then {region} else {}) - (if header then {head} else {})
    {
      hide Inv, Span;
      pool.HasBlock();
      if elts + Span(size, nalloc) == pool.blocks[0].last {
        pool.Shrink(region, Span(size, nalloc));
      }
      if addr + ARRAY_HEAD == pool.blocks[0].last {
        pool.Shrink(head, ARRAY_HEAD);
      }
    }
  }

  lemma SpanOne(size: nat)
    ensures Span(size, 1) == size
  {
  }

  lemma BytesSplit(mem: Addr -> bv8, start: Addr, m: nat, n: nat)
    ensures Bytes(mem, start, m + n) == Bytes(mem, start, m) + Bytes(mem, start + m, n)
  {
  }

  lemma LiveApart(s: State, psize: nat, r: Id, q: Id)
    requires Inv(s, psize) && r in s.live && q in s.live && r != q
    ensures Apart(s.live[r].start, s.live[r].len, s.live[q].start, s.live[q].len)
  {
  }

  // ngx_array_create.
  method Create(pool: Pool, n: nat, size: nat) returns (a: Array?)
    requires pool.Holds(None) && n > 0 && size > 0
    modifies pool
    ensures pool.Holds(None) && pool.Kept()
    ensures a != null ==>
      fresh(a) && a.Valid() && a.pool == pool && a.Elements() == [] && a.size == size && a.nalloc == n
    ensures a != null ==> a.region !in old(pool.live) && a.head !in old(pool.live)
  {
    hide Inv;
    var p, head := pool.Alloc(ARRAY_HEAD, true);
    if p.None? {
      return null;
    }
    SpanGrows(size, n, n);
    var e, region := pool.Alloc(Span(size, n), true);
    if e.None? {
      return null;
    }
    a := new Array(pool, p.value, head, e.value, region, n, size);
  }
}
