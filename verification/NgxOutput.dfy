/**
 * ngx_output_chain over every run: what is kept by each move of a buffer
 * between ctx->in, the outgoing chain, busy, free and the filter.
 */
module NgxOutput {
  import opened Collections
  import opened NgxChain

  // ---- the invariant ----------------------------------------------------

  predicate Tagged(c: Config, m: Memory, r: Ref)
  {
    At(m, r).tag == c.tag
  }

  // No buffer is in two places; only busy and the filter share buffers.
  ghost predicate Places(chain: seq<Ref>, out: seq<Ref>, pending: seq<Ref>, busy: seq<Ref>, free: seq<Ref>)
  {
    && Distinct(chain) && Distinct(out) && Distinct(pending) && Distinct(busy) && Distinct(free)
    && Disjoint(chain, out) && Disjoint(chain, pending) && Disjoint(chain, busy) && Disjoint(chain, free)
    && Disjoint(out, pending) && Disjoint(out, busy) && Disjoint(out, free)
    && Disjoint(free, pending) && Disjoint(free, busy)
  }

  // Busy and what the filter holds end alike; what only busy still lists is consumed.
  ghost predicate Lag(m: Memory, busy: seq<Ref>, pending: seq<Ref>)
  {
    if |busy| <= |pending| then busy == pending[|pending| - |busy|..]
    else
      && pending == busy[|busy| - |pending|..]
      && forall i :: 0 <= i < |busy| - |pending| ==> At(m, busy[i]).Size() == 0
  }

  ghost predicate Flight(c: Config, m: Memory, busy: seq<Ref>, pending: seq<Ref>)
  {
    && Lag(m, busy, pending) && AllValid(m, busy) && AllValid(m, pending)
    && (forall r :: r in busy && Tagged(c, m, r) ==> Temp(c, At(m, r)))
    && (forall r :: r in pending && Tagged(c, m, r) ==> r in busy && At(m, r).Size() > 0)
  }

  ghost predicate Stock(c: Config, m: Memory, chain: seq<Ref>, out: seq<Ref>, free: seq<Ref>)
  {
    && AllValid(m, chain) && AllValid(m, out)
    && (forall r :: r in chain ==> !Tagged(c, m, r))
    && (forall r :: r in out ==> Suits(c, At(m, r)))
    && (forall r :: r in out && Tagged(c, m, r) ==> Temp(c, At(m, r)) && At(m, r).Size() > 0)
    && (forall r :: r in free ==> r in m && Idle(c, At(m, r)))
  }

  // Every temporary buffer ever allocated is accounted for, and they are few.
  ghost predicate Pool(c: Config, m: Memory, out: seq<Ref>, busy: seq<Ref>, free: seq<Ref>, made: nat, owned: set<Ref>)
  {
    && |owned| == made <= c.num && owned <= m.Keys
    && (forall r :: r in owned ==> r in free || ((r in out || r in busy) && Tagged(c, m, r)))
    && (forall r :: r in free ==> r in owned)
    && (forall r :: (r in out || r in busy) && Tagged(c, m, r) ==> r in owned)
  }

  ghost predicate Inv(c: Config, s: State, out: seq<Ref>)
  {
    && Places(s.chain, out, s.pending, s.busy, s.free)
    && Flight(c, s.bufs, s.busy, s.pending)
    && Stock(c, s.bufs, s.chain, out, s.free)
    && Pool(c, s.bufs, out, s.busy, s.free, s.made, s.owned)
  }

  // Everything on its way, in order: consumed, held by the filter, outgoing, still to come.
  ghost function Stream(s: State, out: seq<Ref>): seq<Byte>
  {
    s.sent + Bytes(s.bufs, s.pending) + Bytes(s.bufs, out) + Bytes(s.bufs, s.chain)
  }

  // ---- what a change of memory leaves alone ------------------------------

  lemma FlightSame(c: Config, m: Memory, n: Memory, busy: seq<Ref>, pending: seq<Ref>)
    requires Flight(c, m, busy, pending) && Same(m, n, busy) && Same(m, n, pending) && m.Keys <= n.Keys
    ensures Flight(c, n, busy, pending)
  {
    hide Buf.Valid, Buf.Size, Temp;
    assert |busy| > |pending| ==> forall i :: 0 <= i < |busy| - |pending| ==> At(n, busy[i]) == At(m, busy[i]);
  }

  lemma PoolSame(c: Config, m: Memory, n: Memory, out: seq<Ref>, busy: seq<Ref>, free: seq<Ref>, made: nat,
                 owned: set<Ref>)
    requires Pool(c, m, out, busy, free, made, owned) && Same(m, n, out) && Same(m, n, busy) && m.Keys <= n.Keys
    ensures Pool(c, n, out, busy, free, made, owned)
  {
  }

  lemma PlacesPass(chain: seq<Ref>, out: seq<Ref>, pending: seq<Ref>, busy: seq<Ref>, free: seq<Ref>)
    requires Places(chain, out, pending, busy, free) && chain != []
    ensures Places(chain[1..], out + [chain[0]], pending, busy, free)
  {
    assert chain[0] in chain;
  }

  lemma PlacesNew(chain: seq<Ref>, out: seq<Ref>, pending: seq<Ref>, busy: seq<Ref>, free: seq<Ref>, r: Ref)
    requires Places(chain, out, pending, busy, free)
    requires r !in chain && r !in out && r !in pending && r !in busy && r !in free
    ensures Places(chain, out, pending, busy, [r] + free)
  {
  }

  lemma PlacesCopy(chain: seq<Ref>, out: seq<Ref>, pending: seq<Ref>, busy: seq<Ref>, free: seq<Ref>)
    requires Places(chain, out, pending, busy, free) && free != []
    ensures Places(chain, out + [free[0]], pending, busy, free[1..])
  {
    assert free[0] in free;
  }

  lemma PoolNew(c: Config, m: Memory, out: seq<Ref>, busy: seq<Ref>, free: seq<Ref>, made: nat, owned: set<Ref>,
                r: Ref, d: Buf)
    requires Pool(c, m, out, busy, free, made, owned) && r !in m && made < c.num
    requires r !in out && r !in busy
    ensures Pool(c, m[r := d], out, busy, [r] + free, made + 1, owned + {r})
  {
  }

  lemma PoolCopy(c: Config, m: Memory, k: Memory, out: seq<Ref>, busy: seq<Ref>, free: seq<Ref>, made: nat,
                 owned: set<Ref>)
    requires Pool(c, m, out, busy, free, made, owned) && free != []
    requires Same(m, k, out) && Same(m, k, busy) && k.Keys == m.Keys && Tagged(c, k, free[0])
    requires Distinct(free) && free[0] !in busy
    ensures Pool(c, k, out + [free[0]], busy, free[1..], made, owned)
  {
    assert free[0] in free;
  }

  // ---- moves inside one pass over ctx->in ---------------------------------

  // A zero-size buffer is dropped from ctx->in.
  lemma DropKeeps(c: Config, s: State, out: seq<Ref>)
    requires Inv(c, s, out) && s.chain != [] && At(s.bufs, s.chain[0]).Size() == 0
    ensures Inv(c, s.(chain := s.chain[1..]), out)
    ensures Stream(s.(chain := s.chain[1..]), out) == Stream(s, out)
  {
    hide Buf.Valid, Buf.Bytes, Buf.Size, Suits, Temp, Flight, Pool;
    SizeNat(At(s.bufs, s.chain[0]));
    assert At(s.bufs, s.chain[0]).Bytes() == [];
  }

  // The first buffer of ctx->in changes form but not content.
  lemma TouchKeeps(c: Config, s: State, out: seq<Ref>, d: Buf)
    requires Inv(c, s, out) && s.chain != [] && d.Valid()
    requires d.Bytes() == At(s.bufs, s.chain[0]).Bytes() && d.tag == At(s.bufs, s.chain[0]).tag
    ensures Inv(c, s.(bufs := s.bufs[s.chain[0] := d]), out)
    ensures Stream(s.(bufs := s.bufs[s.chain[0] := d]), out) == Stream(s, out)
  {
    hide Buf.Valid, Buf.Bytes, Buf.Size, Suits, Temp, Flight, Pool, Places, Stock, Same;
    var m, n := s.bufs, s.bufs[s.chain[0] := d];
    Elsewhere(m, d, s.chain, out, s.pending, s.busy, s.free);
    TouchStock(c, m, d, s.chain, out, s.free);
    FlightSame(c, m, n, s.busy, s.pending);
    PoolSame(c, m, n, out, s.busy, s.free, s.made, s.owned);
    BytesSame(m, n, s.pending);
    BytesSame(m, n, out);
    BytesSame(m, n, s.chain[1..]);
  }

  // No other reference sees the change.
  lemma Elsewhere(m: Memory, d: Buf, chain: seq<Ref>, out: seq<Ref>, pending: seq<Ref>, busy: seq<Ref>, free: seq<Ref>)
    requires Places(chain, out, pending, busy, free) && chain != []
    ensures var n := m[chain[0] := d];
      && Same(m, n, out) && Same(m, n, pending) && Same(m, n, busy) && Same(m, n, free) && Same(m, n, chain[1..])
  {
    assert chain[0] in chain;
    assert forall r :: r in chain[1..] ==> r != chain[0];
  }

  lemma TouchStock(c: Config, m: Memory, d: Buf, chain: seq<Ref>, out: seq<Ref>, free: seq<Ref>)
    requires Stock(c, m, chain, out, free) && chain != [] && d.Valid() && d.tag == At(m, chain[0]).tag
    requires var n := m[chain[0] := d]; Same(m, n, out) && Same(m, n, free)
    ensures Stock(c, m[chain[0] := d], chain, out, free)
  {
    hide Buf.Valid, Buf.Size, Suits, Temp, Idle;
  }

  // A suitable buffer moves from ctx->in to the outgoing chain as it is.
  lemma PassKeeps(c: Config, s: State, out: seq<Ref>)
    requires Inv(c, s, out) && s.chain != [] && Suits(c, At(s.bufs, s.chain[0]))
    ensures Inv(c, s.(chain := s.chain[1..]), out + [s.chain[0]])
    ensures Stream(s.(chain := s.chain[1..]), out + [s.chain[0]]) == Stream(s, out)
  {
    hide Buf.Valid, Buf.Bytes, Buf.Size, Suits, Temp, Flight, Places;
    var r := s.chain[0];
    PlacesPass(s.chain, out, s.pending, s.busy, s.free);
    BytesAppend(s.bufs, out, [r]);
    assert Bytes(s.bufs, [r]) == At(s.bufs, r).Bytes();
    assert r in s.chain;
  }

  // A new temporary buffer enters the pool.
  lemma NewKeeps(c: Config, s: State, out: seq<Ref>, r: Ref, d: Buf)
    requires Inv(c, s, out) && r !in s.bufs && Idle(c, d) && s.made < c.num
    ensures var t := s.(bufs := s.bufs[r := d], free := [r] + s.free, made := s.made + 1, owned := s.owned + {r});
      Inv(c, t, out) && Stream(t, out) == Stream(s, out)
  {
    hide Buf.Valid, Buf.Bytes, Buf.Size, Suits, Idle, Temp, Flight, Places, Pool;
    var m, n := s.bufs, s.bufs[r := d];
    InMemory(c, s, out);
    PlacesNew(s.chain, out, s.pending, s.busy, s.free, r);
    PoolNew(c, m, out, s.busy, s.free, s.made, s.owned, r, d);
    FlightSame(c, m, n, s.busy, s.pending);
    BytesSame(m, n, s.pending);
    BytesSame(m, n, out);
    BytesSame(m, n, s.chain);
  }

  lemma InMemory(c: Config, s: State, out: seq<Ref>)
    requires Inv(c, s, out)
    ensures forall r :: r in s.chain || r in out || r in s.pending || r in s.busy || r in s.free ==> r in s.bufs
  {
  }

  // The memory after n bytes of src have been copied into dst.
  function Copied(c: Config, m: Memory, src: Ref, dst: Ref, n: nat): (k: Memory)
    requires At(m, src).Valid() && n <= At(m, src).Size() && At(m, dst).pos == 0 && n <= |At(m, dst).mem|
  {
    m[src := At(m, src).Advance(n)][dst := CopyInto(c, At(m, src), At(m, dst), n)]
  }

  ghost predicate CanCopy(c: Config, s: State, out: seq<Ref>, n: nat)
  {
    && Inv(c, s, out) && s.chain != [] && s.free != []
    && 0 < n <= At(s.bufs, s.chain[0]).Size() && n <= |At(s.bufs, s.free[0]).mem|
    && At(s.bufs, s.chain[0]).Valid() && Idle(c, At(s.bufs, s.free[0])) && At(s.bufs, s.free[0]).pos == 0
  }

  // What copying does to the two buffers, and that it touches no other.
  lemma CopiedFacts(c: Config, s: State, out: seq<Ref>, n: nat)
    requires CanCopy(c, s, out, n)
    ensures var src, dst, m := s.chain[0], s.free[0], s.bufs;
      var k, b := Copied(c, m, src, dst, n), At(m, src);
      && src in m && dst in m && src != dst && k.Keys == m.Keys
      && (forall r :: r != src && r != dst ==> At(k, r) == At(m, r))
      && n <= |b.Bytes()| && At(k, src).Bytes() == b.Bytes()[n..] && At(k, dst).Bytes() == b.Bytes()[..n]
      && At(k, src).Valid() && At(k, src).tag == b.tag
      && At(k, dst).Valid() && Temp(c, At(k, dst)) && Suits(c, At(k, dst)) && At(k, dst).Size() > 0
  {
    hide Buf.Valid, Buf.Bytes, Buf.Size, Suits, Temp, Flight, CopyInto, Buf.Advance, Pool;
    var src, dst := s.chain[0], s.free[0];
    var b := At(s.bufs, src);
    assert src in s.chain && dst in s.free;
    AdvanceBytes(b, n);
    AdvanceMoves(b, n);
    CopySound(c, b, At(s.bufs, dst), n);
  }

  lemma CopyStream(c: Config, s: State, out: seq<Ref>, n: nat)
    requires CanCopy(c, s, out, n)
    ensures var src, dst := s.chain[0], s.free[0];
      var t := s.(bufs := Copied(c, s.bufs, src, dst, n), free := s.free[1..]);
      Stream(t, out + [dst]) == Stream(s, out)
  {
    hide Buf.Valid, Buf.Bytes, Buf.Size, Suits, Idle, Temp, Flight, CopyInto, Buf.Advance, Pool, Copied, Stock, At;
    CopiedFacts(c, s, out, n);
    var src, dst, m := s.chain[0], s.free[0], s.bufs;
    var k, b := Copied(c, m, src, dst, n), At(m, src);
    assert dst in s.free;
    BytesSame(m, k, s.pending);
    BytesSame(m, k, out);
    assert forall r :: r in s.chain[1..] ==> r in s.chain && r != src;
    BytesSame(m, k, s.chain[1..]);
    BytesAppend(k, out, [dst]);
    assert Bytes(k, [dst]) == At(k, dst).Bytes();
    assert b.Bytes() == b.Bytes()[..n] + b.Bytes()[n..];
  }

  // Bytes are copied from the first buffer of ctx->in into an idle temporary
  // buffer, which joins the outgoing chain.
  lemma CopyKeeps(c: Config, s: State, out: seq<Ref>, n: nat)
    requires CanCopy(c, s, out, n)
    ensures var src, dst := s.chain[0], s.free[0];
      var t := s.(bufs := Copied(c, s.bufs, src, dst, n), free := s.free[1..]);
      Inv(c, t, out + [dst]) && Stream(t, out + [dst]) == Stream(s, out)
  {
    hide Buf.Valid, Buf.Bytes, Buf.Size, Suits, Idle, Temp, Flight, CopyInto, Buf.Advance, Copied, At, Pool;
    PlacesCopy(s.chain, out, s.pending, s.busy, s.free);
    CopyStream(c, s, out, n);
    CopiedFacts(c, s, out, n);
    var src, dst, m := s.chain[0], s.free[0], s.bufs;
    assert src in s.chain && dst in s.free;
    var k := Copied(c, m, src, dst, n);
    FlightSame(c, m, k, s.busy, s.pending);
    TempTagged(c, At(k, dst));
    PoolCopy(c, m, k, out, s.busy, s.free, s.made, s.owned);
    CopyStock(c, s, out, n);
  }

  lemma CopyStock(c: Config, s: State, out: seq<Ref>, n: nat)
    requires CanCopy(c, s, out, n)
    ensures var src, dst := s.chain[0], s.free[0];
      Stock(c, Copied(c, s.bufs, src, dst, n), s.chain, out + [dst], s.free[1..])
  {
    hide Buf.Valid, Buf.Bytes, Buf.Size, Suits, Idle, Temp, Flight, CopyInto, Buf.Advance, Copied, At, Pool;
    CopiedFacts(c, s, out, n);
    assert s.chain[0] in s.chain && s.free[0] in s.free;
  }

  lemma TempTagged(c: Config, b: Buf)
    requires Temp(c, b)
    ensures b.tag == c.tag
  {
  }

  // ---- the filter takes what is outgoing ----------------------------------

  lemma MovedKeeps(c: Config, m: Memory, n: Memory, all: seq<Ref>)
    requires OnlyPositions(m, n, all)
    ensures n.Keys == m.Keys
    ensures forall r :: r !in all ==> At(n, r) == At(m, r)
    ensures forall r :: Tagged(c, n, r) == Tagged(c, m, r) && Temp(c, At(n, r)) == Temp(c, At(m, r))
  {
  }

  lemma PlacesSent(chain: seq<Ref>, out: seq<Ref>, pending: seq<Ref>, busy: seq<Ref>, free: seq<Ref>, k: nat)
    requires Places(chain, out, pending, busy, free) && k <= |pending + out|
    ensures Distinct(pending + out)
    ensures Places(chain, [], (pending + out)[k..], busy + out, free)
  {
    DistinctAppend(pending, out);
    DistinctAppend(busy, out);
    assert forall r :: r in (pending + out)[k..] ==> r in pending || r in out;
  }

  lemma DistinctAppend(a: seq<Ref>, b: seq<Ref>)
    requires Distinct(a) && Distinct(b) && Disjoint(b, a)
    ensures Distinct(a + b)
  {
    forall i, j | 0 <= i < j < |a + b|
      ensures (a + b)[i] != (a + b)[j]
    {
      if i < |a| <= j {
        assert b[j - |a|] in b;
      }
    }
  }

  lemma StockSent(c: Config, m: Memory, n: Memory, chain: seq<Ref>, out: seq<Ref>, free: seq<Ref>)
    requires Stock(c, m, chain, out, free) && Same(m, n, chain) && Same(m, n, free) && n.Keys == m.Keys
    ensures Stock(c, n, chain, [], free)
    ensures forall r :: r in out && Tagged(c, m, r) ==> Temp(c, At(m, r)) && At(m, r).Size() > 0
  {
    hide Buf.Size, Buf.Valid, Suits, Temp, Idle;
  }

  lemma BytesSent(m: Memory, n: Memory, s: State, out: seq<Ref>, k: nat, sent: seq<Byte>)
    requires Same(m, n, s.chain) && k <= |s.pending + out| && s.bufs == m
    requires sent + Bytes(n, (s.pending + out)[k..]) == s.sent + Bytes(m, s.pending + out)
    ensures sent + Bytes(n, (s.pending + out)[k..]) + Bytes(n, []) + Bytes(n, s.chain) == Stream(s, out)
  {
    hide Same;
    BytesSame(m, n, s.chain);
    BytesAppend(m, s.pending, out);
  }

  lemma LagSent(m: Memory, n: Memory, busy: seq<Ref>, pending: seq<Ref>, out: seq<Ref>, k: nat)
    requires Lag(m, busy, pending) && Distinct(busy) && Disjoint(out, busy)
    requires Taken(m, n, pending + out, k) && OnlyPositions(m, n, pending + out)
    ensures Lag(n, busy + out, (pending + out)[k..])
  {
    hide Buf.Size, Lag, At, Taken, OnlyPositions;
    if |busy| <= |pending| {
      LagAhead(m, n, busy, pending, out, k);
    } else {
      LagBehind(m, n, busy, pending, out, k);
    }
  }

  lemma LagAhead(m: Memory, n: Memory, busy: seq<Ref>, pending: seq<Ref>, out: seq<Ref>, k: nat)
    requires Lag(m, busy, pending) && |busy| <= |pending| && Taken(m, n, pending + out, k)
    ensures Lag(n, busy + out, (pending + out)[k..])
  {
    hide Buf.Size, At;
    var all, both, gap := pending + out, busy + out, |pending| - |busy|;
    assert both == all[gap..];
    if k <= gap {
      assert both == all[k..][gap - k..];
    } else {
      assert all[k..] == both[k - gap..];
      assert forall i :: 0 <= i < k - gap ==> both[i] == all[gap + i];
    }
  }

  lemma LagBehind(m: Memory, n: Memory, busy: seq<Ref>, pending: seq<Ref>, out: seq<Ref>, k: nat)
    requires Lag(m, busy, pending) && |busy| > |pending| && Distinct(busy) && Disjoint(out, busy)
    requires Taken(m, n, pending + out, k) && OnlyPositions(m, n, pending + out)
    ensures Lag(n, busy + out, (pending + out)[k..])
  {
    hide Buf.Size, At, OnlyPositions;
    var all, both, gap := pending + out, busy + out, |busy| - |pending|;
    assert all == both[gap..];
    assert all[k..] == both[gap + k..];
    forall i | 0 <= i < gap + k
      ensures At(n, both[i]).Size() == 0
    {
      if i < gap {
        assert busy[i] in busy;
        UntouchedByFilter(m, n, all, busy[i]);
      } else {
        assert both[i] == all[i - gap];
      }
    }
  }

  lemma UntouchedByFilter(m: Memory, n: Memory, all: seq<Ref>, r: Ref)
    requires OnlyPositions(m, n, all) && r !in all
    ensures At(n, r) == At(m, r)
  {
  }

  lemma FlightSent(c: Config, m: Memory, n: Memory, busy: seq<Ref>, pending: seq<Ref>, out: seq<Ref>, k: nat)
    requires Flight(c, m, busy, pending) && Distinct(busy) && Disjoint(out, busy) && Distinct(pending + out)
    requires Taken(m, n, pending + out, k) && OnlyPositions(m, n, pending + out) && AllValid(n, pending + out)
    requires forall r :: r in out && Tagged(c, m, r) ==> Temp(c, At(m, r)) && At(m, r).Size() > 0
    ensures Flight(c, n, busy + out, (pending + out)[k..])
  {
    hide Buf.Size, Buf.Valid, Temp, Lag, OnlyPositions, At;
    LagSent(m, n, busy, pending, out, k);
    MovedKeeps(c, m, n, pending + out);
    assert forall r :: r in busy + out ==> r in pending + out || r in busy;
    var all := pending + out;
    forall r | r in all[k..] && Tagged(c, n, r)
      ensures r in busy + out && At(n, r).Size() > 0
    {
      var i :| k <= i < |all| && all[i] == r;
      assert r in pending || r in out;
    }
  }

  // The filter takes the outgoing chain, which joins busy.
  lemma SentKeeps(c: Config, s: State, out: seq<Ref>, n: Memory, k: nat, sent: seq<Byte>)
    requires Inv(c, s, out) && k <= |s.pending + out|
    requires Taken(s.bufs, n, s.pending + out, k) && OnlyPositions(s.bufs, n, s.pending + out)
    requires AllValid(n, s.pending + out)
    requires sent + Bytes(n, (s.pending + out)[k..]) == s.sent + Bytes(s.bufs, s.pending + out)
    ensures var t := s.(bufs := n, pending := (s.pending + out)[k..], sent := sent, busy := s.busy + out);
      Inv(c, t, []) && Stream(t, []) == Stream(s, out)
  {
    hide Buf.Size, Buf.Valid, Suits, Temp, Lag, OnlyPositions, Taken, Places, Flight, Pool, Stock, At, Bytes, Distinct;
    PlacesSent(s.chain, out, s.pending, s.busy, s.free, k);
    PlacesParts(s.chain, out, s.pending, s.busy, s.free);
    MovedKeeps(c, s.bufs, n, s.pending + out);
    assert Same(s.bufs, n, s.chain) && Same(s.bufs, n, s.free);
    StockSent(c, s.bufs, n, s.chain, out, s.free);
    FlightSent(c, s.bufs, n, s.busy, s.pending, out, k);
    PoolSent(c, s, out, n);
    BytesSent(s.bufs, n, s, out, k, sent);
  }

  lemma PlacesParts(chain: seq<Ref>, out: seq<Ref>, pending: seq<Ref>, busy: seq<Ref>, free: seq<Ref>)
    requires Places(chain, out, pending, busy, free)
    ensures Distinct(busy) && Disjoint(out, busy)
    ensures Disjoint(chain, pending) && Disjoint(chain, out) && Disjoint(free, pending) && Disjoint(out, free)
  {
  }

  lemma PoolSent(c: Config, s: State, out: seq<Ref>, n: Memory)
    requires Pool(c, s.bufs, out, s.busy, s.free, s.made, s.owned) && n.Keys == s.bufs.Keys
    requires forall r :: Tagged(c, n, r) == Tagged(c, s.bufs, r)
    ensures Pool(c, n, [], s.busy + out, s.free, s.made, s.owned)
  {
    hide Tagged;
  }

  // On the short path the filter takes buffers that busy never lists.
  lemma ShortKeeps(c: Config, s: State, out: seq<Ref>, n: Memory, k: nat, sent: seq<Byte>)
    requires Inv(c, s, out) && k <= |s.pending + out| && s.busy == [] && forall r :: r in out ==> !Tagged(c, s.bufs, r)
    requires Taken(s.bufs, n, s.pending + out, k) && OnlyPositions(s.bufs, n, s.pending + out)
    requires AllValid(n, s.pending + out)
    requires sent + Bytes(n, (s.pending + out)[k..]) == s.sent + Bytes(s.bufs, s.pending + out)
    ensures var t := s.(bufs := n, pending := (s.pending + out)[k..], sent := sent);
      Inv(c, t, []) && Stream(t, []) == Stream(s, out)
  {
    hide Buf.Size, Buf.Valid, Suits, Temp, OnlyPositions, Taken, Pool, Stock, Flight, Places, At, Bytes;
    SentKeeps(c, s, out, n, k, sent);
    MovedKeeps(c, s.bufs, n, s.pending + out);
    FlightShort(c, s.bufs, n, out, s.pending, k);
    PlacesShort(s.chain, out, (s.pending + out)[k..], s.free);
    PoolShort(c, s, out, n);
  }

  lemma FlightShort(c: Config, m: Memory, n: Memory, out: seq<Ref>, pending: seq<Ref>, k: nat)
    requires Flight(c, m, [], pending) && AllValid(n, pending + out) && k <= |pending + out|
    requires forall r :: r in out ==> !Tagged(c, m, r)
    requires forall r :: Tagged(c, n, r) == Tagged(c, m, r)
    ensures Flight(c, n, [], (pending + out)[k..])
  {
    hide Buf.Size, Buf.Valid, Temp, Tagged, At;
    var t := (pending + out)[k..];
    assert forall r :: r in t ==> r in pending + out;
    assert t[|t| - 0..] == [];
  }

  lemma PlacesShort(chain: seq<Ref>, out: seq<Ref>, pending: seq<Ref>, free: seq<Ref>)
    requires Places(chain, [], pending, [] + out, free)
    ensures Places(chain, [], pending, [], free)
  {
  }

  lemma PoolShort(c: Config, s: State, out: seq<Ref>, n: Memory)
    requires Pool(c, s.bufs, out, s.busy, s.free, s.made, s.owned) && n.Keys == s.bufs.Keys
    requires forall r :: r in out ==> !Tagged(c, s.bufs, r)
    requires forall r :: Tagged(c, n, r) == Tagged(c, s.bufs, r)
    ensures Pool(c, n, [], s.busy, s.free, s.made, s.owned)
  {
    hide Tagged;
  }

  // ---- consumed buffers leave busy ----------------------------------------

  lemma LagNext(m: Memory, busy: seq<Ref>, pending: seq<Ref>)
    requires Lag(m, busy, pending) && busy != []
    ensures Lag(m, busy[1..], pending)
  {
  }

  // A consumed buffer of someone else leaves busy.
  lemma ForgetKeeps(c: Config, s: State)
    requires Inv(c, s, []) && s.busy != [] && !Tagged(c, s.bufs, s.busy[0])
    ensures Inv(c, s.(busy := s.busy[1..]), [])
  {
    hide Buf.Size, Buf.Valid, Suits, Temp, Lag, Stock, At;
    LagNext(s.bufs, s.busy, s.pending);
  }

  function Reset(b: Buf): Buf
  {
    b.(pos := 0, last := 0)
  }

  // A consumed temporary buffer leaves busy and is idle again; the filter no longer holds it.
  lemma RecycleKeeps(c: Config, s: State)
    requires Inv(c, s, []) && s.busy != [] && Tagged(c, s.bufs, s.busy[0]) && At(s.bufs, s.busy[0]).Size() == 0
    ensures s.busy[0] !in s.pending
    ensures var r := s.busy[0];
      var t := s.(bufs := s.bufs[r := Reset(At(s.bufs, r))], busy := s.busy[1..], free := [r] + s.free);
      Inv(c, t, []) && Stream(t, []) == Stream(s, [])
  {
    hide Buf.Size, Buf.Valid, Suits, Places, Pool, Reset, Flight, Stock, Bytes;
    var r := s.busy[0];
    var m, n := s.bufs, s.bufs[r := Reset(At(s.bufs, r))];
    PlacesRecycle(s.chain, s.pending, s.busy, s.free);
    StockRecycle(c, m, s.chain, s.free, s.busy, s.pending);
    FlightRecycle(c, m, n, s.busy, s.pending);
    BytesSame(m, n, s.pending);
    BytesSame(m, n, s.chain);
    PoolRecycle(c, m, n, s.busy, s.free, s.made, s.owned);
    assert Bytes(m, []) == Bytes(n, []) by {
      BytesSame(m, n, []);
    }
  }

  lemma StockRecycle(c: Config, m: Memory, chain: seq<Ref>, free: seq<Ref>, busy: seq<Ref>, pending: seq<Ref>)
    requires Stock(c, m, chain, [], free) && Flight(c, m, busy, pending) && busy != [] && Tagged(c, m, busy[0])
    requires busy[0] !in chain && busy[0] !in free
    ensures Stock(c, m[busy[0] := Reset(At(m, busy[0]))], chain, [], [busy[0]] + free)
    ensures busy[0] in m
  {
    hide Buf.Size, Buf.Valid, Suits, Reset, Lag, Idle;
    assert busy[0] in busy;
    ResetIdle(c, At(m, busy[0]));
  }

  lemma ResetIdle(c: Config, b: Buf)
    requires Temp(c, b)
    ensures Idle(c, Reset(b)) && Reset(b).tag == b.tag
  {
  }

  lemma PlacesRecycle(chain: seq<Ref>, pending: seq<Ref>, busy: seq<Ref>, free: seq<Ref>)
    requires Places(chain, [], pending, busy, free) && busy != []
    ensures busy[0] !in chain && busy[0] !in free && busy[0] !in busy[1..]
    ensures busy[0] !in pending ==> Places(chain, [], pending, busy[1..], [busy[0]] + free)
  {
    assert busy[0] in busy;
  }

  lemma FlightRecycle(c: Config, m: Memory, n: Memory, busy: seq<Ref>, pending: seq<Ref>)
    requires Flight(c, m, busy, pending) && busy != [] && busy[0] !in busy[1..]
    requires Tagged(c, m, busy[0]) && At(m, busy[0]).Size() == 0
    requires n.Keys == m.Keys && forall r :: r != busy[0] ==> At(n, r) == At(m, r)
    ensures busy[0] !in pending && Flight(c, n, busy[1..], pending)
  {
    hide Buf.Size, Buf.Valid, Temp, At, Lag;
    assert busy[0] !in pending;
    LagNext(m, busy, pending);
    LagSame(m, n, busy[1..], pending);
  }

  lemma LagSame(m: Memory, n: Memory, busy: seq<Ref>, pending: seq<Ref>)
    requires Lag(m, busy, pending) && Same(m, n, busy)
    ensures Lag(n, busy, pending)
  {
    hide Buf.Size, At;
    assert forall i :: 0 <= i < |busy| ==> At(n, busy[i]) == At(m, busy[i]);
  }

  lemma PoolRecycle(c: Config, m: Memory, n: Memory, busy: seq<Ref>, free: seq<Ref>, made: nat, owned: set<Ref>)
    requires Pool(c, m, [], busy, free, made, owned) && busy != [] && Tagged(c, m, busy[0])
    requires n.Keys == m.Keys && forall r :: r != busy[0] ==> At(n, r) == At(m, r)
    requires busy[0] !in busy[1..]
    ensures Pool(c, n, [], busy[1..], [busy[0]] + free, made, owned)
  {
    hide At;
    assert busy[0] in busy;
  }

  // ---- what is left to move -------------------------------------------------

  ghost function Left(m: Memory, chain: seq<Ref>): nat
  {
    |Bytes(m, chain)| + |chain|
  }

  lemma LeftTouch(m: Memory, chain: seq<Ref>, d: Buf)
    requires chain != [] && Distinct(chain) && d.Bytes() == At(m, chain[0]).Bytes()
    ensures Left(m[chain[0] := d], chain) == Left(m, chain)
  {
    hide Buf.Bytes;
    assert Same(m, m[chain[0] := d], chain[1..]);
    BytesSame(m, m[chain[0] := d], chain[1..]);
  }

  lemma LeftCopy(c: Config, s: State, out: seq<Ref>, n: nat)
    requires CanCopy(c, s, out, n)
    ensures Left(Copied(c, s.bufs, s.chain[0], s.free[0], n), s.chain) < Left(s.bufs, s.chain)
  {
    hide Buf.Valid, Buf.Bytes, Buf.Size, Suits, Idle, Temp, Flight, CopyInto, Buf.Advance, Copied, At, Pool, Stock;
    CopiedFacts(c, s, out, n);
    var k := Copied(c, s.bufs, s.chain[0], s.free[0], n);
    assert s.free[0] in s.free;
    assert forall r :: r in s.chain[1..] ==> r in s.chain && r != s.chain[0];
    BytesSame(s.bufs, k, s.chain[1..]);
  }

  lemma ChainHead(c: Config, s: State, out: seq<Ref>)
    requires Inv(c, s, out) && s.chain != []
    ensures s.chain[0] in s.bufs && At(s.bufs, s.chain[0]).Valid() && Distinct(s.chain)
    ensures !Tagged(c, s.bufs, s.chain[0])
  {
  }

  lemma FreeHead(c: Config, s: State, out: seq<Ref>)
    requires Inv(c, s, out) && s.free != []
    ensures s.free[0] in s.bufs && Idle(c, At(s.bufs, s.free[0]))
    ensures At(s.bufs, s.free[0]).pos == 0 && |At(s.bufs, s.free[0]).mem| >= 1
    ensures s.free[0] !in s.pending && At(s.bufs, s.free[0]).Size() == 0
  {
    assert s.free[0] in s.free;
  }

  datatype Step = More | Stop | Failed

  class Output {
    const c: Config
    var bufs: Memory
    var next: Ref               // references from here on are unused
    var pending: seq<Ref>
    var sent: seq<Byte>
    var chain: seq<Ref>
    var busy: seq<Ref>
    var free: seq<Ref>
    var made: nat
    ghost var owned: set<Ref>

    ghost function Now(): State
      reads this
    {
      State(bufs, pending, sent, chain, busy, free, made, owned)
    }

    ghost predicate Holds(out: seq<Ref>)
      reads this
    {
      Inv(c, Now(), out) && c.size >= 1 && forall r :: r in bufs ==> r < next
    }

    // ngx_output_chain_get_buf: a new temporary buffer, ready for the copy.
    method GetBuf(out: seq<Ref>)
      requires Holds(out) && chain != [] && free == [] && made < c.num && At(bufs, chain[0]).Size() > 0
      modifies this`bufs, this`next, this`free, this`made, this`owned
      ensures Holds(out) && Stream(Now(), out) == old(Stream(Now(), out))
      ensures free != [] && made == old(made) + 1
      ensures Same(old(bufs), bufs, chain) && Left(bufs, chain) == old(Left(bufs, chain))
    {
      hide Inv, Stream, Left, Buf.Valid, Buf.Bytes, Suits, Tagged, Distinct;
      ChainHead(c, Now(), out);
      var b := bufs[chain[0]];
      var size := if OwnSize(c, b) then b.Size() else c.size;
      var d := NULL_BUF.(mem := seq(size, _ => 0 as bv8), temporary := true, tag := c.tag, recycled := !OwnSize(c, b));
      InMemory(c, Now(), out);
      NewKeeps(c, Now(), out, next, d);
      ghost var was := bufs;
      bufs, free, made, owned := bufs[next := d], [next], made + 1, owned + {next};
      next := next + 1;
      assert [next - 1] + [] == free;
      LeftSame(was, bufs, chain);
    }

    // ngx_output_chain_copy_buf, and the link that carries the copy.
    method CopyBuf(out: seq<Ref>) returns (step: Step, out': seq<Ref>)
      requires Holds(out) && chain != [] && free != [] && At(bufs, chain[0]).Size() > 0
      modifies this
      ensures pending == old(pending) && sent == old(sent) && busy == old(busy)
      ensures step.More? || step.Failed?
      ensures step.More? ==> Holds(out') && Stream(Now(), out') == old(Stream(Now(), out))
      ensures step.More? ==> Left(bufs, chain) < old(Left(bufs, chain))
      ensures step.More? ==>
        out' == out + [old(free[0])] && old(free[0]) !in pending && At(old(bufs), old(free[0])).Size() == 0
    {
      hide Inv, Stream, Left, Buf.Valid, Buf.Bytes, Suits, Tagged, Idle, Distinct, CopyInto;
      ChainHead(c, Now(), out);
      FreeHead(c, Now(), out);
      var src, dst := chain[0], free[0];
      var size, room := bufs[src].Size(), |bufs[dst].mem|;
      var n := if size < room then size else room;
      var failed := *;
      if failed {
        return Failed, [];
      }
      CopyKeeps(c, Now(), out, n);
      LeftCopy(c, Now(), out, n);
      bufs, free := Copied(c, bufs, src, dst, n), free[1..];
      out' := out + [dst];
      if bufs[src].Size() == 0 {
        DropKeeps(c, Now(), out');
        LeftPop(bufs, chain);
        chain := chain[1..];
      }
      step := More;
    }

    // One turn of the inner loop: the first buffer of ctx->in is dropped,
    // passed on as it is, or copied as far as one temporary buffer reaches.
    method Turn(out: seq<Ref>) returns (step: Step, out': seq<Ref>)
      requires Holds(out) && chain != []
      modifies this
      ensures pending == old(pending) && sent == old(sent) && busy == old(busy)
      ensures !step.Failed? ==> Holds(out') && Stream(Now(), out') == old(Stream(Now(), out))
      ensures step.More? ==> Left(bufs, chain) < old(Left(bufs, chain))
      ensures step.Stop? ==> out' == out && Left(bufs, chain) == old(Left(bufs, chain)) && chain == old(chain)
      ensures step.Stop? ==> free == [] && (out != [] || made == c.num)
    {
      hide Inv, Stream, Left, Buf.Valid, Buf.Bytes, Suits, AsIs, Tagged, Idle, Distinct, CopyInto, Copied;
      var r := chain[0];
      ChainHead(c, Now(), out);
      var b := bufs[r];
      var bsize := b.Size();
      if bsize == 0 && !b.Special() {
        DropKeeps(c, Now(), out);
        LeftPop(bufs, chain);
        chain := chain[1..];
        return More, out;
      }
      var (pass, d) := AsIs(c, b);
      AsIsSound(c, b);
      TouchKeeps(c, Now(), out, d);
      LeftTouch(bufs, chain, d);
      bufs := bufs[r := d];
      if pass {
        PassKeeps(c, Now(), out);
        LeftPop(bufs, chain);
        chain := chain[1..];
        return More, out + [r];
      }
      Bounded(c, Now(), out);
      if free == [] {
        if out != [] || made == c.num {
          return Stop, out;
        }
        var failed := *;
        if failed {
          return Failed, [];
        }
        GetBuf(out);
      }
      step, out' := CopyBuf(out);
    }

    // The inner loop: from ctx->in to a new outgoing chain, while there is room.
    method Fill() returns (ok: bool, out: seq<Ref>)
      requires Holds([])
      modifies this
      ensures pending == old(pending) && sent == old(sent) && busy == old(busy)
      ensures ok ==> Holds(out) && Stream(Now(), out) == old(Stream(Now(), []))
      ensures ok && out != [] ==> Left(bufs, chain) < old(Left(bufs, chain))
      ensures ok ==> Left(bufs, chain) <= old(Left(bufs, chain))
      ensures ok && out == [] && chain != [] ==> free == [] && made == c.num
    {
      hide Inv, Stream, Left;
      out := [];
      while chain != []
        invariant pending == old(pending) && sent == old(sent) && busy == old(busy)
        invariant Holds(out) && Stream(Now(), out) == old(Stream(Now(), []))
        invariant Left(bufs, chain) <= old(Left(bufs, chain))
        invariant out != [] ==> Left(bufs, chain) < old(Left(bufs, chain))
        decreases Left(bufs, chain)
      {
        var step;
        step, out := Turn(out);
        if step.Failed? {
          return false, [];
        }
        if step.Stop? {
          return true, out;
        }
      }
      ok := true;
    }

    // The filter appends out to what it holds, then consumes any prefix of it.
    method Send(out: seq<Ref>) returns (rc: Rc, ghost k: nat)
      requires Distinct(pending + out) && AllValid(bufs, pending + out)
      modifies this`bufs, this`pending, this`sent
      ensures k <= |old(pending) + out| && pending == (old(pending) + out)[k..]
      ensures Taken(old(bufs), bufs, old(pending) + out, k)
      ensures OnlyPositions(old(bufs), bufs, old(pending) + out)
      ensures AllValid(bufs, old(pending) + out)
      ensures sent + Bytes(bufs, pending) == old(sent + Bytes(bufs, pending + out))
      ensures old(sent) <= sent
    {
      hide Buf.Bytes, Buf.Valid, Buf.Advance, Buf.Size, OnlyPositions, Distinct, Bytes;
      var all := pending + out;
      assert all[0..] == all;
      OnlyNone(bufs, all);
      var i := 0;
      while i < |all|
        invariant Emptied(old(bufs), bufs, all, i) && OnlyPositions(old(bufs), bufs, all)
        invariant AllValid(bufs, all)
        invariant sent + Bytes(bufs, all[i..]) == old(sent + Bytes(bufs, pending + out))
        invariant old(sent) <= sent
      {
        var b := bufs[all[i]];
        SizeNat(b);
        var n: nat :| n <= b.Size();
        TakeStep(old(bufs), bufs, all, i, n);
        TakeBytes(bufs, all, i, n);
        sent, bufs := sent + b.Bytes()[..n], bufs[all[i] := b.Advance(n)];
        if n < b.Size() {
          break;
        }
        i := i + 1;
      }
      k := i;
      pending := all[i..];
      rc := *;
    }

    // ngx_chain_update_chains: consumed buffers leave busy, temporary ones for free.
    method UpdateChains(out: seq<Ref>)
      requires Inv(c, Now().(busy := busy + out), []) && c.size >= 1 && forall r :: r in bufs ==> r < next
      modifies this`bufs, this`busy, this`free
      ensures Holds([]) && Stream(Now(), []) == old(Stream(Now(), []))
      ensures busy != [] ==> At(bufs, busy[0]).Size() > 0
      ensures Left(bufs, chain) == old(Left(bufs, chain))
    {
      hide Inv, Left, Reset, Buf.Valid, Bytes;
      busy := busy + out;
      while busy != []
        invariant Holds([]) && Stream(Now(), []) == old(Stream(Now(), []))
        invariant Left(bufs, chain) == old(Left(bufs, chain))
        decreases |busy|
      {
        var r := busy[0];
        BusyHead(c, Now());
        if bufs[r].Size() != 0 {
          break;
        }
        if bufs[r].tag != c.tag {
          ForgetKeeps(c, Now());
          busy := busy[1..];
        } else {
          RecycleKeeps(c, Now());
          ghost var was := bufs;
          bufs, busy, free := bufs[r := Reset(bufs[r])], busy[1..], [r] + free;
          LeftSame(was, bufs, chain);
        }
      }
    }

    // The outgoing chain goes to the filter; unless that ends the exchange, busy is brought up to date.
    method HandOver(out: seq<Ref>) returns (rc: Rc)
      requires Holds(out)
      modifies this
      ensures Stream(Now(), []) == old(Stream(Now(), out)) && old(sent) <= sent
      ensures rc.Ok? || rc.Again? ==> Holds([])
      ensures Left(bufs, chain) == old(Left(bufs, chain))
    {
      hide Inv, Stream, Left, Bytes, Distinct, AllValid, OnlyPositions, Taken;
      Outgoing(c, Now(), out);
      ghost var s, k := Now(), 0;
      rc, k := Send(out);
      SentKeeps(c, s, out, bufs, k, sent);
      SentKeys(s.bufs, bufs, s.pending + out);
      SentLeft(c, s, out, bufs);
      StreamBusy(Now(), s.busy + out);
      if rc.Ok? || rc.Again? {
        UpdateChains(out);
      }
    }

    // What a caller may hand over: valid buffers, each once, not already in
    // use here and not marked as temporary buffers of this context.
    ghost predicate Arriving(input: seq<Ref>)
      reads this
    {
      && Distinct(input) && AllValid(bufs, input) && (forall r :: r in input ==> !Tagged(c, bufs, r))
      && Disjoint(input, chain) && Disjoint(input, pending) && Disjoint(input, busy) && Disjoint(input, free)
    }

    // Nothing is queued and at most one buffer arrives: it may go straight on.
    method ShortPath(input: seq<Ref>) returns (done: bool, rc: Rc)
      requires Holds([]) && Arriving(input) && chain == [] && busy == [] && |input| <= 1
      modifies this`bufs, this`pending, this`sent
      ensures done ==> Holds([]) && Stream(Now(), []) == old(Stream(Now(), []) + Bytes(bufs, input))
      ensures !done ==> Inv(c, Now().(chain := input), []) && forall r :: r in bufs ==> r < next
      ensures !done ==> Stream(Now().(chain := input), []) == old(Stream(Now(), []) + Bytes(bufs, input))
      ensures old(sent) <= sent
    {
      hide Inv, Stream, Bytes, AsIs, Distinct, Disjoint, AllValid, Buf.Valid, Buf.Bytes, Suits, Buf.Size,
           OnlyPositions, Taken;
      ArriveKeeps(c, Now(), input);
      assert [] + input == input;
      ghost var s := Now().(chain := input);
      rc, done := Ok, true;
      if input == [] {
        rc := Pass(s, []);
      } else {
        var r := input[0];
        ChainHead(c, s, []);
        var (pass, d) := AsIs(c, bufs[r]);
        AsIsSound(c, bufs[r]);
        TouchKeeps(c, s, [], d);
        bufs := bufs[r := d];
        s := s.(bufs := bufs);
        if pass {
          ChainHead(c, s, []);
          PassKeeps(c, s, []);
          assert [] + [r] == input && s.chain[1..] == [];
          rc := Pass(s.(chain := []), input);
        } else {
          done := false;
        }
      }
    }

    // The filter is given buffers that busy does not list.
    method Pass(ghost s: State, out: seq<Ref>) returns (rc: Rc)
      requires busy == [] && s == Now() && Holds(out) && forall r :: r in out ==> !Tagged(c, bufs, r)
      modifies this`bufs, this`pending, this`sent
      ensures Holds([]) && Stream(Now(), []) == old(Stream(Now(), out))
      ensures old(sent) <= sent
    {
      hide Inv, Stream, Bytes, Distinct, AllValid, OnlyPositions, Taken, Tagged;
      Outgoing(c, s, out);
      ghost var k;
      rc, k := Send(out);
      ShortKeeps(c, s, out, bufs, k, sent);
      SentKeys(s.bufs, bufs, s.pending + out);
    }

    // The filter may go on consuming what it holds between calls.
    method Progress()
      requires Holds([])
      modifies this
      ensures Holds([]) && Stream(Now(), []) == old(Stream(Now(), [])) && old(sent) <= sent
      ensures chain == old(chain) && busy == old(busy) && free == old(free) && made == old(made)
    {
      hide Inv, Stream, Bytes, Distinct, AllValid, OnlyPositions, Taken;
      Outgoing(c, Now(), []);
      ghost var s, k, rc := Now(), 0, Ok;
      rc, k := Send([]);
      SentKeeps(c, s, [], bufs, k, sent);
      SentKeys(s.bufs, bufs, s.pending + []);
      assert s.busy + [] == s.busy;
    }

    /**
     * ngx_output_chain.  Unless it reports an error, every byte is accounted
     * for in order; unless the filter ends the exchange, the context is ready
     * for the next call, and input waits in ctx->in only while every temporary
     * buffer the configuration allows is in use.
     */
    method OutputChain(input: seq<Ref>) returns (rc: Rc)
      requires Holds([]) && Arriving(input)
      modifies this
      ensures !rc.Error? ==> Stream(Now(), []) == old(Stream(Now(), []) + Bytes(bufs, input))
      ensures rc.Ok? || rc.Again? ==> Holds([])
      ensures rc.Ok? ==> chain == []
      ensures rc.Again? && chain != [] ==> free == [] && made == c.num
      ensures !rc.Error? ==> old(sent) <= sent
    {
      hide Inv, Stream, Left, Bytes, AsIs, Distinct, Disjoint, AllValid, Tagged;
      ArriveKeeps(c, Now(), input);
      if chain == [] && busy == [] && |input| <= 1 {
        var done;
        done, rc := ShortPath(input);
        if done {
          return;
        }
      }
      var failed := *;
      if failed {
        return Error;
      }
      assert chain == [] ==> chain + input == input;
      chain := chain + input;
      var first, last := true, Ok;
      while true
        invariant Holds([]) && (last.Ok? || last.Again?)
        invariant Stream(Now(), []) == old(Stream(Now(), []) + Bytes(bufs, input))
        invariant old(sent) <= sent
        decreases Left(bufs, chain), first
      {
        var ok, out := Fill();
        if !ok {
          return Error;
        }
        if out == [] && !first {
          return if chain != [] then Again else last;
        }
        last := HandOver(out);
        if last.Error? || last.Done? {
          return last;
        }
        first := false;
      }
    }

    constructor (c: Config)
      requires c.size >= 1
      ensures this.c == c && Holds([]) && sent == [] && Stream(Now(), []) == []
    {
      this.c, bufs, next := c, map[], 0;
      pending, sent, chain, busy, free, made, owned := [], [], [], [], [], 0, {};
    }

    // A caller fills new buffers of its own.
    method Receive(bs: seq<Buf>) returns (input: seq<Ref>)
      requires Holds([]) && forall b :: b in bs ==> b.Valid() && b.tag != c.tag
      modifies this`bufs, this`next
      ensures Holds([]) && Stream(Now(), []) == old(Stream(Now(), []))
      ensures Arriving(input) && Bytes(bufs, input) == Contents(bs)
    {
      hide Inv, Stream, Buf.Valid, Buf.Bytes, Bytes, Newcomers, Contents;
      ghost var known, s := bufs.Keys, Now();
      NoNewcomers(c, bufs, known);
      input := [];
      for i := 0 to |bs|
        invariant Holds([]) && Stream(Now(), []) == old(Stream(Now(), [])) && known <= bufs.Keys
        invariant Newcomers(c, bufs, input, known)
        invariant Bytes(bufs, input) == Contents(bs[..i])
      {
        ReceiveKeeps(c, Now(), next, bs[i]);
        ReceiveBytes(c, bufs, input, known, next, bs[i]);
        bufs, input, next := bufs[next := bs[i]], input + [next], next + 1;
        ContentsNext(bs, i);
      }
      assert bs[..|bs|] == bs;
      Newcoming(c, s, bufs, input, known);
    }

    /**
     * A whole run: any number of calls, the filter free to work on its own
     * between them.  Until a call reports an error, what the filter consumed,
     * what it holds and what waits in ctx->in make up the input so far.
     */
    method Run(inputs: seq<seq<Buf>>) returns (rc: Rc, calls: nat)
      requires Holds([])
      requires forall bs, b :: bs in inputs && b in bs ==> b.Valid() && b.tag != c.tag
      modifies this
      ensures calls <= |inputs|
      ensures !rc.Error? ==> Stream(Now(), []) == old(Stream(Now(), [])) + AllContents(inputs[..calls])
      ensures rc.Ok? || rc.Again? ==> Holds([]) && calls == |inputs|
    {
      hide Inv, Stream, Buf.Valid, Contents, Bytes;
      calls, rc := 0, Ok;
      while calls < |inputs|
        invariant calls <= |inputs| && Holds([]) && (rc.Ok? || rc.Again?)
        invariant Stream(Now(), []) == old(Stream(Now(), [])) + AllContents(inputs[..calls])
      {
        Progress();
        var input := Receive(inputs[calls]);
        rc := OutputChain(input);
        assert inputs[..calls + 1][..calls] == inputs[..calls];
        calls := calls + 1;
        if rc.Error? || rc.Done? {
          return;
        }
      }
    }
  }

  // New buffers in memory disturb nothing.
  lemma ReceiveKeeps(c: Config, s: State, r: Ref, b: Buf)
    requires Inv(c, s, []) && r !in s.bufs
    ensures Inv(c, s.(bufs := s.bufs[r := b]), [])
    ensures Stream(s.(bufs := s.bufs[r := b]), []) == Stream(s, [])
  {
    hide Flight, Places, Pool, Buf.Valid, Idle, Bytes;
    var m, n := s.bufs, s.bufs[r := b];
    InMemory(c, s, []);
    assert Same(m, n, s.chain) && Same(m, n, s.pending) && Same(m, n, s.busy) && Same(m, n, s.free);
    FlightSame(c, m, n, s.busy, s.pending);
    PoolSame(c, m, n, [], s.busy, s.free, s.made, s.owned);
    BytesSame(m, n, s.chain);
    BytesSame(m, n, s.pending);
    BytesSame(m, n, []);
  }

  // Buffers that a caller has just made.
  ghost predicate Newcomers(c: Config, m: Memory, input: seq<Ref>, known: set<Ref>)
  {
    && known <= m.Keys && Distinct(input) && AllValid(m, input)
    && forall r :: r in input ==> !Tagged(c, m, r) && r !in known
  }

  lemma ReceiveBytes(c: Config, m: Memory, input: seq<Ref>, known: set<Ref>, r: Ref, b: Buf)
    requires Newcomers(c, m, input, known) && r !in m && b.Valid() && b.tag != c.tag
    ensures Newcomers(c, m[r := b], input + [r], known)
    ensures Bytes(m[r := b], input + [r]) == Bytes(m, input) + b.Bytes()
  {
    hide Buf.Valid, Buf.Bytes;
    BytesSame(m, m[r := b], input);
    BytesAppend(m[r := b], input, [r]);
  }

  lemma NoNewcomers(c: Config, m: Memory, known: set<Ref>)
    requires known == m.Keys
    ensures Newcomers(c, m, [], known) && Bytes(m, []) == [] && Contents([]) == []
  {
  }

  lemma Newcoming(c: Config, s: State, m: Memory, input: seq<Ref>, known: set<Ref>)
    requires Inv(c, s, []) && known == s.bufs.Keys && Newcomers(c, m, input, known)
    ensures Distinct(input) && AllValid(m, input) && forall r :: r in input ==> !Tagged(c, m, r)
    ensures Disjoint(input, s.chain) && Disjoint(input, s.pending) && Disjoint(input, s.busy) && Disjoint(input, s.free)
  {
    hide Places, Pool, Buf.Valid, Lag;
    InMemory(c, s, []);
  }

  // The bytes of some buffers, in order.
  ghost function Contents(bs: seq<Buf>): seq<Byte>
  {
    if bs == [] then [] else Contents(bs[..|bs| - 1]) + bs[|bs| - 1].Bytes()
  }

  lemma ContentsNext(bs: seq<Buf>, i: nat)
    requires i < |bs|
    ensures Contents(bs[..i + 1]) == Contents(bs[..i]) + bs[i].Bytes()
  {
    assert bs[..i + 1][..i] == bs[..i];
  }

  ghost function AllContents(inputs: seq<seq<Buf>>): seq<Byte>
  {
    if inputs == [] then [] else AllContents(inputs[..|inputs| - 1]) + Contents(inputs[|inputs| - 1])
  }

  // A caller's buffers join ctx->in.
  lemma ArriveKeeps(c: Config, s: State, input: seq<Ref>)
    requires Inv(c, s, []) && Distinct(input) && AllValid(s.bufs, input)
    requires forall r :: r in input ==> !Tagged(c, s.bufs, r)
    requires Disjoint(input, s.chain) && Disjoint(input, s.pending)
    requires Disjoint(input, s.busy) && Disjoint(input, s.free)
    ensures Inv(c, s.(chain := s.chain + input), [])
    ensures Stream(s.(chain := s.chain + input), []) == Stream(s, []) + Bytes(s.bufs, input)
  {
    hide Flight, Pool, Buf.Valid, Idle, Bytes, At;
    DistinctAppend(s.chain, input);
    BytesAppend(s.bufs, s.chain, input);
  }

  lemma Outgoing(c: Config, s: State, out: seq<Ref>)
    requires Inv(c, s, out)
    ensures Distinct(s.pending + out) && AllValid(s.bufs, s.pending + out)
  {
    hide Buf.Valid, Pool, Lag, At;
    DistinctAppend(s.pending, out);
  }

  lemma StreamBusy(s: State, busy: seq<Ref>)
    ensures Stream(s.(busy := busy), []) == Stream(s, [])
  {
  }

  lemma SentKeys(m: Memory, n: Memory, all: seq<Ref>)
    requires OnlyPositions(m, n, all)
    ensures n.Keys == m.Keys
  {
  }

  lemma SentLeft(c: Config, s: State, out: seq<Ref>, n: Memory)
    requires Inv(c, s, out) && OnlyPositions(s.bufs, n, s.pending + out)
    ensures Left(n, s.chain) == Left(s.bufs, s.chain)
  {
    hide Flight, Pool, Stock, Left, Bytes, OnlyPositions, At;
    MovedKeeps(c, s.bufs, n, s.pending + out);
    LeftSame(s.bufs, n, s.chain);
  }

  lemma BusyHead(c: Config, s: State)
    requires Inv(c, s, []) && s.busy != []
    ensures s.busy[0] in s.bufs && At(s.bufs, s.busy[0]).Valid() && At(s.bufs, s.busy[0]).Size() >= 0
    ensures s.busy[0] !in s.chain
    ensures Stream(s.(busy := s.busy[1..]), []) == Stream(s, [])
  {
  }

  lemma Bounded(c: Config, s: State, out: seq<Ref>)
    requires Inv(c, s, out)
    ensures s.made <= c.num && |s.owned| == s.made
  {
  }

  // However the temporary buffers are spread, there are never more than bufs.num.
  lemma TempBound(c: Config, s: State, out: seq<Ref>, temps: set<Ref>)
    requires Inv(c, s, out)
    requires forall r :: r in temps ==>
      r in s.free || ((r in out || r in s.busy || r in s.pending) && Tagged(c, s.bufs, r))
    ensures |temps| <= c.num
  {
    hide Places, Stock;
    assert temps <= s.owned;
    SubsetSize(temps, s.owned);
  }

  lemma LeftSame(m: Memory, n: Memory, chain: seq<Ref>)
    requires Same(m, n, chain)
    ensures Left(n, chain) == Left(m, chain)
  {
    BytesSame(m, n, chain);
  }

  lemma LeftPop(m: Memory, chain: seq<Ref>)
    requires chain != []
    ensures Left(m, chain[1..]) < Left(m, chain)
  {
  }
}
