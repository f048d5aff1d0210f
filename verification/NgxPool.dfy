/**
 * The pool allocator: a chain of blocks filled from the front, a list of large
 * allocations whose headers come from the pool itself, and arrays that grow in
 * place when they sit last in the pool (ngx_palloc.c, ngx_array.c).
 *
 * Addresses are numbers; sizes are those of a 64-bit build.
 */
module NgxPool {
  import opened Options

  const POOL_HEAD := 80      // sizeof(ngx_pool_t)
  const BLOCK_HEAD := 32     // sizeof(ngx_pool_data_t)
  const LARGE_HEAD := 16     // sizeof(ngx_pool_large_t)
  const ARRAY_HEAD := 40     // sizeof(ngx_array_t)
  const MIN_POOL := 112
  const PAGE := 4096

  type Addr = nat
  type Id = nat

  datatype Block = Block(base: Addr, last: Addr, failed: nat)

  // Memory obtained from the system for one large allocation.
  datatype Chunk = Chunk(start: Addr, len: nat)

  // A header on the large list: where it lies, and the chunk it holds, if any.
  datatype Large = Large(head: Id, chunk: Option<Id>)

  datatype Home = InBlock(i: nat) | InChunk(c: Id)

  // Memory handed out and not yet given back.
  datatype Region = Region(start: Addr, len: nat, home: Home)

  function AlignUp(a: nat): (r: nat)
    ensures r % 8 == 0 && a <= r < a + 8
  {
    (a + 7) / 8 * 8
  }

  function HeadSize(i: nat): nat
  {
    if i == 0 then POOL_HEAD else BLOCK_HEAD
  }

  predicate Apart(a: Addr, m: nat, b: Addr, n: nat)
  {
    a + m <= b || b + n <= a
  }

  // ---- the invariant --------------------------------------------------------

  // Blocks are aligned, filled up to last, and do not overlap.
  ghost predicate BlocksOk(blocks: seq<Block>, psize: nat)
  {
    && |blocks| > 0
    && (forall i :: 0 <= i < |blocks| ==> BlockOk(blocks[i], i, psize))
    && (forall i, j :: 0 <= i < j < |blocks| ==> Apart(blocks[i].base, psize, blocks[j].base, psize))
  }

  ghost predicate BlockOk(b: Block, i: nat, psize: nat)
  {
    b.base % 16 == 0 && b.base + HeadSize(i) <= b.last <= b.base + psize
  }

  ghost predicate ChunksOk(chunks: map<Id, Chunk>, blocks: seq<Block>, psize: nat)
  {
    && (forall c, i :: c in chunks && 0 <= i < |blocks| ==>
          Apart(chunks[c].start, chunks[c].len, blocks[i].base, psize))
    && (forall c, d :: c in chunks && d in chunks && c != d ==>
      Apart(chunks[c].start, chunks[c].len, chunks[d].start, chunks[d].len))
  }

  // Each live region lies in a filled part of its block, behind the header, or is a whole chunk.
  ghost predicate Placed(r: Region, blocks: seq<Block>, chunks: map<Id, Chunk>)
  {
    match r.home
    case InBlock(i) => i < |blocks| && blocks[i].base + HeadSize(i) <= r.start && r.start + r.len <= blocks[i].last
    case InChunk(c) => c in chunks && r.start == chunks[c].start && r.len == chunks[c].len
  }

  ghost predicate LiveOk(live: map<Id, Region>, blocks: seq<Block>, chunks: map<Id, Chunk>)
  {
    && (forall r :: r in live ==> live[r].len > 0 && Placed(live[r], blocks, chunks))
    && (forall r, s :: r in live && s in live && r != s ==>
          Apart(live[r].start, live[r].len, live[s].start, live[s].len))
  }

  ghost predicate NotHead(larges: seq<Large>, id: Id)
  {
    forall k :: 0 <= k < |larges| ==> larges[k].head != id
  }

  predicate IsHead(r: Region)
  {
    r.len == LARGE_HEAD && r.home.InBlock?
  }

  // Headers of the large list are live regions of the pool, and each chunk hangs
  // on exactly one, but for a loose chunk just obtained.
  ghost predicate LargesOk(larges: seq<Large>, live: map<Id, Region>, chunks: map<Id, Chunk>, loose: Option<Id>)
  {
    && (forall k :: 0 <= k < |larges| ==> larges[k].head in live && IsHead(live[larges[k].head]))
    && (forall k :: 0 <= k < |larges| && larges[k].chunk.Some? ==> larges[k].chunk.value in chunks)
    && (forall j, k :: 0 <= j < k < |larges| ==>
      larges[j].head != larges[k].head && (larges[j].chunk.Some? ==> larges[j].chunk != larges[k].chunk))
    && (forall c :: c in chunks ==> loose == Some(c) || exists k :: 0 <= k < |larges| && larges[k].chunk == Some(c))
    && (forall k :: 0 <= k < |larges| && larges[k].chunk.Some? ==> larges[k].chunk != loose)
  }

  // Failure counts do not increase along the chain from current, and every
  // block left behind has failed at least six times.
  ghost predicate FailsOk(blocks: seq<Block>, current: nat)
  {
    && current < |blocks|
    && (forall i :: 0 <= i < current ==> blocks[i].failed >= 6)
    && (forall i, j :: current <= i < j < |blocks| ==> blocks[i].failed >= blocks[j].failed)
  }

  datatype State = State(
    blocks: seq<Block>,
    current: nat,
    larges: seq<Large>,
    chunks: map<Id, Chunk>,
    live: map<Id, Region>,
    loose: Option<Id>)

  ghost predicate Inv(s: State, psize: nat)
  {
    && BlocksOk(s.blocks, psize) && FailsOk(s.blocks, s.current)
    && ChunksOk(s.chunks, s.blocks, psize)
    && LiveOk(s.live, s.blocks, s.chunks)
    && LargesOk(s.larges, s.live, s.chunks, s.loose)
  }

  ghost predicate SizeOk(psize: nat)
  {
    psize % 16 == 0 && psize >= MIN_POOL
  }

  // ---- carving from a block ----------------------------------------------------

  // The bytes from a up to a + n, above last, become a live region of block i.
  lemma CarveKeeps(s: State, psize: nat, i: nat, a: Addr, n: nat, id: Id)
    requires Inv(s, psize) && i < |s.blocks| && s.blocks[i].last <= a && a + n <= s.blocks[i].base + psize && n > 0
    requires id !in s.live
    ensures Inv(s.(blocks := s.blocks[i := s.blocks[i].(last := a + n)],
                   live := s.live[id := Region(a, n, InBlock(i))]), psize)
  {
    var b := s.blocks[i := s.blocks[i].(last := a + n)];
    CarveLive(s, psize, i, a, n, id);
    CarveLarges(s.larges, s.live, s.chunks, s.loose, id, Region(a, n, InBlock(i)));
  }

  lemma CarveLarges(larges: seq<Large>, live: map<Id, Region>, chunks: map<Id, Chunk>, loose: Option<Id>, id: Id,
                    r: Region)
    requires LargesOk(larges, live, chunks, loose) && id !in live
    ensures LargesOk(larges, live[id := r], chunks, loose)
  {
  }

  lemma CarveLive(s: State, psize: nat, i: nat, a: Addr, n: nat, id: Id)
    requires Inv(s, psize) && i < |s.blocks| && s.blocks[i].last <= a && a + n <= s.blocks[i].base + psize && n > 0
    requires id !in s.live
    ensures LiveOk(s.live[id := Region(a, n, InBlock(i))], s.blocks[i := s.blocks[i].(last := a + n)], s.chunks)
  {
    hide LargesOk, FailsOk;
    var blocks, live := s.blocks[i := s.blocks[i].(last := a + n)], s.live[id := Region(a, n, InBlock(i))];
    forall r | r in s.live
      ensures Placed(s.live[r], blocks, s.chunks)
      ensures Apart(s.live[r].start, s.live[r].len, a, n)
    {
      InsideOwn(s, psize, r);
      match s.live[r].home
      case InBlock(j) =>
        if j < i {
          assert Apart(s.blocks[j].base, psize, s.blocks[i].base, psize);
        } else if i < j {
          assert Apart(s.blocks[i].base, psize, s.blocks[j].base, psize);
        }
      case InChunk(c) =>
        assert Apart(s.chunks[c].start, s.chunks[c].len, s.blocks[i].base, psize);
    }
  }

  lemma InsideOwn(s: State, psize: nat, r: Id)
    requires Inv(s, psize) && r in s.live
    ensures match s.live[r].home
      case InBlock(i) =>
        i < |s.blocks| && s.blocks[i].base <= s.live[r].start &&
          s.live[r].start + s.live[r].len <= s.blocks[i].last <= s.blocks[i].base + psize
      case InChunk(c) => c in s.chunks && s.live[r].start == s.chunks[c].start && s.live[r].len == s.chunks[c].len
  {
    hide LargesOk, FailsOk, ChunksOk;
  }

  // ---- other moves ---------------------------------------------------------------

  // The same blocks, filled at least as far.
  ghost predicate Fuller(a: seq<Block>, b: seq<Block>)
  {
    |a| == |b| && forall i :: 0 <= i < |a| ==> b[i].base == a[i].base && b[i].last >= a[i].last
  }

  // Failure counts or padding change; nothing that is live does.
  lemma FullerKeeps(s: State, psize: nat, blocks: seq<Block>, current: nat)
    requires Inv(s, psize) && Fuller(s.blocks, blocks) && FailsOk(blocks, current)
    requires forall i :: 0 <= i < |blocks| ==> blocks[i].last <= blocks[i].base + psize
    ensures Inv(s.(blocks := blocks, current := current), psize)
  {
    hide LargesOk;
    assert forall r :: Placed(r, s.blocks, s.chunks) ==> Placed(r, blocks, s.chunks);
  }

  // A new block, still empty, at the end of the chain.
  lemma AddBlockKeeps(s: State, psize: nat, base: Addr)
    requires Inv(s, psize) && SizeOk(psize) && base % 16 == 0 && Unused(s.blocks, s.chunks, psize, base, psize)
    requires FailsOk(s.blocks + [Block(base, base + BLOCK_HEAD, 0)], s.current)
    ensures Inv(s.(blocks := s.blocks + [Block(base, base + BLOCK_HEAD, 0)]), psize)
  {
    hide LargesOk;
    var blocks := s.blocks + [Block(base, base + BLOCK_HEAD, 0)];
    assert forall r :: Placed(r, s.blocks, s.chunks) ==> Placed(r, blocks, s.chunks);
  }

  // The system has not handed out any of the len bytes at a.
  predicate Unused(blocks: seq<Block>, chunks: map<Id, Chunk>, psize: nat, a: Addr, len: nat)
  {
    && (forall i :: 0 <= i < |blocks| ==> Apart(blocks[i].base, psize, a, len))
    && (forall c :: c in chunks ==> Apart(chunks[c].start, chunks[c].len, a, len))
  }

  // The system hands out a chunk, which hangs on no header yet.
  lemma ObtainKeeps(s: State, psize: nat, a: Addr, len: nat, c: Id)
    requires Inv(s, psize) && s.loose.None? && Unused(s.blocks, s.chunks, psize, a, len) && c !in s.chunks
    ensures Inv(s.(chunks := s.chunks[c := Chunk(a, len)], loose := Some(c)), psize)
  {
    hide FailsOk, BlocksOk, ChunksOk, LiveOk, LargesOk;
    ChunksAdd(s.chunks, s.blocks, psize, a, len, c);
    LiveMore(s.live, s.blocks, s.chunks, c, Chunk(a, len));
    LargesMore(s.larges, s.live, s.chunks, c, Chunk(a, len));
  }

  lemma ChunksAdd(chunks: map<Id, Chunk>, blocks: seq<Block>, psize: nat, a: Addr, len: nat, c: Id)
    requires ChunksOk(chunks, blocks, psize) && Unused(blocks, chunks, psize, a, len) && c !in chunks
    ensures ChunksOk(chunks[c := Chunk(a, len)], blocks, psize)
  {
  }

  lemma LiveMore(live: map<Id, Region>, blocks: seq<Block>, chunks: map<Id, Chunk>, c: Id, d: Chunk)
    requires LiveOk(live, blocks, chunks) && c !in chunks
    ensures LiveOk(live, blocks, chunks[c := d])
  {
    assert forall r :: Placed(r, blocks, chunks) ==> Placed(r, blocks, chunks[c := d]);
  }

  lemma LargesMore(larges: seq<Large>, live: map<Id, Region>, chunks: map<Id, Chunk>, c: Id, d: Chunk)
    requires LargesOk(larges, live, chunks, None) && c !in chunks
    ensures LargesOk(larges, live, chunks[c := d], Some(c))
  {
  }

  // No header could be had: the loose chunk goes back.
  lemma ReturnKeeps(s: State, psize: nat, c: Id)
    requires Inv(s, psize) && s.loose == Some(c) && forall r :: r in s.live ==> s.live[r].home != InChunk(c)
    ensures Inv(s.(chunks := s.chunks - {c}, loose := None), psize)
  {
    hide FailsOk, BlocksOk, ChunksOk, LiveOk, LargesOk;
    ReturnChunks(s.chunks, s.blocks, psize, c);
    ReturnLive(s.live, s.blocks, s.chunks, c);
    ReturnLarges(s.larges, s.live, s.chunks, c);
  }

  lemma ReturnChunks(chunks: map<Id, Chunk>, blocks: seq<Block>, psize: nat, c: Id)
    requires ChunksOk(chunks, blocks, psize)
    ensures ChunksOk(chunks - {c}, blocks, psize)
  {
    hide Apart;
  }

  lemma ReturnLive(live: map<Id, Region>, blocks: seq<Block>, chunks: map<Id, Chunk>, c: Id)
    requires LiveOk(live, blocks, chunks) && forall r :: r in live ==> live[r].home != InChunk(c)
    ensures LiveOk(live, blocks, chunks - {c})
  {
    hide Apart;
  }

  lemma ReturnLarges(larges: seq<Large>, live: map<Id, Region>, chunks: map<Id, Chunk>, c: Id)
    requires LargesOk(larges, live, chunks, Some(c))
    ensures LargesOk(larges, live, chunks - {c}, None)
  {
    hide IsHead;
  }

  // The loose chunk is handed out, hung on some header.
  lemma HangKeeps(s: State, psize: nat, c: Id, id: Id, larges: seq<Large>)
    requires Inv(s, psize) && s.loose == Some(c) && c in s.chunks && s.chunks[c].len > 0 && id !in s.live
    requires forall r :: r in s.live ==> s.live[r].home != InChunk(c)
    requires LargesOk(larges, s.live, s.chunks, None)
    ensures Inv(s.(larges := larges, live := s.live[id := Region(s.chunks[c].start, s.chunks[c].len, InChunk(c))],
                   loose := None), psize)
  {
    hide LargesOk, FailsOk;
    var live := s.live[id := Region(s.chunks[c].start, s.chunks[c].len, InChunk(c))];
    CarveLarges(larges, s.live, s.chunks, None, id, live[id]);
    forall r | r in s.live
      ensures Apart(s.live[r].start, s.live[r].len, s.chunks[c].start, s.chunks[c].len)
    {
      InsideOwn(s, psize, r);
    }
  }

  // An empty header takes the loose chunk.
  lemma SlotLarges(larges: seq<Large>, live: map<Id, Region>, chunks: map<Id, Chunk>, k: nat, c: Id)
    requires LargesOk(larges, live, chunks, Some(c)) && k < |larges| && larges[k].chunk.None? && c in chunks
    ensures LargesOk(larges[k := larges[k].(chunk := Some(c))], live, chunks, None)
  {
    var t := larges[k := larges[k].(chunk := Some(c))];
    forall e | e in chunks
      ensures exists j :: 0 <= j < |t| && t[j].chunk == Some(e)
    {
      if e == c {
        assert t[k].chunk == Some(e);
      } else {
        var j :| 0 <= j < |larges| && larges[j].chunk == Some(e);
        assert t[j].chunk == Some(e);
      }
    }
  }

  // A new header at the front takes the loose chunk.
  lemma PushLarges(larges: seq<Large>, live: map<Id, Region>, chunks: map<Id, Chunk>, head: Id, c: Id)
    requires LargesOk(larges, live, chunks, Some(c)) && c in chunks && head in live && IsHead(live[head])
    requires NotHead(larges, head)
    ensures LargesOk([Large(head, Some(c))] + larges, live, chunks, None)
  {
    var t := [Large(head, Some(c))] + larges;
    forall e | e in chunks
      ensures exists j :: 0 <= j < |t| && t[j].chunk == Some(e)
    {
      if e == c {
        assert t[0].chunk == Some(e);
      } else {
        var j :| 0 <= j < |larges| && larges[j].chunk == Some(e);
        assert t[j + 1].chunk == Some(e);
      }
    }
  }

  ghost function Dropped(live: map<Id, Region>, c: Id): map<Id, Region>
  {
    map r | r in live && live[r].home != InChunk(c) :: live[r]
  }

  // A chunk goes back to the system.
  lemma FreeKeeps(s: State, psize: nat, k: nat)
    requires Inv(s, psize) && s.loose.None? && k < |s.larges| && s.larges[k].chunk.Some?
    ensures var c := s.larges[k].chunk.value;
      Inv(s.(chunks := s.chunks - {c}, larges := s.larges[k := s.larges[k].(chunk := None)],
             live := Dropped(s.live, c)), psize)
  {
    hide FailsOk, BlocksOk, LargesOk;
    FreeLarges(s, psize, k);
  }

  lemma FreeLarges(s: State, psize: nat, k: nat)
    requires Inv(s, psize) && s.loose.None? && k < |s.larges| && s.larges[k].chunk.Some?
    ensures var c := s.larges[k].chunk.value;
      LargesOk(s.larges[k := s.larges[k].(chunk := None)], Dropped(s.live, c), s.chunks - {c}, None)
  {
    hide FailsOk, BlocksOk, LiveOk, ChunksOk;
    var c, t := s.larges[k].chunk.value, s.larges[k := s.larges[k].(chunk := None)];
    forall e | e in s.chunks - {c}
      ensures exists j :: 0 <= j < |t| && t[j].chunk == Some(e)
    {
      var j :| 0 <= j < |s.larges| && s.larges[j].chunk == Some(e);
      assert t[j].chunk == Some(e);
    }
  }

  // ---- the end of the first block --------------------------------------------------

  // A live region that ends where the first block is filled to lies in that block.
  lemma LastIsFirst(s: State, psize: nat, r: Id)
    requires Inv(s, psize) && r in s.live && s.live[r].start + s.live[r].len == s.blocks[0].last
    ensures s.live[r].home == InBlock(0)
  {
    hide LargesOk, FailsOk;
    InsideOwn(s, psize, r);
  }

  // Every other region is clear of the room above such a region's start.
  lemma ClearAbove(s: State, psize: nat, r: Id, q: Id)
    requires Inv(s, psize) && r in s.live && q in s.live && q != r
    requires s.live[r].start + s.live[r].len == s.blocks[0].last
    ensures Apart(s.live[q].start, s.live[q].len, s.live[r].start, s.blocks[0].base + psize - s.live[r].start)
    ensures s.live[q].home == InBlock(0) ==> s.live[q].start + s.live[q].len <= s.live[r].start
  {
    hide LargesOk, FailsOk;
    LastIsFirst(s, psize, r);
    InsideOwn(s, psize, r);
    InsideOwn(s, psize, q);
    match s.live[q].home
    case InBlock(j) =>
      if j > 0 {
        assert Apart(s.blocks[0].base, psize, s.blocks[j].base, psize);
      }
    case InChunk(c) =>
      assert Apart(s.chunks[c].start, s.chunks[c].len, s.blocks[0].base, psize);
  }

  function WithLast(blocks: seq<Block>, last: Addr): seq<Block>
    requires blocks != []
  {
    blocks[0 := blocks[0].(last := last)]
  }

  // The last region of the first block grows by d bytes.
  lemma ExtendKeeps(s: State, psize: nat, r: Id, d: nat)
    requires Inv(s, psize) && r in s.live && s.live[r].start + s.live[r].len == s.blocks[0].last
    requires s.blocks[0].last + d <= s.blocks[0].base + psize && NotHead(s.larges, r)
    ensures Inv(s.(blocks := WithLast(s.blocks, s.blocks[0].last + d),
      live := s.live[r := s.live[r].(len := s.live[r].len + d)]), psize)
  {
    hide FailsOk, LiveOk;
    var blocks := WithLast(s.blocks, s.blocks[0].last + d);
    var live := s.live[r := s.live[r].(len := s.live[r].len + d)];
    LastIsFirst(s, psize, r);
    assert FailsOk(blocks, s.current) by {
      SameFails(s.blocks, blocks, s.current);
    }
    ExtendLive(s, psize, r, d);
  }

  lemma SameFails(a: seq<Block>, b: seq<Block>, current: nat)
    requires FailsOk(a, current) && |a| == |b| && forall i :: 0 <= i < |a| ==> a[i].failed == b[i].failed
    ensures FailsOk(b, current)
  {
  }

  lemma ExtendLive(s: State, psize: nat, r: Id, d: nat)
    requires Inv(s, psize) && r in s.live && s.live[r].start + s.live[r].len == s.blocks[0].last
    requires s.blocks[0].last + d <= s.blocks[0].base + psize
    ensures LiveOk(s.live[r := s.live[r].(len := s.live[r].len + d)], WithLast(s.blocks, s.blocks[0].last + d),
                   s.chunks)
  {
    hide FailsOk, LargesOk, ChunksOk, BlockOk, Apart;
    LastIsFirst(s, psize, r);
    forall q | q in s.live && q != r
      ensures Apart(s.live[q].start, s.live[q].len, s.live[r].start, s.live[r].len + d)
      ensures Apart(s.live[r].start, s.live[r].len + d, s.live[q].start, s.live[q].len)
    {
      ClearPart(s, psize, r, q, d);
    }
  }

  lemma ClearPart(s: State, psize: nat, r: Id, q: Id, d: nat)
    requires Inv(s, psize) && r in s.live && q in s.live && q != r
    requires s.live[r].start + s.live[r].len == s.blocks[0].last
    requires s.blocks[0].last + d <= s.blocks[0].base + psize
    ensures Apart(s.live[q].start, s.live[q].len, s.live[r].start, s.live[r].len + d)
    ensures Apart(s.live[r].start, s.live[r].len + d, s.live[q].start, s.live[q].len)
  {
    hide Inv;
    ClearAbove(s, psize, r, q);
  }

  // The last region of the first block is given back.
  lemma ShrinkKeeps(s: State, psize: nat, r: Id)
    requires Inv(s, psize) && r in s.live && s.live[r].start + s.live[r].len == s.blocks[0].last
    requires NotHead(s.larges, r)
    ensures Inv(s.(blocks := WithLast(s.blocks, s.live[r].start), live := s.live - {r}), psize)
  {
    hide FailsOk, LiveOk;
    var blocks := WithLast(s.blocks, s.live[r].start);
    assert FailsOk(blocks, s.current) by {
      SameFails(s.blocks, blocks, s.current);
    }
    LastIsFirst(s, psize, r);
    assert BlockOk(blocks[0], 0, psize) by {
      ShrinkBlock(s, psize, r);
    }
    ShrinkLive(s, psize, r);
  }

  lemma ShrinkBlock(s: State, psize: nat, r: Id)
    requires Inv(s, psize) && r in s.live && s.live[r].home == InBlock(0)
    ensures BlockOk(s.blocks[0].(last := s.live[r].start), 0, psize)
  {
    hide FailsOk, LargesOk, ChunksOk;
  }

  lemma ShrinkLive(s: State, psize: nat, r: Id)
    requires Inv(s, psize) && r in s.live && s.live[r].start + s.live[r].len == s.blocks[0].last
    ensures LiveOk(s.live - {r}, WithLast(s.blocks, s.live[r].start), s.chunks)
  {
    hide FailsOk, LargesOk, ChunksOk;
    forall q | q in s.live && q != r
      ensures Placed(s.live[q], WithLast(s.blocks, s.live[r].start), s.chunks)
    {
      ClearAbove(s, psize, r, q);
    }
  }

  // ngx_reset_pool: every block is empty again, behind a full pool header.
  function ResetBlocks(blocks: seq<Block>): (r: seq<Block>)
  {
    seq(|blocks|, i requires 0 <= i < |blocks| => Block(blocks[i].base, blocks[i].base + POOL_HEAD, 0))
  }

  lemma ResetKeeps(s: State, psize: nat)
    requires Inv(s, psize) && SizeOk(psize)
    ensures Inv(State(ResetBlocks(s.blocks), 0, [], map[], map[], None), psize)
  {
    hide LargesOk, LiveOk;
    assert LiveOk(map[], ResetBlocks(s.blocks), map[]) && LargesOk([], map[], map[], None) by {
      Nothing(ResetBlocks(s.blocks));
    }
  }

  lemma Nothing(blocks: seq<Block>)
    ensures LiveOk(map[], blocks, map[]) && LargesOk([], map[], map[], None)
  {
  }

  // ---- the pool ------------------------------------------------------------------------

  // The blocks from current up to p have failed once more; next, where the
  // search for room will start, is behind those that had failed too often.
  ghost predicate Bumped(a: seq<Block>, b: seq<Block>, current: nat, p: nat, next: nat)
  {
    && |a| == |b| && current <= next <= p < |a|
    && (forall i :: 0 <= i < |a| ==> b[i] == if current <= i < p then a[i].(failed := a[i].failed + 1) else a[i])
    && (forall i :: current <= i < next ==> a[i].failed > 4)
    && (forall i :: next <= i < p ==> a[i].failed <= 4)
  }

  // Where a block would put the next region, and whether it has the room.
  function Place(b: Block, align: bool): (m: Addr)
  {
    if align then AlignUp(b.last) else b.last
  }

  predicate HasRoom(b: Block, psize: nat, size: nat, align: bool)
  {
    Place(b, align) + size <= b.base + psize
  }

  // A new block has been chained behind the others and serves the request.
  ghost predicate Grown(a: seq<Block>, current: nat, b: seq<Block>, next: nat, p: Addr, size: nat)
  {
    && |b| == |a| + 1 && |a| > 0 && Bumped(a, b[..|a|], current, |a| - 1, next)
    && p == AlignUp(b[|a|].base + BLOCK_HEAD) && b[|a|].last == p + size && b[|a|].failed == 0
  }

  ghost predicate Served(a: seq<Block>, b: seq<Block>, psize: nat, size: nat, align: bool, p: Addr, current: nat,
                         i: nat)
  {
    && current <= i < |a| && HasRoom(a[i], psize, size, align)
    && (forall j :: current <= j < i ==> !HasRoom(a[j], psize, size, align))
    && p == Place(a[i], align) && b == a[i := a[i].(last := p + size)]
  }

  // The first block from current on with room serves the request; only when
  // there is none is a new block made, and the request fails only then.
  ghost predicate Searched(a: seq<Block>, current: nat, b: seq<Block>, next: nat,
                           psize: nat, size: nat, align: bool, p: Option<Addr>)
  {
    if forall i :: current <= i < |a| ==> !HasRoom(a[i], psize, size, align) then
      if p.None? then b == a && next == current else Grown(a, current, b, next, p.value, size)
    else
      p.Some? && next == current && exists i :: Served(a, b, psize, size, align, p.value, current, i)
  }

  lemma BumpedStep(a: seq<Block>, b: seq<Block>, current: nat, p: nat, next: nat)
    requires Bumped(a, b, current, p, next) && p + 1 < |a| && FailsOk(a, current)
    ensures Bumped(a, b[p := b[p].(failed := b[p].failed + 1)], current, p + 1, if b[p].failed > 4 then p + 1 else next)
  {
  }

  lemma BumpedFails(a: seq<Block>, b: seq<Block>, current: nat, next: nat, base: Addr)
    requires |a| > 0 && Bumped(a, b, current, |a| - 1, next) && FailsOk(a, current)
    ensures FailsOk(b, next) && FailsOk(b + [Block(base, base + BLOCK_HEAD, 0)], next) && Fuller(a, b)
  {
  }

  class Pool {
    const psize: nat
    var blocks: seq<Block>
    var current: nat
    var larges: seq<Large>
    var chunks: map<Id, Chunk>
    var nextId: Id               // identities from here on are unused
    var mem: Addr -> bv8
    ghost var live: map<Id, Region>

    ghost function Now(loose: Option<Id>): State
      reads this
    {
      State(blocks, current, larges, chunks, live, loose)
    }

    ghost predicate Holds(loose: Option<Id>)
      reads this
    {
      && SizeOk(psize) && Inv(Now(loose), psize)
      && (forall r :: r in live ==> r < nextId) && (forall c :: c in chunks ==> c < nextId)
    }

    // ngx_create_pool, given the block the system returned.
    constructor (psize: nat, base: Addr)
      requires SizeOk(psize) && base % 16 == 0
      ensures Holds(None) && this.psize == psize && live == map[] && larges == [] && chunks == map[]
      ensures blocks == [Block(base, base + POOL_HEAD, 0)] && current == 0
    {
      this.psize := psize;
      blocks, current, larges, chunks := [Block(base, base + POOL_HEAD, 0)], 0, [], map[];
      nextId, mem, live := 0, (_ => 0 as bv8), map[];
    }

    function Max(): nat
      requires psize >= MIN_POOL
    {
      if psize - POOL_HEAD < PAGE - 1 then psize - POOL_HEAD else PAGE - 1
    }

    // The system returns memory it has not handed out, or none.
    method Obtain(len: nat) returns (a: Option<Addr>)
      ensures a.Some? ==> a.value % 16 == 0 && Unused(blocks, chunks, psize, a.value, len)
    {
      var x: nat := *;
      a := if x % 16 == 0 && Unused(blocks, chunks, psize, x, len) then Some(x) else None;
    }

    // All that was handed out before still is.
    twostate predicate Stays()
      reads this
    {
      && (forall r :: r in old(live) ==> r in live && live[r] == old(live[r]))
      && mem == old(mem) && old(nextId) <= nextId
    }

    twostate predicate Kept()
      reads this
    {
      Stays() && forall r :: r in old(live) && NotHead(old(larges), r) ==> NotHead(larges, r)
    }

    // p is a new region of this size; an empty one takes no room.
    ghost predicate Handed(before: map<Id, Region>, p: Addr, size: nat, id: Id)
      reads this
    {
      size > 0 ==>
        id !in before && id in live && live[id].start == p && live[id].len == size && NotHead(larges, id)
    }

    // Size bytes at m, above the last of block i, are handed out.
    method Carve(i: nat, m: Addr, size: nat, ghost loose: Option<Id>) returns (id: Id)
      requires Holds(loose) && i < |blocks| && blocks[i].last <= m && m + size <= blocks[i].base + psize
      modifies this`blocks, this`live, this`nextId
      ensures Holds(loose) && Kept() && Handed(old(live), m, size, id)
      ensures size > 0 ==> live == old(live)[id := Region(m, size, InBlock(i))]
      ensures size == 0 ==> live == old(live)
      ensures blocks == old(blocks)[i := old(blocks[i]).(last := m + size)]
    {
      hide Inv;
      id := nextId;
      NotAHead(Now(loose), psize, id);
      if size > 0 {
        CarveKeeps(Now(loose), psize, i, m, size, id);
        live := live[id := Region(m, size, InBlock(i))];
      } else {
        SkipKeeps(Now(loose), psize, i, m);
      }
      blocks, nextId := blocks[i := blocks[i].(last := m + size)], nextId + 1;
    }

    // The small case of ngx_palloc and ngx_pnalloc, which differ only in aligning.
    method AllocSmall(size: nat, align: bool, ghost loose: Option<Id>) returns (p: Option<Addr>, id: Id)
      requires Holds(loose) && size <= Max()
      modifies this`blocks, this`current, this`live, this`nextId
      ensures Holds(loose) && Kept() && current >= old(current)
      ensures p.Some? ==> Handed(old(live), p.value, size, id) && (align ==> p.value % 8 == 0)
      ensures p.Some? && size > 0 ==> live == old(live)[id := live[id]] && live[id].home.InBlock?
      ensures p.None? || size == 0 ==> live == old(live)
      ensures Searched(old(blocks), old(current), blocks, current, psize, size, align, p)
    {
      hide Inv, AlignUp, Grown;
      InBlocks(Now(loose), psize);
      var i := current;
      while i < |blocks|
        invariant Now(loose) == old(Now(loose)) && nextId == old(nextId) && current <= i <= |blocks|
        invariant forall j :: current <= j < i ==> !HasRoom(blocks[j], psize, size, align)
      {
        var end := blocks[i].base + psize;
        AlignInside(blocks[i].last, end);
        var m := if align then AlignUp(blocks[i].last) else blocks[i].last;
        if end - m >= size {
          id := Carve(i, m, size, loose);
          assert Served(old(blocks), blocks, psize, size, align, m, old(current), i);
          return Some(m), id;
        }
        i := i + 1;
      }
      p, id := AllocBlock(size, loose);
    }

    // ngx_palloc_block: a new block, once every block from current on has failed.
    method AllocBlock(size: nat, ghost loose: Option<Id>) returns (p: Option<Addr>, id: Id)
      requires Holds(loose) && size <= Max()
      modifies this`blocks, this`current, this`live, this`nextId
      ensures Holds(loose) && Kept() && current >= old(current)
      ensures p.Some? ==> Handed(old(live), p.value, size, id) && p.value % 8 == 0
      ensures p.Some? && size > 0 ==> live == old(live)[id := live[id]] && live[id].home.InBlock?
      ensures p.None? || size == 0 ==> live == old(live)
      ensures if p.None? then blocks == old(blocks) && current == old(current)
              else Grown(old(blocks), old(current), blocks, current, p.value, size)
    {
      hide Inv, Bumped, Fuller, Unused;
      id := 0;
      var base := Obtain(psize);
      if base.None? {
        return None, id;
      }
      ghost var s := Now(loose);
      BumpedNone(s, psize);
      var next: nat, q: nat := current, current;
      while q + 1 < |blocks|
        invariant |blocks| == |s.blocks| && q < |blocks| && Bumped(s.blocks, blocks, s.current, q, next)
        invariant Now(loose) == s.(blocks := blocks) && nextId == old(nextId)
      {
        BumpedStep(s.blocks, blocks, s.current, q, next);
        if blocks[q].failed > 4 {
          next := q + 1;
        }
        blocks := blocks[q := blocks[q].(failed := blocks[q].failed + 1)];
        q := q + 1;
      }
      BumpKeeps(s, psize, blocks, next, base.value);
      ghost var bumped := blocks;
      blocks, current := blocks + [Block(base.value, base.value + BLOCK_HEAD, 0)], next;
      var m := AlignUp(base.value + BLOCK_HEAD);
      id := Carve(|blocks| - 1, m, size, loose);
      assert blocks[..|bumped|] == bumped;
      p := Some(m);
    }

    /**
     * ngx_palloc (aligned) and ngx_pnalloc.  Nothing handed out before is
     * touched, and the new region overlaps none of it.  A large request takes
     * its header from the small case, so the recursion stops there.
     */
    method Alloc(size: nat, align: bool) returns (p: Option<Addr>, id: Id)
      requires Holds(None)
      modifies this
      ensures Holds(None) && Kept() && current >= old(current)
      ensures p.Some? ==> Handed(old(live), p.value, size, id) && (align || size > Max() ==> p.value % 8 == 0)
      ensures size <= Max() ==> Searched(old(blocks), old(current), blocks, current, psize, size, align, p)
      ensures p.None? ==> live == old(live) && larges == old(larges) && chunks == old(chunks)
    {
      hide Searched, Inv, NotHead, LargesOk, Pool.Handed;
      if size <= Max() {
        p, id := AllocSmall(size, align, None);
      } else {
        p, id := AllocLarge(size);
      }
    }

    // ngx_palloc_large: one of the first five headers that is empty, or a new one.
    method AllocLarge(size: nat) returns (p: Option<Addr>, id: Id)
      requires Holds(None) && size > Max()
      modifies this
      ensures Holds(None) && Kept() && current >= old(current)
      ensures p.Some? ==> Handed(old(live), p.value, size, id) && p.value % 8 == 0
      ensures p.None? ==> live == old(live) && larges == old(larges) && chunks == old(chunks)
    {
      hide Inv, LargesOk, Unused, NotHead, Pool.Handed;
      id := 0;
      p := Obtain(size);
      if p.None? {
        return;
      }
      var c := TakeChunk(p.value, size);
      var k := EmptySlot();
      if k < |larges| {
        id := HangInSlot(c, k);
      } else {
        var ok;
        ok, id := HangOnNew(c);
        if !ok {
          p := None;
        }
      }
    }

    // A chunk just obtained is recorded; it hangs on no header yet.
    method TakeChunk(a: Addr, len: nat) returns (c: Id)
      requires Holds(None) && Unused(blocks, chunks, psize, a, len)
      modifies this`chunks, this`nextId
      ensures Holds(Some(c)) && chunks == old(chunks)[c := Chunk(a, len)] && nextId >= old(nextId) && c !in old(chunks)
      ensures forall r :: r in live ==> live[r].home != InChunk(c)
    {
      hide Inv, LargesOk, Unused;
      c := nextId;
      NotInChunk(Now(None), psize, c);
      ObtainKeeps(Now(None), psize, a, len, c);
      chunks, nextId := chunks[c := Chunk(a, len)], nextId + 1;
    }

    // The first of the first five headers that is empty, or the length of the list.
    method EmptySlot() returns (k: nat)
      ensures k <= |larges| && (k < |larges| ==> k < 5 && larges[k].chunk.None?)
      ensures forall j :: 0 <= j < k && j < 5 && k < |larges| ==> larges[j].chunk.Some?
      ensures k == |larges| ==> forall j :: 0 <= j < 5 && j < |larges| ==> larges[j].chunk.Some?
    {
      var n := 0;
      k := 0;
      while k < |larges|
        invariant n == k <= |larges| && k < 5
        invariant forall j :: 0 <= j < k ==> larges[j].chunk.Some?
      {
        if larges[k].chunk.None? {
          return;
        }
        n := n + 1;
        if n > 4 {
          return |larges|;
        }
        k := k + 1;
      }
    }

    method HangInSlot(c: Id, k: nat) returns (id: Id)
      requires Holds(Some(c)) && c in chunks && chunks[c].len > 0 && k < |larges| && larges[k].chunk.None?
      requires forall r :: r in live ==> live[r].home != InChunk(c)
      modifies this`larges, this`live, this`nextId
      ensures Holds(None) && Kept() && Handed(old(live), chunks[c].start, chunks[c].len, id)
    {
      hide Inv, LargesOk, Pool.Handed, NotHead;
      SlotHeads(larges, k, c);
      LargesHold(Now(Some(c)), psize);
      SlotLarges(larges, live, chunks, k, c);
      id := Hang(c, larges[k := larges[k].(chunk := Some(c))]);
    }

    // A new header, from the pool itself, takes the loose chunk; without one the chunk goes back.
    method HangOnNew(c: Id) returns (ok: bool, id: Id)
      requires Holds(Some(c)) && c in chunks && chunks[c].len > 0
      requires forall r :: r in live ==> live[r].home != InChunk(c)
      modifies this
      ensures Holds(None) && Kept() && current >= old(current)
      ensures ok ==> Handed(old(live), old(chunks)[c].start, old(chunks)[c].len, id)
      ensures !ok ==> live == old(live) && larges == old(larges) && chunks == old(chunks) - {c}
    {
      hide Inv, LargesOk, NotHead, Searched;
      var h, head := AllocSmall(LARGE_HEAD, true, Some(c));
      assert forall r :: r in live ==> live[r].home != InChunk(c);
      if h.None? {
        ReturnKeeps(Now(Some(c)), psize, c);
        chunks := chunks - {c};
        return false, 0;
      }
      LargesHold(Now(Some(c)), psize);
      PushLarges(larges, live, chunks, head, c);
      PushHeads(larges, head, c);
      id := Hang(c, [Large(head, Some(c))] + larges);
      ok := true;
    }

    // The loose chunk is handed out, hung on the given headers.
    method Hang(c: Id, larges': seq<Large>) returns (id: Id)
      requires Holds(Some(c)) && c in chunks && chunks[c].len > 0
      requires forall r :: r in live ==> live[r].home != InChunk(c)
      requires LargesOk(larges', live, chunks, None)
      modifies this`larges, this`live, this`nextId
      ensures larges == larges' && Holds(None) && Stays() && Handed(old(live), chunks[c].start, chunks[c].len, id)
    {
      hide Inv;
      id := nextId;
      HeadsLive(larges', live, chunks, None, id);
      HangKeeps(Now(Some(c)), psize, c, id, larges');
      larges, nextId := larges', nextId + 1;
      live := live[id := Region(chunks[c].start, chunks[c].len, InChunk(c))];
    }

    // The last region of the first block grows by d bytes.
    method Stretch(id: Id, d: nat)
      requires Holds(None) && id in live && NotHead(larges, id) && blocks != []
      requires live[id].start + live[id].len == blocks[0].last && blocks[0].last + d <= blocks[0].base + psize
      modifies this`blocks, this`live
      ensures Holds(None) && live == old(live)[id := old(live)[id].(len := old(live)[id].len + d)]
    {
      hide Inv;
      ExtendKeeps(Now(None), psize, id, d);
      live := live[id := live[id].(len := live[id].len + d)];
      blocks := WithLast(blocks, blocks[0].last + d);
    }

    // The last region of the first block is given back.
    method Shrink(id: Id, len: nat)
      requires Holds(None) && id in live && NotHead(larges, id) && blocks != []
      requires live[id].start + live[id].len == blocks[0].last && len == live[id].len
      modifies this`blocks, this`live
      ensures Holds(None) && live == old(live) - {id} && blocks == WithLast(old(blocks), old(blocks)[0].last - len)
    {
      hide Inv;
      ShrinkKeeps(Now(None), psize, id);
      blocks := WithLast(blocks, blocks[0].last - len);
      live := live - {id};
    }

    lemma HasBlock()
      requires Holds(None)
      ensures blocks != []
    {
    }

    // ngx_pfree: gives a large allocation back; anything else is declined.  A
    // null pointer equals any header that was freed before, and changes nothing.
    method Free(p: Option<Addr>) returns (ok: bool)
      requires Holds(None)
      modifies this
      ensures Holds(None) && mem == old(mem)
      ensures ok <==> exists k :: 0 <= k < |old(larges)| && AllocIs(old(larges)[k], old(chunks), p)
      ensures ok && p.Some? ==>
        exists c :: c in old(chunks) && old(chunks)[c].start == p.value && live == Dropped(old(live), c)
      ensures !ok || p.None? ==> live == old(live) && chunks == old(chunks) && larges == old(larges)
    {
      hide Inv;
      var k := 0;
      ok := false;
      while k < |larges|
        invariant k <= |larges| && Holds(None) && live == old(live) && mem == old(mem)
        invariant larges == old(larges) && chunks == old(chunks)
        invariant forall j :: 0 <= j < k ==> !AllocIs(larges[j], chunks, p)
      {
        if AllocIs(larges[k], chunks, p) {
          assert AllocIs(old(larges)[k], old(chunks), p);
          if p.Some? {
            var c := larges[k].chunk.value;
            FreeKeeps(Now(None), psize, k);
            live, chunks, larges := Dropped(live, c), chunks - {c}, larges[k := larges[k].(chunk := None)];
          }
          return true;
        }
        k := k + 1;
      }
    }

    // ngx_reset_pool: large allocations go back, and every block is empty again.
    method Reset()
      requires Holds(None)
      modifies this
      ensures Holds(None) && live == map[] && chunks == map[] && larges == [] && current == 0
      ensures |blocks| == |old(blocks)| && forall i :: 0 <= i < |blocks| ==>
        blocks[i].base == old(blocks)[i].base && blocks[i].last == blocks[i].base + POOL_HEAD && blocks[i].failed == 0
    {
      hide Inv;
      ResetKeeps(Now(None), psize);
      blocks, current, larges, chunks, live := ResetBlocks(blocks), 0, [], map[], map[];
    }
  }

  lemma AlignInside(last: Addr, end: Addr)
    requires last <= end && end % 8 == 0
    ensures AlignUp(last) <= end
  {
  }

  lemma InBlocks(s: State, psize: nat)
    requires Inv(s, psize) && SizeOk(psize)
    ensures s.current < |s.blocks|
    ensures forall i :: 0 <= i < |s.blocks| ==>
      s.blocks[i].last <= s.blocks[i].base + psize && (s.blocks[i].base + psize) % 8 == 0
  {
    hide ChunksOk, LiveOk, LargesOk, Apart, HeadSize;
    forall i | 0 <= i < |s.blocks|
      ensures s.blocks[i].last <= s.blocks[i].base + psize && (s.blocks[i].base + psize) % 8 == 0
    {
      assert BlockOk(s.blocks[i], i, psize);
      EndAligned(s.blocks[i].base, psize);
    }
  }

  lemma EndAligned(base: Addr, psize: nat)
    requires base % 16 == 0 && psize % 16 == 0
    ensures (base + psize) % 8 == 0
  {
    var k := 2 * (base / 16) + 2 * (psize / 16);
    assert base + psize == 8 * k;
    EightTimes(k);
  }

  lemma EightTimes(k: nat)
    ensures 8 * k % 8 == 0
  {
  }

  lemma BumpedNone(s: State, psize: nat)
    requires Inv(s, psize)
    ensures s.current < |s.blocks| && Bumped(s.blocks, s.blocks, s.current, s.current, s.current)
    ensures FailsOk(s.blocks, s.current)
  {
  }

  lemma BumpKeeps(s: State, psize: nat, blocks: seq<Block>, next: nat, base: Addr)
    requires Inv(s, psize) && SizeOk(psize) && |s.blocks| > 0
    requires Bumped(s.blocks, blocks, s.current, |s.blocks| - 1, next)
    requires base % 16 == 0 && Unused(s.blocks, s.chunks, psize, base, psize)
    ensures next >= s.current && Inv(s.(blocks := blocks + [Block(base, base + BLOCK_HEAD, 0)], current := next), psize)
  {
    hide LargesOk, LiveOk, ChunksOk;
    BumpedFails(s.blocks, blocks, s.current, next, base);
    FullerKeeps(s, psize, blocks, next);
    AddBlockKeeps(s.(blocks := blocks, current := next), psize, base);
  }

  // What a large header points to, which is nothing once it has been freed.
  predicate AllocIs(l: Large, chunks: map<Id, Chunk>, p: Option<Addr>)
  {
    match l.chunk
    case None => p.None?
    case Some(c) => c in chunks && p == Some(chunks[c].start)
  }

  lemma LargesHold(s: State, psize: nat)
    requires Inv(s, psize)
    ensures LargesOk(s.larges, s.live, s.chunks, s.loose)
  {
  }

  lemma HeadsLive(larges: seq<Large>, live: map<Id, Region>, chunks: map<Id, Chunk>, loose: Option<Id>, id: Id)
    requires LargesOk(larges, live, chunks, loose) && id !in live
    ensures NotHead(larges, id)
  {
  }

  lemma SlotHeads(larges: seq<Large>, k: nat, c: Id)
    requires k < |larges|
    ensures forall r :: NotHead(larges, r) ==> NotHead(larges[k := larges[k].(chunk := Some(c))], r)
  {
  }

  lemma PushHeads(larges: seq<Large>, head: Id, c: Id)
    ensures forall r :: NotHead(larges, r) && r != head ==> NotHead([Large(head, Some(c))] + larges, r)
  {
  }

  lemma NotInChunk(s: State, psize: nat, c: Id)
    requires Inv(s, psize) && c !in s.chunks
    ensures forall r :: r in s.live ==> s.live[r].home != InChunk(c)
  {
    hide LargesOk, FailsOk, ChunksOk;
  }

  lemma SkipKeeps(s: State, psize: nat, i: nat, m: Addr)
    requires Inv(s, psize) && i < |s.blocks| && s.blocks[i].last <= m <= s.blocks[i].base + psize
    ensures Inv(s.(blocks := s.blocks[i := s.blocks[i].(last := m)]), psize)
  {
    hide LargesOk, LiveOk, ChunksOk;
    var blocks := s.blocks[i := s.blocks[i].(last := m)];
    SameFails(s.blocks, blocks, s.current);
    FullerKeeps(s, psize, blocks, s.current);
  }

  lemma NotAHead(s: State, psize: nat, id: Id)
    requires Inv(s, psize) && id !in s.live
    ensures NotHead(s.larges, id)
  {
  }
}
