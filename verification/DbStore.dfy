/** The library as one process runs it: the DB structure, its two files and
    the calls that work on them. */
module DbStore {
  import opened Options
  import opened DbFormat
  import opened DbLayout
  import opened DbWorld
  import opened DbMoves
  import opened DbSpec
  import opened DbProtocol
  import opened DbInvariant
  import opened DbSerial
  import opened DbSteps
  import opened DbWrites
  import opened DbTheorems

  /** The chains other than h hold their part of view. */
  ghost predicate Others(w: World, dat: string, view: Map, h: nat)
  {
    |w.chains| == NHASH && forall j :: 0 <= j < NHASH && j != h ==> ChainSound(w, dat, view, j)
  }

  /** All chains and the free list are sound. */
  ghost predicate Steady(idx: string, dat: string, w: World, view: Map)
  {
    && Core(idx, dat, w) && FreeSound(w) && |w.chains| == NHASH
    && (forall h :: 0 <= h < NHASH ==> ChainSound(w, dat, view, h))
  }

  /** At most record x and a segment are in the hands of the running call. */
  ghost predicate HeldOnly(w: World, x: nat)
  {
    && (forall y :: y in w.place && w.place[y].Held? ==> y == x && w.place[y] == Held(0))
    && (forall q :: q in w.flight ==> q == 0)
  }

  ghost predicate Handless(w: World) { (forall x :: x in w.place ==> !w.place[x].Held?) && w.flight == map[] }

  /** Between calls: the chains and the free list are sound, they cover every
      record, and the chains hold exactly view. */
  ghost predicate Sound(idx: string, dat: string, w: World, view: Map)
  {
    Steady(idx, dat, w, view) && Handless(w)
  }

  /** A free record whose key and data have the given lengths. */
  ghost predicate Fits(w: World, i: nat, keylen: nat, len: nat)
    requires i < |w.free|
  {
    w.free[i] in w.img.recs && |w.img.recs[w.free[i]].key| == keylen && w.img.recs[w.free[i]].datlen == len
  }

  ghost predicate NoFit(w: World, keylen: nat, len: nat)
  {
    forall i :: 0 <= i < |w.free| ==> !Fits(w, i, keylen, len)
  }

  /** The store has to append a new record. */
  ghost predicate Appends(w: World, view: Map, key: string, data: string, flag: int)
  {
    if key in view then flag != DB_INSERT && |view[key]| != |data|
    else flag != DB_REPLACE && NoFit(w, |key|, |data| + 1)
  }

  /** An appended record would exceed the record length or file offset limits. */
  predicate TooBig(idx: string, dat: string, key: string, data: string)
  {
    !Printable(Rec(key, |dat|, |data| + 1)) || |idx| > PTR_MAX
  }

  /** The store ends the process: data of illegal length, or a failing append. */
  ghost predicate StoreDies(idx: string, dat: string, w: World, view: Map, key: string, data: string, flag: int)
  {
    && !BadFlag(Store(key, data, flag))
    && (|| !(DATLEN_MIN <= |data| + 1 <= DATLEN_MAX)
        || (Appends(w, view, key, data, flag) && TooBig(idx, dat, key, data)))
  }

  datatype Outcome = Return(rc: int) | Dead

  class Db {
    // the files, and the offset of the index file descriptor
    var idx: string
    var dat: string
    var pos: nat

    // the DB structure
    var idxbuf: string
    var datbuf: string
    var idxoff: nat
    var idxlen: nat
    var datoff: nat
    var datlen: nat
    var ptrval: nat
    var ptroff: nat
    var chainoff: nat

    // the logical contents
    ghost var w: World
    ghost var view: Map

    ghost predicate Valid()
      reads this
    {
      Sound(idx, dat, w, view)
    }

    /** db_open on new files: an empty free list and empty chains. */
    constructor ()
      ensures Valid() && view == map[] && pos == RECS_OFF
    {
      idx, dat, pos, idxbuf, datbuf := [], [], 0, [], [];
      idxoff, idxlen, datoff, datlen, ptrval, ptroff, chainoff := 0, 0, 0, 0, 0, 0, 0;
      w, view := EmptyWorld(), map[];
      new;
      hide Core, FreeSound, ChainSound;
      var hash := [];
      for i := 0 to NHASH + 1
        invariant hash == ZeroPtrs(i)
      {
        hash := hash + Pad(0, PTR_SZ);
      }
      idx := hash + "\n";
      EmptyCore(idx, dat);
      Rewind();
    }

    // ------------------------------------------------------- reading the files

    method ReadPtr(offset: nat) returns (v: nat)
      requires Laid(idx, w.img) && offset in w.img.ptrs
      modifies this`pos
      ensures v == w.img.ptrs[offset] && pos == offset + PTR_SZ
    {
      hide Shape;
      ReadPtrAt(idx, w.img, offset);
      v := Atol(idx[offset..offset + PTR_SZ]);
      pos := offset + PTR_SZ;
    }

    /** Reads the record at offset, or at the current position for offset 0;
        returns -1 at the end of the file. */
    method ReadIdx(offset: nat) returns (next: int)
      requires Laid(idx, w.img)
      requires if offset == 0 then Boundary(w.img.recs, w.img.end, pos) else offset in w.img.recs
      modifies this`pos, this`idxoff, this`ptrval, this`idxlen, this`idxbuf, this`datoff, this`datlen
      ensures next == -1 <==> offset == 0 && old(pos) == |idx|
      ensures next == -1 ==> pos == old(pos)
      ensures next != -1 ==>
        && idxoff == (if offset == 0 then old(pos) else offset) && idxoff in w.img.recs && idxoff in w.img.ptrs
        && next == ptrval == w.img.ptrs[idxoff]
        && Rec(idxbuf, datoff, datlen) == w.img.recs[idxoff]
        && pos == idxoff + RecSize(w.img.recs[idxoff])
    {
      hide Body, ParseBody, Atol, Laid, Shape;
      idxoff := if offset == 0 then pos else offset;
      LaidEnd(idx, w.img);
      if offset == 0 && idxoff == |idx| {
        return -1;
      }
      ReadRecAt(idx, w.img, idxoff);
      RecHasPtr(w.img, idxoff);
      ptrval := Atol(idx[idxoff..idxoff + PTR_SZ]);
      idxlen := Atol(idx[idxoff + PTR_SZ..idxoff + HDR_SZ]);
      var r := ParseBody(idx[idxoff + HDR_SZ..idxoff + HDR_SZ + idxlen]).value;
      idxbuf, datoff, datlen := r.key, r.datoff, r.datlen;
      pos := idxoff + HDR_SZ + idxlen;
      next := ptrval;
    }

    method ReadDat(ghost x: nat) returns (s: string)
      requires Core(idx, dat, w) && x in w.img.recs
      requires w.img.recs[x].datoff == datoff && w.img.recs[x].datlen == datlen
      modifies this`datbuf
      ensures s == Contents(dat, w.img.recs[x]) && datbuf == s
    {
      hide Laid, Partition;
      assert SegIn(dat, w.img.recs[x]);
      datbuf := dat[datoff..datoff + datlen - 1];
      s := datbuf;
    }

    // ------------------------------------------------------- writing the files

    /** Returns false where the source ends the process. */
    method WritePtr(offset: nat, v: nat) returns (ok: bool)
      requires offset <= |idx|
      modifies this`idx, this`pos
      ensures ok <==> v <= PTR_MAX
      ensures idx == if ok then Splice(old(idx), offset, Pad(v, PTR_SZ)) else old(idx)
    {
      ok := v <= PTR_MAX;
      if ok {
        idx := Splice(idx, offset, Pad(v, PTR_SZ));
        pos := offset + PTR_SZ;
      }
    }

    /** Returns false where the source ends the process. */
    method WriteIdx(key: string, offset: nat, append: bool, ptr: nat) returns (ok: bool)
      requires offset <= |idx|
      modifies this`idx, this`pos, this`idxoff, this`ptrval, this`idxbuf
      ensures ok <==> ptr <= PTR_MAX && Printable(Rec(key, datoff, datlen))
      ensures ok ==> idxoff == (if append then |old(idx)| else offset)
      ensures ok ==> idx == Splice(old(idx), idxoff, RecBytes(ptr, Rec(key, datoff, datlen)))
      ensures !ok ==> idx == old(idx)
    {
      var r := Rec(key, datoff, datlen);
      ok := ptr <= PTR_MAX && Printable(r);
      if ok {
        ptrval, idxbuf := ptr, Body(r);
        idxoff := if append then |idx| else offset;
        var s := RecBytes(ptr, r);
        idx := Splice(idx, idxoff, s);
        pos := idxoff + |s|;
      }
    }

    method WriteDat(data: string, offset: nat, append: bool)
      requires offset <= |dat|
      modifies this`dat, this`datoff, this`datlen
      ensures datoff == (if append then |old(dat)| else offset) && datlen == |data| + 1
      ensures dat == Splice(old(dat), datoff, data + "\n")
    {
      datoff := if append then |dat| else offset;
      datlen := |data| + 1;
      dat := Splice(dat, datoff, data + "\n");
    }

    // ------------------------------------------------------------ the library

    /** _db_find_and_lock: walks the key's chain; k is where the walk stopped. */
    method FindAndLock(key: string) returns (found: bool, ghost k: nat)
      requires Valid()
      modifies this`pos, this`idxoff, this`ptrval, this`idxlen, this`idxbuf, this`datoff, this`datlen
      modifies this`ptroff, this`chainoff
      ensures chainoff == ChainLoc(Hash(key)) && k <= |w.chains[Hash(key)]|
      ensures found <==> k < |w.chains[Hash(key)]|
      ensures found <==> key in view
      ensures found ==> Located(Hash(key), k) && idxbuf == key && view[key] == Contents(dat, w.img.recs[idxoff])
    {
      hide Core, FreeSound, Laid, Shape, ListHolds, Contents, Hash, RecSize;
      ghost var h := Hash(key);
      ghost var chain := w.chains[h];
      ChainCount(idx, dat, w);
      assert ChainSound(w, dat, view, h);
      chainoff := ChainLoc(Hash(key));
      ptroff := chainoff;
      ChainSlot(w.img, h);
      var offset := ReadPtr(ptroff);
      k := 0;
      found := false;
      while offset != 0
        invariant chainoff == ChainLoc(h) && k <= |chain| && ptroff == Pred(chainoff, chain, k)
        invariant offset == if k < |chain| then chain[k] else 0
        invariant forall i :: 0 <= i < k ==> chain[i] in w.img.recs && w.img.recs[chain[i]].key != key
        decreases |chain| - k
      {
        HoldsAt(w.img.recs, dat, chain, view, h, k);
        var next := ReadIdx(offset);
        if idxbuf == key {
          found := true;
          break;
        }
        LinksNext(w.img.ptrs, ChainLoc(h), chain, k + 1);
        ptroff, offset := offset, next;
        k := k + 1;
      }
      if !found { NotOnChain(w, dat, view, key); }
    }

    /** The DB structure describes the k-th record of chain h. */
    ghost predicate Located(h: nat, k: nat)
      reads this
    {
      && h < |w.chains| && k < |w.chains[h]|
      && idxoff == w.chains[h][k] && ptroff == Pred(ChainLoc(h), w.chains[h], k)
      && idxoff in w.img.recs && idxoff in w.img.ptrs && ptrval == w.img.ptrs[idxoff]
      && w.img.recs[idxoff] == Rec(idxbuf, datoff, datlen)
    }

    /** db_fetch. */
    method Fetch(key: string) returns (r: Result)
      requires Valid()
      modifies this
      ensures Valid() && idx == old(idx) && dat == old(dat) && w == old(w)
      ensures (view, r) == Apply(DbSpec.Fetch(key), old(view))
    {
      hide Sound, Core, Laid, FreeSound, Hash, Contents;
      var found, k := FindAndLock(key);
      if !found {
        r := Null;
      } else {
        SoundCore(idx, dat, w, view);
        var s := ReadDat(idxoff);
        r := Data(s);
      }
    }

    /** db_delete. */
    method Delete(key: string) returns (rc: int)
      requires Valid()
      modifies this
      ensures Valid()
      ensures (view, Rc(rc)) == Apply(DbSpec.Delete(key), old(view))
    {
      hide Sound, Hash, Contents, Deleted;
      rc := 0;
      var found, k := FindAndLock(key);
      if found {
        DoDelete(Hash(key), k);
      } else {
        rc := -1;
      }
    }

    /** _db_dodelete: blanks the record's data and key in place, moves the
        record to the front of the free list and takes it off its chain. */
    method DoDelete(ghost h: nat, ghost k: nat)
      requires Valid() && h < NHASH && Located(h, k)
      modifies this
      ensures Valid() && view == old(view) - {old(idxbuf)} && w == Deleted(old(w), h, k)
      ensures |idx| == |old(idx)| && |dat| == |old(dat)| && chainoff == old(chainoff)
    {
      hide Sound, Deleted, Splice, RecBytes, Pad, Blanks, Body, Laid, Core, FreeSound;
      ghost var key := idxbuf;
      SoundCore(idx, dat, w, view);
      DeleteAll(idx, dat, w, view, h, k);
      datbuf := Blanks(datlen - 1);
      idxbuf := Blanks(|idxbuf|);
      WriteDat(datbuf, datoff, false);
      var freeptr := ReadPtr(FREE_OFF);
      var saveptr := ptrval;
      var ok := WriteIdx(idxbuf, idxoff, false, freeptr);
      ok := WritePtr(FREE_OFF, idxoff);
      ok := WritePtr(ptroff, saveptr);
      w, view := Deleted(w, h, k), view - {key};
    }

    /** _db_findfree: takes the first free record of the right sizes. */
    method FindFree(keylen: nat, len: nat) returns (found: bool, ghost k: nat)
      requires Valid()
      modifies this
      ensures dat == old(dat) && view == old(view) && chainoff == old(chainoff) && |idx| == |old(idx)|
      ensures found <==> !NoFit(old(w), keylen, len)
      ensures !found ==> idx == old(idx) && w == old(w)
      ensures found ==> k < |old(w.free)| && Fits(old(w), k, keylen, len) && idxoff == old(w.free)[k] <= PTR_MAX
      ensures found ==> idxoff in old(w.img.ptrs) && forall i :: 0 <= i < k ==> !Fits(old(w), i, keylen, len)
      ensures found ==> w == old(w).PopFree(k, 0).SetPtr(Pred(FREE_OFF, old(w.free), k), old(w.img.ptrs)[idxoff])
      ensures found ==> Steady(idx, dat, w, view) && InHand(w, idxoff) && w.flight == map[]
      ensures found ==> w.img.recs[idxoff].datoff == datoff && w.img.recs[idxoff].datlen == datlen == len
    {
      hide Sound, Steady, InHand, Core, Laid, Splice, Pad, RecSize, FreeSound;
      SoundCore(idx, dat, w, view);
      var saveoffset := FREE_OFF;
      FreeNext(w, 0);
      var offset := ReadPtr(saveoffset);
      k := 0;
      found := false;
      while offset != 0
        invariant idx == old(idx) && dat == old(dat) && w == old(w) && view == old(view)
        invariant chainoff == old(chainoff)
        invariant k <= |w.free| && saveoffset == Pred(FREE_OFF, w.free, k)
        invariant offset == (if k < |w.free| then w.free[k] else 0) && (k < |w.free| ==> offset > 0)
        invariant forall i :: 0 <= i < k ==> !Fits(w, i, keylen, len)
        decreases |w.free| - k
      {
        FreeMember(idx, dat, w, k);
        var next := ReadIdx(offset);
        if |idxbuf| == keylen && datlen == len {
          found := true;
          break;
        }
        FreeNext(w, k + 1);
        saveoffset, offset := offset, next;
        k := k + 1;
      }
      if found {
        assert Fits(w, k, keylen, len);
        InsertPop(idx, dat, w, view, k);
        SoundEnd(idx, dat, w, view);
        var ok := WritePtr(saveoffset, ptrval);
        w := w.PopFree(k, 0).SetPtr(saveoffset, ptrval);
        SteadyEnd(idx, dat, w, view);
      }
    }

    /** Appends data and index records and links them at the head of the chain;
        returns false where the source ends the process. */
    method AppendNew(key: string, data: string, ptr: nat) returns (ok: bool)
      requires Valid() && ValidKey(key) && key !in view && DATLEN_MIN <= |data| + 1 <= DATLEN_MAX
      requires chainoff == ChainLoc(Hash(key)) && ptr == Head(w.chains[Hash(key)])
      modifies this
      ensures ok <==> !TooBig(old(idx), old(dat), key, data)
      ensures ok ==> Valid() && view == old(view)[key := data]
    {
      hide Sound, Splice, Pad, RecBytes, Hash, Printable, Body, Laid;
      HeadBounded(idx, dat, w, view, Hash(key));
      ghost var r := Rec(key, |dat|, |data| + 1);
      WriteDat(data, 0, true);
      if Printable(r) { AppendAll(idx, old(dat), w, view, key, data); }
      ok := WriteIdx(key, 0, true, ptr);
      if !ok { return; }
      ok := WritePtr(chainoff, idxoff);
      if ok {
        w := w.AppendSeg(0, r).AppendRec(0, ptr, r).PushChain(Hash(key), idxoff).SetPtr(chainoff, idxoff);
        view := view[key := data];
      }
    }

    /** db_store. */
    method Store(key: string, data: string, flag: int) returns (r: Outcome)
      requires Valid() && ValidKey(key)
      modifies this
      ensures r.Dead? <==> StoreDies(old(idx), old(dat), old(w), old(view), key, data, flag)
      ensures r.Return? ==> Valid() && (view, Rc(r.rc)) == Apply(DbSpec.Store(key, data, flag), old(view))
    {
      hide Sound, Hash, Contents, NoFit, Printable;
      if flag != DB_INSERT && flag != DB_REPLACE && flag != DB_STORE {
        return Return(-1);
      }
      var len := |data| + 1;
      if len < DATLEN_MIN || len > DATLEN_MAX {
        return Dead;
      }
      var found, k := FindAndLock(key);
      if !found {
        if flag == DB_REPLACE {
          return Return(-1);
        }
        r := StoreNew(key, data);
      } else {
        if flag == DB_INSERT {
          return Return(1);
        }
        r := StoreOver(key, data, k);
      }
    }

    /** The part of db_store that replaces an existing record. */
    method StoreOver(key: string, data: string, ghost k: nat) returns (r: Outcome)
      requires Valid() && ValidKey(key) && key in view && Located(Hash(key), k) && idxbuf == key
      requires chainoff == ChainLoc(Hash(key)) && view[key] == Contents(dat, w.img.recs[idxoff])
      requires DATLEN_MIN <= |data| + 1 <= DATLEN_MAX
      modifies this
      ensures r.Dead? <==> |old(view)[key]| != |data| && TooBig(old(idx), old(dat), key, data)
      ensures r.Return? ==> Valid() && view == old(view)[key := data] && r.rc == 0
    {
      hide Sound, Hash, Contents, Deleted, Printable, Laid, Core, FreeSound, Splice;
      SoundCore(idx, dat, w, view);
      ContentsLength(idx, dat, w, idxoff);
      if |data| + 1 != datlen {
        DoDelete(Hash(key), k);
        HeadBounded(idx, dat, w, view, Hash(key));
        var ptr := ReadPtr(chainoff);
        var ok := AppendNew(key, data, ptr);
        assert ok ==> view == old(view)[key := data];
        r := if ok then Return(0) else Dead;
      } else {
        OverwriteStep(idx, dat, w, view, Hash(key), k, data);
        WriteDat(data, datoff, false);
        view := view[key := data];
        r := Return(0);
      }
    }

    /** The part of db_store for a key that is not in the database. */
    method StoreNew(key: string, data: string) returns (r: Outcome)
      requires Valid() && ValidKey(key) && key !in view && chainoff == ChainLoc(Hash(key))
      requires DATLEN_MIN <= |data| + 1 <= DATLEN_MAX
      modifies this
      ensures r.Dead? <==> NoFit(old(w), |key|, |data| + 1) && TooBig(old(idx), old(dat), key, data)
      ensures r.Return? ==> Valid() && view == old(view)[key := data] && r.rc == 0
    {
      hide Sound, Hash, Contents, NoFit, Printable, Fits, Splice, Pad, RecBytes, Steady, InHand, Laid, FreeSound;
      HeadBounded(idx, dat, w, view, Hash(key));
      var ptr := ReadPtr(chainoff);
      var found, k := FindFree(|key|, |data| + 1);
      if !found {
        var ok := AppendNew(key, data, ptr);
        r := if ok then Return(0) else Dead;
      } else {
        FitsKey(old(w), k, |key|, |data| + 1);
        ReuseAll(idx, dat, w, view, idxoff, key, data, ptr);
        ghost var x := idxoff;
        WriteDat(data, datoff, false);
        var ok := WriteIdx(key, idxoff, false, ptr);
        ok := WritePtr(chainoff, idxoff);
        w := w.SetRec(x, ptr, w.img.recs[x].(key := key)).PushChain(Hash(key), x).SetPtr(chainoff, x);
        view := view[key := data];
        r := Return(0);
      }
    }

    // ------------------------------------------------------ reading everything

    /** db_rewind. */
    method Rewind()
      modifies this`pos, this`idxoff
      ensures pos == idxoff == RECS_OFF
    {
      pos := (NHASH + 1) * PTR_SZ + 1;
      idxoff := pos;
    }

    /** db_nextrec: the next record in file order whose key is not blank. */
    method NextRec() returns (r: Option<(string, string)>)
      requires Valid() && Boundary(w.img.recs, w.img.end, pos)
      modifies this`pos, this`idxoff, this`ptrval, this`idxlen, this`idxbuf, this`datoff, this`datlen, this`datbuf
      ensures Boundary(w.img.recs, w.img.end, pos) && old(pos) <= pos
      ensures r.None? ==> pos == |idx| && BlankBetween(w.img.recs, old(pos), |idx|)
      ensures r.Some? ==>
        && idxoff in w.img.recs && old(pos) <= idxoff && pos == idxoff + RecSize(w.img.recs[idxoff])
        && BlankBetween(w.img.recs, old(pos), idxoff)
        && !AllBlank(w.img.recs[idxoff].key)
        && r.value == (w.img.recs[idxoff].key, Contents(dat, w.img.recs[idxoff]))
    {
      hide Sound, Core, Laid, FreeSound, RecSize, Contents, Tiled, Sized;
      SoundCore(idx, dat, w, view);
      LaidEnd(idx, w.img);
      var blank := true;
      while blank
        invariant Boundary(w.img.recs, w.img.end, pos) && old(pos) <= pos
        invariant blank ==> BlankBetween(w.img.recs, old(pos), pos)
        invariant !blank ==> idxoff in w.img.recs && old(pos) <= idxoff && pos == idxoff + RecSize(w.img.recs[idxoff])
        invariant !blank ==> BlankBetween(w.img.recs, old(pos), idxoff) && !AllBlank(idxbuf)
        invariant !blank ==> w.img.recs[idxoff] == Rec(idxbuf, datoff, datlen)
        decreases blank, |idx| - pos
      {
        ghost var before := pos;
        var next := ReadIdx(0);
        if next < 0 {
          return None;
        }
        NextBoundary(w.img, idxoff);
        var i := 0;
        while i < |idxbuf| && idxbuf[i] == ' '
          invariant i <= |idxbuf| && forall j :: 0 <= j < i ==> idxbuf[j] == ' '
        {
          i := i + 1;
        }
        blank := i == |idxbuf|;
        if blank { BlankNext(w.img, old(pos), idxoff); }
      }
      var s := ReadDat(idxoff);
      r := Some((idxbuf, s));
    }

    /** A rewind followed by uninterrupted db_nextrec calls returns every key
        of the database that is not blank, with its data, exactly once. */
    method Scan() returns (out: seq<(string, string)>)
      requires Valid()
      modifies this`pos, this`idxoff, this`ptrval, this`idxlen, this`idxbuf, this`datoff, this`datlen, this`datbuf
      ensures forall i, j :: 0 <= i < j < |out| ==> out[i].0 != out[j].0
      ensures forall i :: 0 <= i < |out| ==>
        out[i].0 in view && view[out[i].0] == out[i].1 && !AllBlank(out[i].0)
      ensures forall k :: k in view && !AllBlank(k) ==> (k, view[k]) in out
    {
      hide Sound, Laid, AllBlank, BlankBetween, RecSize, Contents, Shape, Core, FreeSound, Listed;
      SoundCore(idx, dat, w, view);
      LaidEnd(idx, w.img);
      Rewind();
      out := [];
      ghost var offs: seq<nat> := [];
      ListedNone(w.img, dat);
      var more := true;
      while more
        invariant Boundary(w.img.recs, w.img.end, pos) && (!more ==> pos == |idx|)
        invariant |offs| == |out| && Listed(w.img.recs, dat, offs, out, pos)
        decreases more, |idx| - pos
      {
        ghost var before := pos;
        var r := NextRec();
        match r {
          case None =>
            more := false;
            ListedSkip(w.img.recs, dat, offs, out, before, pos);
          case Some(kv) =>
            ListedMore(w.img, dat, offs, out, before, idxoff);
            offs, out := offs + [idxoff], out + [kv];
            NextBoundary(w.img, idxoff);
        }
      }
      ScanComplete(idx, dat, w, view, offs, out);
    }
  }

  lemma OthersKept(a: Auth, w: World, dat: string, view: Map, w': World, dat': string, view': Map, h: nat)
    requires Permitted(a, w, dat, view, w', dat', view') && (a.chain.None? || a.chain == Some(h))
    requires Others(w, dat, view, h) && |w'.chains| == NHASH
    ensures Others(w', dat', view', h)
  {
    hide ChainSound, ChainSame, SameOn, FreeSame, HandsSame, FlightSame, SizesSame;
    forall j | 0 <= j < NHASH && j != h ensures ChainSound(w', dat', view', j) {
      SoundFrame(w, dat, view, w', dat', view', j);
    }
  }

  lemma SteadyKept(a: Auth, idx: string, dat: string, w: World, view: Map, idx': string, dat': string, w': World)
    requires Permitted(a, w, dat, view, w', dat', view) && a.chain.None?
    requires Steady(idx, dat, w, view) && Core(idx', dat', w') && (a.free ==> FreeSound(w'))
    ensures Steady(idx', dat', w', view)
  {
    hide ChainSound, ChainSame, SameOn, FreeSame, HandsSame, FlightSame, SizesSame, Core, FreeSound;
    assert |w'.chains| == NHASH by { ChainCount(idx', dat', w'); }
    forall j | 0 <= j < NHASH ensures ChainSound(w', dat', view, j) {
      SoundFrame(w, dat, view, w', dat', view, j);
    }
    if !a.free { FreeKept(w, dat, w', dat'); }
  }

  lemma ChainCount(idx: string, dat: string, w: World)
    requires Core(idx, dat, w)
    ensures |w.chains| == NHASH && Laid(idx, w.img) && Shape(w.img)
  {
    hide Segs;
  }

  lemma LaidEnd(b: string, g: Image)
    requires Laid(b, g)
    ensures |b| == g.end && g.end !in g.recs && Shape(g)
  {
  }

  // ------------------------------------------------------ the steps of a deletion

  /** In the middle of deleting x: the pointer at loc has yet to become v. */
  ghost predicate Deleting(idx: string, dat: string, w: World, view: Map, h: nat, loc: nat, v: nat)
  {
    && Core(idx, dat, w) && FreeSound(w) && h < NHASH && Others(w, dat, view, h)
    && v <= PTR_MAX && (loc == ChainLoc(h) || loc in w.chains[h])
    && ChainSound(w.SetPtr(loc, v), dat, view, h)
  }

  ghost predicate InHand(w: World, x: nat)
  {
    HeldOnly(w, x) && x in w.place && w.place[x] == Held(0) && x in w.img.recs && x in w.img.ptrs
  }

  lemma DeleteFirst(idx: string, dat: string, w: World, view: Map, h: nat, k: nat, data: string)
    requires Sound(idx, dat, w, view) && h < NHASH && k < |w.chains[h]|
    requires w.chains[h][k] in w.img.recs && w.img.recs[w.chains[h][k]].datlen == |data| + 1
    ensures var x := w.chains[h][k];
            var r := w.img.recs[x];
            && r.datoff <= |dat| && x in w.img.ptrs
            && var dat', w' := Splice(dat, r.datoff, data + "\n"), w.Unlink(h, k, 0);
            && Deleting(idx, dat', w', view - {r.key}, h, Pred(ChainLoc(h), w.chains[h], k), w.img.ptrs[x])
            && InHand(w', x) && x <= PTR_MAX && |dat'| == |dat| && w'.flight == map[]
  {
    hide Core, Laid, Shape, FreeSound, ListHolds, Splice, Permitted, Others;
    var x := w.chains[h][k];
    var r, list := w.img.recs[x], w.chains[h];
    ChainCount(idx, dat, w);
    assert ChainSound(w, dat, view, h);
    PtrBounds(w.img);
    PointedTo(w.img.ptrs, ChainLoc(h), list, k);
    hide Links;
    MoveUnlink(idx, dat, w, view, 0, h, k, data);
    DataCore(idx, dat, w, x, data, 0);
    var dat', w', view' := Splice(dat, r.datoff, data + "\n"), w.Unlink(h, k, 0), view - {r.key};
    assert Others(w, dat, view, h) by { AllOthers(w, dat, view, h); }
    OthersKept(Auth(0, Some(h), false, false, false), w, dat, view, w', dat', view', h);
    assert FreeSound(w') by { FreeSoundImg(w, w'); }
    assert k > 0 ==> RemoveAt(list, k)[k - 1] == list[k - 1];
  }

  lemma AllOthers(w: World, dat: string, view: Map, h: nat)
    requires |w.chains| == NHASH && forall j :: 0 <= j < NHASH ==> ChainSound(w, dat, view, j)
    ensures Others(w, dat, view, h)
  {
  }

  lemma FreeSoundImg(w: World, w': World)
    requires FreeSound(w) && w'.img == w.img && w'.free == w.free
    ensures FreeSound(w')
  {
  }

  lemma DeleteRewrite(idx: string, dat: string, w: World, view: Map, h: nat, loc: nat, v: nat, x: nat, ptr: nat, r: Rec)
    requires Deleting(idx, dat, w, view, h, loc, v) && InHand(w, x) && ptr <= PTR_MAX && ValidRec(r)
    requires |r.key| == |w.img.recs[x].key|
    requires r.datoff == w.img.recs[x].datoff && r.datlen == w.img.recs[x].datlen
    ensures x <= |idx| && Deleting(Splice(idx, x, RecBytes(ptr, r)), dat, w.SetRec(x, ptr, r), view, h, loc, v)
    ensures InHand(w.SetRec(x, ptr, r), x)
  {
    hide Core, FreeSound, ChainSound, Splice, RecBytes, Permitted, Others, ValidRec, ChainSame;
    var w', a := w.SetRec(x, ptr, r), Auth(0, None, false, false, false);
    MoveRewrite(idx, dat, w, view, 0, x, ptr, r);
    assert |w.chains| == NHASH by { ChainCount(idx, dat, w); }
    OthersKept(a, w, dat, view, w', dat, view, h);
    DeletingKept(a, w, dat, view, w', h, loc, v);
  }

  lemma DeletingKept(a: Auth, w: World, dat: string, view: Map, w': World, h: nat, loc: nat, v: nat)
    requires Permitted(a, w, dat, view, w', dat, view) && a.chain.None? && h < NHASH && h < |w.chains|
    requires ChainSound(w.SetPtr(loc, v), dat, view, h) && FreeSound(w)
    ensures h < |w'.chains| && w'.chains[h] == w.chains[h] && ChainSound(w'.SetPtr(loc, v), dat, view, h)
    ensures !a.free ==> FreeSound(w')
  {
    hide ChainSound, HandsSame, FlightSame, SizesSame, FreeSound, FreeSame, RecSame, SameOn;
    assert ChainSame(w, dat, w', dat, h);
    PendingSame(w, dat, w', h, loc, v);
    SameRefl(h, view);
    hide ChainSame;
    SoundFrame(w.SetPtr(loc, v), dat, view, w'.SetPtr(loc, v), dat, view, h);
    if !a.free { FreeKept(w, dat, w', dat); }
  }

  lemma PendingSame(w: World, dat: string, w': World, h: nat, loc: nat, v: nat)
    requires ChainSame(w, dat, w', dat, h)
    ensures ChainSame(w.SetPtr(loc, v), dat, w'.SetPtr(loc, v), dat, h)
  {
    hide Contents;
  }

  lemma DeletePush(idx: string, dat: string, w: World, view: Map, h: nat, loc: nat, v: nat, x: nat)
    requires Deleting(idx, dat, w, view, h, loc, v) && InHand(w, x) && x <= PTR_MAX && AllBlank(w.img.recs[x].key)
    requires FREE_OFF in w.img.ptrs && w.img.ptrs[x] == w.img.ptrs[FREE_OFF] && w.flight == map[]
    ensures var idx', w' := Splice(idx, FREE_OFF, Pad(x, PTR_SZ)), w.PushFree(x).SetPtr(FREE_OFF, x);
            Deleting(idx', dat, w', view, h, loc, v) && Handless(w')
  {
    hide Core, FreeSound, ChainSound, Splice, Pad, Permitted, Others, AllBlank, ChainSame;
    var w', a := w.PushFree(x).SetPtr(FREE_OFF, x), Auth(0, None, true, false, false);
    MovePushFree(idx, dat, w, view, 0, x);
    assert |w.chains| == NHASH by { ChainCount(idx, dat, w); }
    OthersKept(a, w, dat, view, w', dat, view, h);
    DeletingKept(a, w, dat, view, w', h, loc, v);
  }

  lemma DeleteLast(idx: string, dat: string, w: World, view: Map, h: nat, loc: nat, v: nat)
    requires Deleting(idx, dat, w, view, h, loc, v) && Handless(w)
    ensures loc <= |idx| && Sound(Splice(idx, loc, Pad(v, PTR_SZ)), dat, w.SetPtr(loc, v), view)
  {
    hide Core, FreeSound, ChainSound, Splice, Pad, Permitted, ChainSame;
    var w', a := w.SetPtr(loc, v), Auth(0, Some(h), false, false, false);
    assert |w.chains| == NHASH by { ChainCount(idx, dat, w); }
    MoveSetPtr(idx, dat, w, view, 0, h, loc, v);
    OthersKept(a, w, dat, view, w', dat, view, h);
    FreeOf(a, w, dat, view, w', dat, view);
  }

  lemma FreeOf(a: Auth, w: World, dat: string, view: Map, w': World, dat': string, view': Map)
    requires Permitted(a, w, dat, view, w', dat', view') && !a.free && FreeSound(w)
    ensures FreeSound(w')
  {
    hide FreeSound, FreeSame, OtherChainsSame, HandsSame, FlightSame, SizesSame;
    FreeKept(w, dat, w', dat');
  }

  /** The world after deleting the k-th record of chain h. */
  ghost function Deleted(w: World, h: nat, k: nat): World
    requires h < |w.chains| && k < |w.chains[h]| && w.chains[h][k] in w.img.recs && w.chains[h][k] in w.img.ptrs
    requires FREE_OFF in w.img.ptrs
  {
    var x := w.chains[h][k];
    var r := w.img.recs[x];
    w.Unlink(h, k, 0).SetRec(x, w.img.ptrs[FREE_OFF], r.(key := Blanks(|r.key|)))
    .PushFree(x).SetPtr(FREE_OFF, x).SetPtr(Pred(ChainLoc(h), w.chains[h], k), w.img.ptrs[x])
  }

  /** The four writes of a deletion, in order, lead to a sound database again. */
  lemma DeleteAll(idx: string, dat: string, w: World, view: Map, h: nat, k: nat)
    requires Sound(idx, dat, w, view) && h < NHASH && |w.chains| == NHASH && k < |w.chains[h]|
    requires w.chains[h][k] in w.img.recs && w.chains[h][k] in w.img.ptrs
    ensures FREE_OFF in w.img.ptrs
    ensures var x, fp := w.chains[h][k], w.img.ptrs[FREE_OFF];
            var r, loc := w.img.recs[x], Pred(ChainLoc(h), w.chains[h], k);
            var blank := r.(key := Blanks(|r.key|));
            && r.datlen >= 1 && r.datoff <= |dat| && x <= |idx| && x <= PTR_MAX && fp <= PTR_MAX
            && w.img.ptrs[x] <= PTR_MAX && Printable(blank)
            && var dat1 := Splice(dat, r.datoff, Blanks(r.datlen - 1) + "\n");
            var idx1 := Splice(idx, x, RecBytes(fp, blank));
            && |dat1| == |dat| && |idx1| == |idx|
            && var idx2 := Splice(idx1, FREE_OFF, Pad(x, PTR_SZ));
            && |idx2| == |idx| && loc <= |idx2|
            && var idx3 := Splice(idx2, loc, Pad(w.img.ptrs[x], PTR_SZ));
            && |idx3| == |idx| && Sound(idx3, dat1, Deleted(w, h, k), view - {r.key})
  {
    hide Sound, Deleting, InHand, Handless, Splice, RecBytes, Pad, Blanks, Body, ValidRec, Shape, Core, Laid, FreeSound;
    hide AllBlank, Printable;
    var x, r := w.chains[h][k], w.img.recs[w.chains[h][k]];
    var loc, v, blank := Pred(ChainLoc(h), w.chains[h], k), w.img.ptrs[x], r.(key := Blanks(|r.key|));
    SoundCore(idx, dat, w, view);
    RecHasData(idx, dat, w, x);
    BlankKeyValid(|r.key|);
    BlanksBlank(|r.key|);
    BlanksBlank(r.datlen - 1);
    SameLengthKey(r, Blanks(|r.key|));
    var data := Blanks(r.datlen - 1);
    DeleteFirst(idx, dat, w, view, h, k, data);
    var dat1, w1, view1 := Splice(dat, r.datoff, data + "\n"), w.Unlink(h, k, 0), view - {r.key};
    DeletingLaid(idx, dat1, w1, view1, h, loc, v);
    var fp := w.img.ptrs[FREE_OFF];
    RecBytesLength(fp, blank);
    DeleteRewrite(idx, dat1, w1, view1, h, loc, v, x, fp, blank);
    var idx1, w2 := Splice(idx, x, RecBytes(fp, blank)), w1.SetRec(x, fp, blank);
    DeletingEnd(idx1, dat1, w2, view1, h, loc, v);
    DeletePush(idx1, dat1, w2, view1, h, loc, v, x);
    var idx2, w3 := Splice(idx1, FREE_OFF, Pad(x, PTR_SZ)), w2.PushFree(x).SetPtr(FREE_OFF, x);
    DeletingEnd(idx2, dat1, w3, view1, h, loc, v);
    DeleteLast(idx2, dat1, w3, view1, h, loc, v);
    SoundEnd(Splice(idx2, loc, Pad(v, PTR_SZ)), dat1, w3.SetPtr(loc, v), view1);
    DeletingEnd(idx, dat1, w1, view1, h, loc, v);
  }

  lemma DeletingEnd(idx: string, dat: string, w: World, view: Map, h: nat, loc: nat, v: nat)
    requires Deleting(idx, dat, w, view, h, loc, v)
    ensures |idx| == w.img.end
  {
    hide Shape, Partition, Segs, FreeSound, ChainSound, Others, PtrAt, RecAt;
  }

  lemma SoundEnd(idx: string, dat: string, w: World, view: Map)
    requires Sound(idx, dat, w, view)
    ensures |idx| == w.img.end
  {
    hide Shape, Partition, Segs, FreeSound, ChainSound, PtrAt, RecAt;
  }

  // ----------------------------------------------------- the steps of an insertion

  lemma InsertPop(idx: string, dat: string, w: World, view: Map, k: nat)
    requires Sound(idx, dat, w, view) && k < |w.free|
    ensures w.free[k] in w.img.ptrs && w.free[k] <= PTR_MAX
    ensures var loc, v := Pred(FREE_OFF, w.free, k), w.img.ptrs[w.free[k]];
            && loc <= |idx| && v <= PTR_MAX
            && var idx', w' := Splice(idx, loc, Pad(v, PTR_SZ)), w.PopFree(k, 0).SetPtr(loc, v);
            Steady(idx', dat, w', view) && InHand(w', w.free[k]) && w'.flight == map[]
  {
    hide Core, FreeSound, ChainSound, Splice, Pad, Permitted;
    ChainCount(idx, dat, w);
    FreeBounds(w, k);
    FreeMember(idx, dat, w, k);
    var loc, v := Pred(FREE_OFF, w.free, k), w.img.ptrs[w.free[k]];
    MovePopFree(idx, dat, w, view, 0, k);
    var idx', w' := Splice(idx, loc, Pad(v, PTR_SZ)), w.PopFree(k, 0).SetPtr(loc, v);
    hide Laid, Shape, Pred;
    SteadyKept(Auth(0, None, true, false, false), idx, dat, w, view, idx', dat, w');
  }

  lemma InsertFill(idx: string, dat: string, w: World, view: Map, x: nat, data: string)
    requires Steady(idx, dat, w, view) && InHand(w, x) && w.img.recs[x].datlen == |data| + 1
    ensures w.img.recs[x].datoff <= |dat|
    ensures var dat' := Splice(dat, w.img.recs[x].datoff, data + "\n");
            Steady(idx, dat', w, view) && Contents(dat', w.img.recs[x]) == data
  {
    hide Core, FreeSound, ChainSound, Splice, Permitted, Contents;
    MoveFill(idx, dat, w, view, 0, x, data);
    SteadyKept(Auth(0, None, false, false, false), idx, dat, w, view, idx,
               Splice(dat, w.img.recs[x].datoff, data + "\n"), w);
  }

  lemma InsertRewrite(idx: string, dat: string, w: World, view: Map, x: nat, ptr: nat, key: string)
    requires Steady(idx, dat, w, view) && InHand(w, x) && ptr <= PTR_MAX
    requires |key| == |w.img.recs[x].key| && ValidKey(key)
    ensures var r := w.img.recs[x].(key := key);
            && x <= |idx| && ValidRec(r) && InHand(w.SetRec(x, ptr, r), x)
            && Steady(Splice(idx, x, RecBytes(ptr, r)), dat, w.SetRec(x, ptr, r), view)
  {
    hide Core, FreeSound, ChainSound, Splice, Permitted, RecBytes, ValidRec, ValidKey;
    var r := w.img.recs[x].(key := key);
    RecHasData(idx, dat, w, x);
    SameLengthKey(w.img.recs[x], key);
    MoveRewrite(idx, dat, w, view, 0, x, ptr, r);
    SteadyKept(Auth(0, None, false, false, false), idx, dat, w, view,
               Splice(idx, x, RecBytes(ptr, r)), dat, w.SetRec(x, ptr, r));
  }

  lemma AppendDataStep(idx: string, dat: string, w: World, view: Map, r: Rec, data: string)
    requires Sound(idx, dat, w, view) && r.datoff == |dat| && r.datlen == |data| + 1
    ensures var dat', w' := Splice(dat, |dat|, data + "\n"), w.AppendSeg(0, r);
            Steady(idx, dat', w', view) && Contents(dat', r) == data
  {
    hide Core, FreeSound, ChainSound, Splice, Permitted, Contents;
    MoveAppendData(idx, dat, w, view, 0, r, data);
    SteadyKept(Auth(0, None, false, true, false), idx, dat, w, view, idx,
               Splice(dat, |dat|, data + "\n"), w.AppendSeg(0, r));
  }

  lemma AppendRecStep(idx: string, dat: string, w: World, view: Map, ptr: nat, r: Rec)
    requires Steady(idx, dat, w, view) && ptr <= PTR_MAX && ValidRec(r)
    requires (forall x :: x in w.place ==> !w.place[x].Held?) && w.flight == map[0 := r]
    ensures w.img.end == |idx|
    ensures var idx', w' := Splice(idx, |idx|, RecBytes(ptr, r)), w.AppendRec(0, ptr, r);
            && Steady(idx', dat, w', view) && InHand(w', |idx|) && w'.flight == map[]
            && w'.img.recs[|idx|] == r && w'.img.ptrs[|idx|] == ptr
  {
    hide Core, FreeSound, ChainSound, Splice, Permitted, RecBytes, ValidRec, RecSize;
    MoveAppendRec(idx, dat, w, view, 0, ptr, r);
    SteadyKept(Auth(0, None, false, false, true), idx, dat, w, view,
               Splice(idx, |idx|, RecBytes(ptr, r)), dat, w.AppendRec(0, ptr, r));
  }

  lemma InsertLink(idx: string, dat: string, w: World, view: Map, h: nat, x: nat)
    requires Steady(idx, dat, w, view) && InHand(w, x) && x <= PTR_MAX && w.flight == map[]
    requires h < NHASH && w.img.ptrs[x] == Head(w.chains[h])
    requires Hash(w.img.recs[x].key) == h && w.img.recs[x].key !in view
    ensures ChainLoc(h) <= |idx|
    ensures Sound(Splice(idx, ChainLoc(h), Pad(x, PTR_SZ)), dat, w.PushChain(h, x).SetPtr(ChainLoc(h), x),
                  view[w.img.recs[x].key := Contents(dat, w.img.recs[x])])
  {
    hide Core, FreeSound, ChainSound, Splice, Permitted, Pad, Hash, Contents, Laid, Shape;
    var w', view' := w.PushChain(h, x).SetPtr(ChainLoc(h), x), view[w.img.recs[x].key := Contents(dat, w.img.recs[x])];
    var a := Auth(0, Some(h), false, false, false);
    ChainCount(idx, dat, w);
    ChainSlot(w.img, h);
    SlotFits(idx, w.img, ChainLoc(h));
    assert ChainSound(w, dat, view, h);
    MoveLink(idx, dat, w, view, 0, h, x);
    OthersKept(a, w, dat, view, w', dat, view', h);
    FreeOf(a, w, dat, view, w', dat, view');
  }

  lemma OverwriteStep(idx: string, dat: string, w: World, view: Map, h: nat, k: nat, data: string)
    requires Sound(idx, dat, w, view) && h < NHASH && k < |w.chains[h]|
    requires w.chains[h][k] in w.img.recs && w.img.recs[w.chains[h][k]].datlen == |data| + 1
    ensures var r := w.img.recs[w.chains[h][k]];
            && r.datoff <= |dat|
            && Sound(idx, Splice(dat, r.datoff, data + "\n"), w, view[r.key := data])
  {
    hide Core, FreeSound, ChainSound, Splice, Permitted;
    var r := w.img.recs[w.chains[h][k]];
    assert ChainSound(w, dat, view, h);
    MoveOverwrite(idx, dat, w, view, 0, h, k, data);
    var a, dat' := Auth(0, Some(h), false, false, false), Splice(dat, r.datoff, data + "\n");
    OthersKept(a, w, dat, view, w, dat', view[r.key := data], h);
  }

  lemma NotOnChain(w: World, dat: string, view: Map, key: string)
    requires |w.chains| == NHASH && ChainSound(w, dat, view, Hash(key))
    requires forall i :: 0 <= i < |w.chains[Hash(key)]| ==>
      w.chains[Hash(key)][i] in w.img.recs && w.img.recs[w.chains[Hash(key)][i]].key != key
    ensures key !in view
  {
    hide Links, Holds, Hash;
    assert key in view ==> KeyOn(w.img.recs, w.chains[Hash(key)], key);
  }

  lemma SoundCore(idx: string, dat: string, w: World, view: Map)
    requires Sound(idx, dat, w, view)
    ensures Core(idx, dat, w) && FreeSound(w) && Laid(idx, w.img) && |w.chains| == NHASH
  {
    hide Laid, ChainSound, FreeSound;
  }

  lemma BlanksBlank(n: nat)
    ensures AllBlank(Blanks(n)) && |Blanks(n)| == n
  {
  }

  lemma RecBytesLength(ptr: nat, r: Rec)
    requires ptr <= PTR_MAX && ValidRec(r)
    ensures |RecBytes(ptr, r)| == RecSize(r) && Printable(r)
  {
    RecBytesLaid([], 0, ptr, r);
  }

  lemma DeletingLaid(idx: string, dat: string, w: World, view: Map, h: nat, loc: nat, v: nat)
    requires Deleting(idx, dat, w, view, h, loc, v)
    ensures Laid(idx, w.img) && FREE_OFF in w.img.ptrs && w.img.ptrs[FREE_OFF] <= PTR_MAX && v <= PTR_MAX
    ensures |w.chains| == NHASH
  {
    hide Laid, FreeSound, ChainSound, Others;
    ChainCount(idx, dat, w);
    ChainSlot(w.img, 0);
    PtrBounds(w.img);
  }

  lemma SteadyEnd(idx: string, dat: string, w: World, view: Map)
    requires Steady(idx, dat, w, view)
    ensures |idx| == w.img.end
  {
    hide Shape, Partition, Segs, FreeSound, ChainSound, PtrAt, RecAt;
  }

  lemma FitsKey(w: World, k: nat, keylen: nat, len: nat)
    requires k < |w.free| && Fits(w, k, keylen, len)
    ensures w.free[k] in w.img.recs && |w.img.recs[w.free[k]].key| == keylen
  {
  }

  lemma ContentsLength(idx: string, dat: string, w: World, x: nat)
    requires Core(idx, dat, w) && x in w.img.recs
    ensures |Contents(dat, w.img.recs[x])| + 1 == w.img.recs[x].datlen
  {
    hide Laid, Partition;
    assert SegIn(dat, w.img.recs[x]);
  }

  lemma HeadBounded(idx: string, dat: string, w: World, view: Map, h: nat)
    requires Sound(idx, dat, w, view) && h < NHASH
    ensures |w.chains| == NHASH && Laid(idx, w.img) && ChainLoc(h) in w.img.ptrs
    ensures w.img.ptrs[ChainLoc(h)] == Head(w.chains[h]) <= PTR_MAX && ChainLoc(h) <= |idx|
  {
    hide Laid, Shape, FreeSound, ListHolds, Core;
    ChainCount(idx, dat, w);
    assert ChainSound(w, dat, view, h);
    PtrBounds(w.img);
    SlotFits(idx, w.img, ChainLoc(h));
  }

  /** The writes of an append lead to a sound database with the key added. */
  lemma AppendAll(idx: string, dat: string, w: World, view: Map, key: string, data: string)
    requires Sound(idx, dat, w, view) && ValidKey(key) && key !in view
    requires DATLEN_MIN <= |data| + 1 <= DATLEN_MAX && Printable(Rec(key, |dat|, |data| + 1))
    ensures |w.chains| == NHASH && Head(w.chains[Hash(key)]) <= PTR_MAX && ChainLoc(Hash(key)) <= |idx|
    ensures var h, r := Hash(key), Rec(key, |dat|, |data| + 1);
            var ptr, loc := Head(w.chains[h]), ChainLoc(h);
            var dat', idx1 := Splice(dat, |dat|, data + "\n"), Splice(idx, |idx|, RecBytes(ptr, r));
            && loc <= |idx1|
            && (|idx| <= PTR_MAX ==>
                  Sound(Splice(idx1, loc, Pad(|idx|, PTR_SZ)), dat',
                        w.AppendSeg(0, r).AppendRec(0, ptr, r).PushChain(h, |idx|).SetPtr(loc, |idx|),
                        view[key := data]))
  {
    hide Sound, Steady, Splice, RecBytes, Pad, Hash, Body, Contents, InHand;
    var h, r := Hash(key), Rec(key, |dat|, |data| + 1);
    HeadBounded(idx, dat, w, view, h);
    hide Laid;
    var ptr, loc := Head(w.chains[h]), ChainLoc(h);
    AppendDataStep(idx, dat, w, view, r, data);
    var dat', w1 := Splice(dat, |dat|, data + "\n"), w.AppendSeg(0, r);
    HandlessAppend(idx, dat, w, view, r);
    AppendRecStep(idx, dat', w1, view, ptr, r);
    var idx1, w2 := Splice(idx, |idx|, RecBytes(ptr, r)), w1.AppendRec(0, ptr, r);
    if |idx| <= PTR_MAX { InsertLink(idx1, dat', w2, view, h, |idx|); }
  }

  lemma HandlessAppend(idx: string, dat: string, w: World, view: Map, r: Rec)
    requires Sound(idx, dat, w, view)
    ensures var w1 := w.AppendSeg(0, r);
            (forall x :: x in w1.place ==> !w1.place[x].Held?) && w1.flight == map[0 := r]
  {
    hide Steady;
  }

  /** The writes that fill and link a reused record. */
  lemma ReuseAll(idx: string, dat: string, w: World, view: Map, x: nat, key: string, data: string, ptr: nat)
    requires Steady(idx, dat, w, view) && InHand(w, x) && w.flight == map[] && x in w.img.recs && x <= PTR_MAX
    requires ValidKey(key) && key !in view && |w.chains| == NHASH && ptr == Head(w.chains[Hash(key)]) <= PTR_MAX
    requires |w.img.recs[x].key| == |key| && w.img.recs[x].datlen == |data| + 1
    ensures var r, loc := w.img.recs[x].(key := key), ChainLoc(Hash(key));
            && r.datoff <= |dat| && x <= |idx| && Printable(r)
            && var dat', idx1 := Splice(dat, r.datoff, data + "\n"), Splice(idx, x, RecBytes(ptr, r));
            && loc <= |idx1|
            && Sound(Splice(idx1, loc, Pad(x, PTR_SZ)), dat',
                     w.SetRec(x, ptr, r).PushChain(Hash(key), x).SetPtr(loc, x), view[key := data])
  {
    hide Sound, Steady, Splice, RecBytes, Pad, Hash, Body, InHand, ValidKey, Contents;
    var h, r := Hash(key), w.img.recs[x].(key := key);
    InsertFill(idx, dat, w, view, x, data);
    var dat' := Splice(dat, w.img.recs[x].datoff, data + "\n");
    SameData(dat', w.img.recs[x], r);
    InsertRewrite(idx, dat', w, view, x, ptr, key);
    InsertLink(Splice(idx, x, RecBytes(ptr, r)), dat', w.SetRec(x, ptr, r), view, h, x);
  }

  lemma SameData(dat: string, r: Rec, q: Rec)
    requires r.datoff == q.datoff && r.datlen == q.datlen
    ensures Contents(dat, r) == Contents(dat, q)
  {
  }

  // -------------------------------------------------------------- file order

  /** Every record from offset i up to offset j has a blank key. */
  ghost predicate BlankBetween(recs: map<nat, Rec>, i: nat, j: nat)
  {
    forall x :: x in recs && i <= x < j ==> AllBlank(recs[x].key)
  }

  /** A record ends where another begins or at the end of the file. */
  lemma NextBoundary(g: Image, x: nat)
    requires Shape(g) && x in g.recs
    ensures Boundary(g.recs, g.end, x + RecSize(g.recs[x])) && x + RecSize(g.recs[x]) <= g.end && RecSize(g.recs[x]) > 0
  {
    hide Body, ValidKey;
    assert TiledAt(g.recs, g.end, x);
  }

  lemma BlankNext(g: Image, i: nat, x: nat)
    requires Shape(g) && x in g.recs && BlankBetween(g.recs, i, x) && AllBlank(g.recs[x].key)
    ensures BlankBetween(g.recs, i, x + RecSize(g.recs[x]))
  {
    hide AllBlank, Body, ValidKey, Tiled, Fields;
  }

  /** offs are the records below pos with nonblank keys, out what they hold. */
  ghost predicate Listed(recs: map<nat, Rec>, dat: string, offs: seq<nat>, out: seq<(string, string)>, pos: nat)
  {
    && |offs| == |out|
    && (forall i :: 0 <= i < |offs| ==> offs[i] in recs && offs[i] < pos && !AllBlank(recs[offs[i]].key))
    && (forall i :: 0 <= i < |offs| ==> out[i] == (recs[offs[i]].key, Contents(dat, recs[offs[i]])))
    && (forall i, j :: 0 <= i < j < |offs| ==> offs[i] < offs[j])
    && (forall x :: x in recs && x < pos && !AllBlank(recs[x].key) ==> x in offs)
  }

  lemma ListedNone(g: Image, dat: string)
    requires Shape(g)
    ensures Boundary(g.recs, g.end, RECS_OFF) && Listed(g.recs, dat, [], [], RECS_OFF)
  {
    hide Body, ValidKey, Fields;
  }

  lemma ListedSkip(recs: map<nat, Rec>, dat: string, offs: seq<nat>, out: seq<(string, string)>, i: nat, j: nat)
    requires Listed(recs, dat, offs, out, i) && BlankBetween(recs, i, j) && i <= j
    ensures Listed(recs, dat, offs, out, j)
  {
    hide AllBlank, Contents;
  }

  lemma ListedMore(g: Image, dat: string, offs: seq<nat>, out: seq<(string, string)>, i: nat, x: nat)
    requires Shape(g) && Listed(g.recs, dat, offs, out, i) && BlankBetween(g.recs, i, x) && i <= x
    requires x in g.recs && !AllBlank(g.recs[x].key)
    ensures Listed(g.recs, dat, offs + [x], out + [(g.recs[x].key, Contents(dat, g.recs[x]))], x + RecSize(g.recs[x]))
  {
    hide AllBlank, Contents, Body, ValidKey, Tiled, Fields;
    var offs' := offs + [x];
    assert offs'[|offs|] == x;
    assert forall y :: y in offs ==> y in offs';
    assert RecSize(g.recs[x]) > 0;
  }

  /** Records with nonblank keys are on the chains, under distinct keys. */
  lemma LiveKeys(idx: string, dat: string, w: World, view: Map, x: nat)
    requires Sound(idx, dat, w, view) && x in w.img.recs && !AllBlank(w.img.recs[x].key)
    ensures w.img.recs[x].key in view && view[w.img.recs[x].key] == Contents(dat, w.img.recs[x])
    ensures forall y :: y in w.img.recs && y != x && !AllBlank(w.img.recs[y].key) ==>
      w.img.recs[y].key != w.img.recs[x].key
  {
    hide Laid, Segs, AllBlank, Contents, Links, Hash;
    var h, i := OnSomeChain(idx, dat, w, view, x);
    forall y | y in w.img.recs && y != x && !AllBlank(w.img.recs[y].key)
      ensures w.img.recs[y].key != w.img.recs[x].key
    {
      var h', j := OnSomeChain(idx, dat, w, view, y);
    }
  }

  lemma OnSomeChain(idx: string, dat: string, w: World, view: Map, x: nat) returns (h: nat, i: nat)
    requires Sound(idx, dat, w, view) && x in w.img.recs && !AllBlank(w.img.recs[x].key)
    ensures h < NHASH && h < |w.chains| && i < |w.chains[h]| && w.chains[h][i] == x
    ensures Holds(w.img.recs[x], dat, view, h) && ChainSound(w, dat, view, h)
  {
    hide Laid, Segs, AllBlank, Contents, Links, Hash;
    assert w.place[x].OnFree? ==> x in w.free;
    if w.place[x].OnChain? {
      h := w.place[x].h;
      assert Lists(w.chains[h], w.place, OnChain(h));
      assert ChainSound(w, dat, view, h);
      i :| 0 <= i < |w.chains[h]| && w.chains[h][i] == x;
    }
  }

  lemma ScanComplete(idx: string, dat: string, w: World, view: Map, offs: seq<nat>, out: seq<(string, string)>)
    requires Sound(idx, dat, w, view) && Listed(w.img.recs, dat, offs, out, |idx|)
    ensures forall i, j :: 0 <= i < j < |out| ==> out[i].0 != out[j].0
    ensures forall i :: 0 <= i < |out| ==> out[i].0 in view && view[out[i].0] == out[i].1 && !AllBlank(out[i].0)
    ensures forall k :: k in view && !AllBlank(k) ==> (k, view[k]) in out
  {
    hide Sound, AllBlank, Contents;
    forall i | 0 <= i < |out| ensures out[i].0 in view && view[out[i].0] == out[i].1 {
      LiveKeys(idx, dat, w, view, offs[i]);
    }
    forall i, j | 0 <= i < j < |out| ensures out[i].0 != out[j].0 {
      LiveKeys(idx, dat, w, view, offs[i]);
      assert offs[j] in w.img.recs;
    }
    forall k | k in view && !AllBlank(k) ensures (k, view[k]) in out {
      var x := RecordOf(idx, dat, w, view, k);
      var i :| 0 <= i < |offs| && offs[i] == x;
      assert out[i] == (k, view[k]);
    }
  }

  lemma RecordOf(idx: string, dat: string, w: World, view: Map, k: string) returns (x: nat)
    requires Sound(idx, dat, w, view) && k in view
    ensures x in w.img.recs && x < |idx| && w.img.recs[x].key == k && view[k] == Contents(dat, w.img.recs[x])
  {
    hide Laid, Partition, Segs, FreeSound, Contents, Links, Hash;
    var list := w.chains[Hash(k)];
    assert ChainSound(w, dat, view, Hash(k));
    assert KeyOn(w.img.recs, list, k);
    var i :| 0 <= i < |list| && list[i] in w.img.recs && w.img.recs[list[i]].key == k;
    x := list[i];
    assert Holds(w.img.recs[x], dat, view, Hash(k));
    RecInside(idx, w.img, x);
  }

  lemma RecInside(b: string, g: Image, x: nat)
    requires Laid(b, g) && x in g.recs
    ensures x < |b|
  {
    hide Tiled, PtrAt, RecAt, Fields;
  }
}
