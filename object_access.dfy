/**
 * The mediator between the serializer and the page file. It streams one
 * object at a time into pages; when an object spans several pages, its
 * fragments form a chain in the position index, and the OID index holds the
 * position of the first fragment. Positions are 64-bit values with the page
 * number in the high 32 bits and the byte offset in the low 32 bits.
 */
module ObjectAccess {
  import opened Wrappers

  const TWO32: int := 0x1_0000_0000

  /** A page number, as the unsigned value of a Java `int`. */
  type Page = x: int | 0 <= x < 0x1_0000_0000

  /** A position or link, as the unsigned value of a Java `long`. */
  type Long = x: int | 0 <= x < 0x1_0000_0000_0000_0000

  /** The offset recorded for a continuation fragment, which starts a page of its own. */
  const MARK_SECONDARY: Long := 0xFFFF_FFFF

  /** `((long) page) << 32`: the link from a fragment to the fragment starting `page`. */
  function Link(page: Page): Long
  {
    page * TWO32
  }

  /** `(int) x` for a long `x`: its low 32 bits. */
  function LowHalf(x: Long): Page
  {
    x % TWO32
  }

  /** The position of offset `offs` on `page`, as the position index keys it: page high, offset low. */
  function PosOf(page: Page, offs: Long): Long
  {
    Link(page) + LowHalf(offs)
  }

  /** `link | MARK_SECONDARY`: where unwinding continues after a fragment whose link is `link`. */
  function Follow(link: Long): Long
  {
    link - LowHalf(link) + MARK_SECONDARY
  }

  /** Taking the low half twice is taking it once. */
  lemma LowHalfTwice(x: Long)
    ensures LowHalf(LowHalf(x)) == LowHalf(x)
  {
  }

  /** A position splits back into its page and its offset. */
  lemma PosOfParts(page: Page, offs: Long)
    ensures PosOf(page, offs) / TWO32 == page && LowHalf(PosOf(page, offs)) == LowHalf(offs)
  {
  }

  /** Unwinding stops after the terminal link 0, and after a link to any page but page 0. */
  lemma UnwindStops(page: Page)
    ensures Follow(0) == MARK_SECONDARY
    ensures Follow(Link(page)) == MARK_SECONDARY <==> page == 0
    ensures Follow(Link(page)) == PosOf(page, MARK_SECONDARY)
  {
    PosOfParts(page, 0);
  }

  /** Unwinding stops exactly after a link whose page half is zero. */
  lemma StopTest(link: Long)
    ensures Follow(link) == MARK_SECONDARY <==> link < TWO32
  {
  }

  /** Continuation fragments on different pages have different positions, and none is a head fragment's. */
  lemma PositionsDiffer(a: Page, b: Page, offs: Long)
    ensures PosOf(a, MARK_SECONDARY) == PosOf(b, MARK_SECONDARY) ==> a == b
    ensures LowHalf(offs) != MARK_SECONDARY ==> PosOf(a, offs) != PosOf(b, MARK_SECONDARY)
  {
    PosOfParts(a, offs);
    PosOfParts(a, MARK_SECONDARY);
    PosOfParts(b, MARK_SECONDARY);
  }

  /**
   * The fragment chain starting at `pos` in the position index `m` is well
   * formed: every position on it has an entry, and following the links ends
   * at the terminal marker without visiting a position twice.
   */
  ghost predicate ChainFrom(m: map<Long, Long>, pos: Long)
    decreases m.Keys
  {
    pos in m && (Follow(m[pos]) == MARK_SECONDARY || ChainFrom(m - {pos}, Follow(m[pos])))
  }

  /** The positions of the chain starting at `pos`, in order. */
  ghost function ChainPath(m: map<Long, Long>, pos: Long): (path: seq<Long>)
    requires ChainFrom(m, pos)
    ensures |path| >= 1 && path[0] == pos
    ensures forall k :: k in path ==> k in m
    decreases m.Keys
  {
    var next := Follow(m[pos]);
    if next == MARK_SECONDARY then [pos] else [pos] + ChainPath(m - {pos}, next)
  }

  /** The position index after the chain starting at `pos` has been removed. */
  ghost function Unwind(m: map<Long, Long>, pos: Long): map<Long, Long>
    requires ChainFrom(m, pos)
  {
    m - Elems(ChainPath(m, pos))
  }

  ghost function Elems<T>(s: seq<T>): set<T>
  {
    set x | x in s
  }

  /** One step of unwinding: remove the first fragment and continue at its link. */
  lemma UnwindStep(m: map<Long, Long>, pos: Long)
    requires ChainFrom(m, pos)
    ensures Follow(m[pos]) == MARK_SECONDARY ==> Unwind(m, pos) == m - {pos}
    ensures Follow(m[pos]) != MARK_SECONDARY ==>
              ChainFrom(m - {pos}, Follow(m[pos])) && Unwind(m, pos) == Unwind(m - {pos}, Follow(m[pos]))
  {
    if Follow(m[pos]) == MARK_SECONDARY {
      UnwindLast(m, pos);
    } else {
      UnwindNext(m, pos);
    }
  }

  lemma UnwindLast(m: map<Long, Long>, pos: Long)
    requires ChainFrom(m, pos) && Follow(m[pos]) == MARK_SECONDARY
    ensures Unwind(m, pos) == m - {pos}
  {
    assert ChainPath(m, pos) == [pos];
    assert Elems([pos]) == {pos};
  }

  lemma UnwindNext(m: map<Long, Long>, pos: Long)
    requires ChainFrom(m, pos) && Follow(m[pos]) != MARK_SECONDARY
    ensures ChainFrom(m - {pos}, Follow(m[pos]))
    ensures Unwind(m, pos) == Unwind(m - {pos}, Follow(m[pos]))
  {
    var rest := ChainPath(m - {pos}, Follow(m[pos]));
    assert ChainPath(m, pos) == [pos] + rest;
    assert Elems([pos] + rest) == {pos} + Elems(rest);
    MinusUnion(m, {pos}, Elems(rest));
  }

  lemma MinusUnion<K, V>(m: map<K, V>, a: set<K>, b: set<K>)
    ensures m - (a + b) == (m - a) - b
  {
  }

  /** A position off the chain can be dropped from the index without changing the chain. */
  lemma {:induction false} ChainAvoids(m: map<Long, Long>, pos: Long, k: Long)
    requires ChainFrom(m, pos) && k !in ChainPath(m, pos)
    ensures ChainFrom(m - {k}, pos) && ChainPath(m - {k}, pos) == ChainPath(m, pos)
    decreases m.Keys
  {
    var next := Follow(m[pos]);
    assert ChainPath(m, pos)[0] == pos;
    assert k != pos;
    assert pos in m - {k};
    assert (m - {k})[pos] == m[pos];
    if next != MARK_SECONDARY {
      assert ChainPath(m, pos) == [pos] + ChainPath(m - {pos}, next);
      ChainAvoids(m - {pos}, next, k);
      assert m - {k} - {pos} == m - {pos} - {k};
    }
  }

  /**
   * The position index after writing one object whose first fragment is at
   * (`page`, `offs`) and which overflowed onto `pages` in that order: each
   * overflow links the current fragment to the next page, and the last
   * fragment gets the terminal link 0.
   */
  ghost function Written(m: map<Long, Long>, page: Page, offs: Long, pages: seq<Page>): map<Long, Long>
    decreases |pages|
  {
    if pages == [] then m[PosOf(page, offs) := 0]
    else Written(m[PosOf(page, offs) := Link(pages[0])], pages[0], MARK_SECONDARY, pages[1..])
  }

  /** The positions of the fragments of such an object: the head, then one per overflow page. */
  function Fragments(page: Page, offs: Long, pages: seq<Page>): (r: seq<Long>)
    ensures |r| == |pages| + 1 && r[0] == PosOf(page, offs)
    ensures forall i :: 0 <= i < |pages| ==> r[i + 1] == PosOf(pages[i], MARK_SECONDARY)
    decreases |pages|
  {
    if pages == [] then [PosOf(page, offs)]
    else [PosOf(page, offs)] + Fragments(pages[0], MARK_SECONDARY, pages[1..])
  }

  /**
   * A written object forms a well-formed chain of exactly its fragments: one
   * per page, the last one linked 0 and every other one linked to the next
   * page. Unwinding it from its head removes exactly those entries and leaves
   * the rest of the index as it was.
   */
  lemma {:induction false} WriteChain(m: map<Long, Long>, page: Page, offs: Long, pages: seq<Page>)
    requires forall i :: 0 <= i < |pages| ==> pages[i] != 0
    requires forall i, j :: 0 <= i < j < |pages| ==> pages[i] != pages[j]
    requires forall i :: 0 <= i < |pages| ==> PosOf(page, offs) != PosOf(pages[i], MARK_SECONDARY)
    ensures var w := Written(m, page, offs, pages);
            var path := Fragments(page, offs, pages);
            forall i :: 0 <= i < |path| ==>
              path[i] in w && w[path[i]] == if i < |pages| then Link(pages[i]) else 0
    ensures var path := Fragments(page, offs, pages);
            Written(m, page, offs, pages) - Elems(path) == m - Elems(path)
    ensures var w := Written(m, page, offs, pages);
            ChainFrom(w, PosOf(page, offs)) && ChainPath(w, PosOf(page, offs)) == Fragments(page, offs, pages)
    ensures Unwind(Written(m, page, offs, pages), PosOf(page, offs)) == m - Elems(Fragments(page, offs, pages))
    decreases |pages|
  {
    var head := PosOf(page, offs);
    var path := Fragments(page, offs, pages);
    if pages == [] {
      UnwindStops(page);
      assert path == [head];
      assert Elems(path) == {head};
    } else {
      var p, rest := pages[0], pages[1..];
      var next := PosOf(p, MARK_SECONDARY);
      forall i | 0 <= i < |rest|
        ensures next != PosOf(rest[i], MARK_SECONDARY)
      {
        PositionsDiffer(p, rest[i], MARK_SECONDARY);
      }
      WriteChain(m[head := Link(p)], p, MARK_SECONDARY, rest);
      var tail := Fragments(p, MARK_SECONDARY, rest);
      assert head !in tail by {
        forall i | 0 <= i < |tail|
          ensures tail[i] != head
        {
          if i > 0 {
            assert tail[i] == PosOf(rest[i - 1], MARK_SECONDARY);
            assert pages[i] == rest[i - 1];
          }
        }
      }
      var w := Written(m[head := Link(p)], p, MARK_SECONDARY, rest);
      FrameCons(m, w, head, Link(p), tail);
      UnwindStops(p);
      ChainCons(w, head, tail);
      assert path == [head] + tail;
    }
  }

  /** Writing the tail of a chain after linking its head keeps the head's entry and the rest of the index. */
  lemma FrameCons(m: map<Long, Long>, w: map<Long, Long>, head: Long, link: Long, tail: seq<Long>)
    requires head !in tail && w - Elems(tail) == m[head := link] - Elems(tail)
    ensures head in w && w[head] == link
    ensures w - Elems([head] + tail) == m - Elems([head] + tail)
  {
    var m1 := m[head := link];
    assert head in m1 - Elems(tail);
    assert Elems([head] + tail) == {head} + Elems(tail);
    assert w - Elems([head] + tail) == (w - Elems(tail)) - {head};
    assert m - Elems([head] + tail) == (m1 - Elems(tail)) - {head};
  }

  /** A head linked to a chain that avoids it extends that chain by one position. */
  lemma ChainCons(w: map<Long, Long>, head: Long, tail: seq<Long>)
    requires head in w && Follow(w[head]) != MARK_SECONDARY
    requires ChainFrom(w, Follow(w[head])) && ChainPath(w, Follow(w[head])) == tail && head !in tail
    ensures ChainFrom(w, head) && ChainPath(w, head) == [head] + tail
  {
    ChainAvoids(w, Follow(w[head]), head);
  }

  /** A primitive value handed to the page file, in the order it was written. */
  datatype Prim =
    | PBool(b: bool)
    | PByte(byteValue: bv8)
    | PChar(c: char)
    | PShort(shortValue: bv16)
    | PInt(intValue: bv32)
    | PLong(longValue: bv64)
    | PString(s: string)
    | PBytes(a: seq<bv8>)
    | PSkip(n: bv32)

  /**
   * The page file as the mediator sees it: the current page and offset, the
   * values written so far, how many of them have been flushed, and the
   * overflow callback. Page allocation and seeking are not modelled; a newly
   * allocated page is a parameter.
   */
  class PageFile {
    var page: Page
    var offset: Long
    var written: seq<Prim>
    var flushed: nat
    var open: bool
    var overflowCallback: PagedObjectAccess?

    constructor (page: Page, offset: Long)
      ensures this.page == page && this.offset == offset && written == [] && flushed == 0
      ensures open && overflowCallback == null
    {
      this.page := page;
      this.offset := offset;
      written := [];
      flushed := 0;
      open := true;
      overflowCallback := null;
    }

    method Write(p: Prim)
      modifies this`written
      ensures written == old(written) + [p]
    {
      written := written + [p];
    }

    /** Allocate a page (the one the free-space manager hands out, `newPage`) and seek to its start. */
    method AllocateAndSeek(newPage: Page)
      modifies this`page, this`offset
      ensures page == newPage && offset == 0
    {
      page, offset := newPage, 0;
    }

    method SetOverflowCallback(callback: PagedObjectAccess?)
      modifies this`overflowCallback
      ensures overflowCallback == callback
    {
      overflowCallback := callback;
    }

    method Flush()
      modifies this`flushed
      ensures flushed == |written|
    {
      flushed := |written|;
    }

    method Close()
      modifies this`flushed, this`open
      ensures flushed == |written| && !open
    {
      flushed := |written|;
      open := false;
    }
  }

  /** The position index: fragment position to the link of the fragment. */
  class PosIndex {
    var entries: map<Long, Long>

    constructor ()
      ensures entries == map[]
    {
      entries := map[];
    }

    method AddPos(page: Page, offs: Long, next: Long)
      modifies this
      ensures entries == old(entries)[PosOf(page, offs) := next]
    {
      entries := entries[PosOf(page, offs) := next];
    }

    /** Remove the fragment at `pos` and return its link (reporting a freed page is not modelled). */
    method RemovePosLongAndCheck(pos: Long) returns (next: Long)
      requires pos in entries
      modifies this
      ensures next == old(entries)[pos] && entries == old(entries) - {pos}
    {
      next := entries[pos];
      entries := entries - {pos};
    }
  }

  /** The OID index: object id to the position of the object's first fragment. */
  class OidIndex {
    var entries: map<int, Long>

    constructor ()
      ensures entries == map[]
    {
      entries := map[];
    }

    method FindOidGetLong(oid: int) returns (r: Option<Long>)
      ensures r == if oid in entries then Some(entries[oid]) else None
    {
      r := if oid in entries then Some(entries[oid]) else None;
    }

    method InsertLong(oid: int, page: Page, offs: Page)
      modifies this
      ensures entries == old(entries)[oid := PosOf(page, offs)]
    {
      entries := entries[oid := PosOf(page, offs)];
    }
  }

  /**
   * The mediator. `currentPage` and `currentOffs` are the position of the
   * fragment being written; both start at -1.
   */
  class PagedObjectAccess {
    const file: PageFile
    const oidIndex: OidIndex
    var posIndex: PosIndex?
    var currentPage: Page
    var currentOffs: Long

    constructor (file: PageFile, oidIndex: OidIndex)
      ensures this.file == file && this.oidIndex == oidIndex && posIndex == null
      ensures currentPage == 0xFFFF_FFFF && currentOffs == 0xFFFF_FFFF_FFFF_FFFF
    {
      this.file := file;
      this.oidIndex := oidIndex;
      posIndex := null;
      currentPage := 0xFFFF_FFFF;
      currentOffs := 0xFFFF_FFFF_FFFF_FFFF;
    }

    /**
     * Begin writing object `oid` at the file's current position: the chain of
     * a previous version of the object is unwound from the position index,
     * then the OID index maps the object to the new head position.
     */
    method StartWriting(oid: int)
      requires oid in oidIndex.entries ==> posIndex != null && ChainFrom(posIndex.entries, oidIndex.entries[oid])
      modifies this`currentPage, this`currentOffs, posIndex, oidIndex
      ensures currentPage == file.page && currentOffs == file.offset
      ensures oidIndex.entries == old(oidIndex.entries)[oid := PosOf(file.page, file.offset)]
      ensures oid in old(oidIndex.entries) ==>
                posIndex.entries == Unwind(old(posIndex.entries), old(oidIndex.entries[oid]))
      ensures oid !in old(oidIndex.entries) && posIndex != null ==> posIndex.entries == old(posIndex.entries)
    {
      currentPage := file.page;
      currentOffs := file.offset;
      var objPos := oidIndex.FindOidGetLong(oid);
      if objPos.Some? {
        RemoveChain(objPos.value);
      }
      LowHalfTwice(currentOffs);
      oidIndex.InsertLong(oid, currentPage, LowHalf(currentOffs));
    }

    /** Remove the old fragment chain that starts at `pos` from the position index, following the links. */
    method RemoveChain(pos: Long)
      requires posIndex != null && ChainFrom(posIndex.entries, pos)
      modifies posIndex
      ensures posIndex.entries == Unwind(old(posIndex.entries), pos)
    {
      var pos := pos;
      ghost var target := Unwind(posIndex.entries, pos);
      var more := true;
      while more
        invariant more ==> ChainFrom(posIndex.entries, pos) && Unwind(posIndex.entries, pos) == target
        invariant !more ==> posIndex.entries == target
        decreases posIndex.entries.Keys
      {
        UnwindStep(posIndex.entries, pos);
        var nextPos := posIndex.RemovePosLongAndCheck(pos);
        nextPos := Follow(nextPos);
        pos := nextPos;
        more := pos != MARK_SECONDARY;
      }
    }

    /** The file crossed into `newPage`: link the current fragment there and start a continuation fragment. */
    method NotifyOverflow(newPage: Page)
      requires posIndex != null
      modifies this`currentPage, this`currentOffs, posIndex
      ensures posIndex.entries == old(posIndex.entries)[PosOf(old(currentPage), old(currentOffs)) := Link(newPage)]
      ensures currentPage == newPage && currentOffs == MARK_SECONDARY
    {
      var np := Link(newPage);
      posIndex.AddPos(currentPage, currentOffs, np);
      currentPage := newPage;
      currentOffs := MARK_SECONDARY;
    }

    /** The object is complete: its last fragment gets the terminal link 0. */
    method FinishObject()
      requires posIndex != null
      modifies posIndex
      ensures posIndex.entries == old(posIndex.entries)[PosOf(currentPage, currentOffs) := 0]
    {
      posIndex.AddPos(currentPage, currentOffs, 0);
    }

    /** Start a fresh page (`newPage`, as the file allocates it) for objects indexed by `posIndex`, and take the overflow callback. */
    method NewPage(posIndex: PosIndex, newPage: Page)
      modifies this`posIndex, file`page, file`offset, file`overflowCallback
      ensures this.posIndex == posIndex
      ensures file.page == newPage && file.offset == 0 && file.overflowCallback == this
    {
      file.AllocateAndSeek(newPage);
      this.posIndex := posIndex;
      file.SetOverflowCallback(this);
    }

    method FinishPage()
      modifies file`overflowCallback
      ensures file.overflowCallback == null
    {
      file.SetOverflowCallback(null);
    }

    method WriteString(s: string)
      modifies file`written
      ensures file.written == old(file.written) + [PString(s)]
    {
      file.Write(PString(s));
    }

    method Close()
      modifies file`flushed, file`open
      ensures file.flushed == |file.written| && !file.open
    {
      file.Close();
    }

    /** Not a true flush: everything written so far is handed on. */
    method Flush()
      modifies file`flushed
      ensures file.flushed == |file.written|
    {
      file.Flush();
    }

    method Write(bytes: seq<bv8>)
      modifies file`written
      ensures file.written == old(file.written) + [PBytes(bytes)]
    {
      file.Write(PBytes(bytes));
    }

    method WriteBoolean(b: bool)
      modifies file`written
      ensures file.written == old(file.written) + [PBool(b)]
    {
      file.Write(PBool(b));
    }

    method WriteByte(v: bv8)
      modifies file`written
      ensures file.written == old(file.written) + [PByte(v)]
    {
      file.Write(PByte(v));
    }

    method WriteChar(c: char)
      modifies file`written
      ensures file.written == old(file.written) + [PChar(c)]
    {
      file.Write(PChar(c));
    }

    method WriteInt(v: bv32)
      modifies file`written
      ensures file.written == old(file.written) + [PInt(v)]
    {
      file.Write(PInt(v));
    }

    method WriteLong(v: bv64)
      modifies file`written
      ensures file.written == old(file.written) + [PLong(v)]
    {
      file.Write(PLong(v));
    }

    method WriteShort(v: bv16)
      modifies file`written
      ensures file.written == old(file.written) + [PShort(v)]
    {
      file.Write(PShort(v));
    }

    method SkipWrite(n: bv32)
      modifies file`written
      ensures file.written == old(file.written) + [PSkip(n)]
    {
      file.Write(PSkip(n));
    }
  }
}
