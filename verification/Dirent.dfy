/** Directory entries as the kernel reads them: the encoding AppendDirent builds, and reading it page by page. */
module Dirent {
  type Byte = n: nat | n < 256

  type Bytes = seq<Byte>

  const HEADER := 24

  // -------------------------------------------------------------------------------------------
  // Numbers.

  function Pow256(k: nat): nat { if k == 0 then 1 else 256 * Pow256(k - 1) }

  /** The low `width` bytes of a number, least significant first. */
  function LittleEndian(n: nat, width: nat): (b: Bytes)
    ensures |b| == width
  {
    if width == 0 then [] else [n % 256] + LittleEndian(n / 256, width - 1)
  }

  function Value(b: Bytes): nat { if b == [] then 0 else b[0] + 256 * Value(b[1..]) }

  lemma {:induction false} NumberRoundTrip(n: nat, width: nat)
    requires n < Pow256(width)
    ensures Value(LittleEndian(n, width)) == n
  {
    if width > 0 {
      NumberRoundTrip(n / 256, width - 1);
      assert LittleEndian(n, width)[1..] == LittleEndian(n / 256, width - 1);
    }
  }

  lemma Widths()
    ensures Pow256(4) == 0x1_0000_0000 && Pow256(8) == 0x1_0000_0000_0000_0000
  {
    assert Pow256(1) == 0x100;
    assert Pow256(2) == 0x1_0000;
    assert Pow256(3) == 0x100_0000;
    assert Pow256(4) == 0x1_0000_0000;
    assert Pow256(5) == 0x100_0000_0000;
    assert Pow256(6) == 0x1_0000_0000_0000;
    assert Pow256(7) == 0x100_0000_0000_0000;
  }

  function RoundUp8(n: nat): (r: nat)
    ensures n <= r < n + 8 && r % 8 == 0
  {
    (n + 7) / 8 * 8
  }

  // -------------------------------------------------------------------------------------------
  // The encoding.

  datatype Entry = Entry(inode: nat, kind: nat, name: Bytes)

  /** What fits the fields of the header. */
  predicate Fits(e: Entry) {
    e.inode < 0x1_0000_0000_0000_0000 && e.kind < 0x1_0000_0000 && |e.name| < 0x1_0000_0000
  }

  function Size(e: Entry): nat { HEADER + |e.name| + 8 }

  /** The length an entry takes. */
  function Length(e: Entry): nat { HEADER + RoundUp8(|e.name|) }

  function Header(e: Entry, off: nat): (h: Bytes)
    ensures |h| == HEADER
  {
    LittleEndian(e.inode, 8) + LittleEndian(off, 8) + LittleEndian(|e.name|, 4) + LittleEndian(e.kind, 4)
  }

  function Zeros(n: nat): (z: Bytes)
    ensures |z| == n
  {
    seq(n, i => 0)
  }

  /** The entry that ends at offset `off`. */
  function Encoded(e: Entry, off: nat): (b: Bytes)
    ensures |b| == Length(e)
  {
    Header(e, off) + e.name + Zeros(RoundUp8(|e.name|) - |e.name|)
  }

  function Listing(es: seq<Entry>): Bytes {
    if es == [] then [] else
    var data, e := Listing(es[..|es| - 1]), es[|es| - 1];
    data + Encoded(e, |data| + Length(e))
  }

  lemma Padding(n: nat)
    ensures RoundUp8(n) - n == if (HEADER + n) % 8 == 0 then 0 else 8 - (HEADER + n) % 8
  {
  }

  /** Appends an entry: header, name, and padding to a multiple of eight. */
  method AppendDirent(data: Bytes, e: Entry) returns (r: Bytes)
    ensures r == data + Encoded(e, |data| + Length(e))
  {
    var off := |data| + HEADER + RoundUp8(|e.name|);
    r := data + Header(e, off);
    r := r + e.name;
    var n := HEADER + |e.name|;
    Padding(|e.name|);
    if n % 8 != 0 {
      r := r + Zeros(8 - n % 8);
    }
  }

  method Encode(es: seq<Entry>) returns (all: Bytes)
    ensures all == Listing(es)
  {
    all := [];
    for i := 0 to |es|
      invariant all == Listing(es[..i])
    {
      assert es[..i + 1][..i] == es[..i];
      all := AppendDirent(all, es[i]);
    }
    assert es[..|es|] == es;
  }

  /** The lengths are compared as 32-bit numbers. */
  function Window(data: Bytes, offset: nat, size: nat): Bytes {
    if offset >= |data| then [] else
    var rest := data[offset..];
    if |rest| % 0x1_0000_0000 > size then rest[..size] else rest
  }

  // -------------------------------------------------------------------------------------------
  // Reading.

  datatype Seen = Seen(entry: Entry, off: nat)

  /** The whole entries at the start of a page. */
  function Read(b: Bytes): seq<Seen> {
    if |b| < HEADER then [] else
    var nameLength := Value(b[16..20]);
    var length := HEADER + RoundUp8(nameLength);
    if length > |b| then [] else
    [Seen(Entry(Value(b[..8]), Value(b[20..24]), b[24..24 + nameLength]), Value(b[8..16]))] + Read(b[length..])
  }

  /** The offset of the entry after the first `k`. */
  function Start(es: seq<Entry>, k: nat): nat
    requires k <= |es|
  {
    |Listing(es[..k])|
  }

  function SeenAt(es: seq<Entry>, i: nat): Seen
    requires i < |es|
  {
    Seen(es[i], Start(es, i + 1))
  }

  lemma StartStep(es: seq<Entry>, k: nat)
    requires k < |es|
    ensures Listing(es[..k + 1]) == Listing(es[..k]) + Encoded(es[k], Start(es, k + 1))
    ensures Start(es, k + 1) == Start(es, k) + Length(es[k])
  {
    assert es[..k + 1][..k] == es[..k];
  }

  lemma LengthAligned(e: Entry, n: nat)
    requires n % 8 == 0
    ensures (n + Length(e)) % 8 == 0 && Length(e) <= Size(e)
  {
  }

  /** Entries start at multiples of eight, and take no more than their sizes say. */
  lemma {:induction false} StartsAligned(es: seq<Entry>, k: nat)
    requires k <= |es|
    ensures Start(es, k) % 8 == 0 && Start(es, k) <= Sizes(es[..k])
  {
    if k > 0 {
      StartsAligned(es, k - 1);
      StartStep(es, k - 1);
      LengthAligned(es[k - 1], Start(es, k - 1));
      assert es[..k][..k - 1] == es[..k - 1];
    }
  }

  function Sizes(es: seq<Entry>): nat { if es == [] then 0 else Sizes(es[..|es| - 1]) + Size(es[|es| - 1]) }

  lemma FourParts(a: Bytes, b: Bytes, c: Bytes, d: Bytes)
    requires |a| == 8 && |b| == 8 && |c| == 4 && |d| == 4
    ensures var h := a + b + c + d; h[..8] == a && h[8..16] == b && h[16..20] == c && h[20..24] == d
  {
  }

  lemma FieldReadsBack(n: nat, width: nat)
    requires width == 4 || width == 8
    requires n < if width == 4 then 0x1_0000_0000 else 0x1_0000_0000_0000_0000
    ensures Value(LittleEndian(n, width)) == n
  {
    Widths();
    NumberRoundTrip(n, width);
  }

  lemma HeaderFields(e: Entry, off: nat)
    requires Fits(e) && off < 0x1_0000_0000_0000_0000
    ensures var h := Header(e, off);
      Value(h[..8]) == e.inode && Value(h[8..16]) == off && Value(h[16..20]) == |e.name| && Value(h[20..24]) == e.kind
  {
    FieldReadsBack(e.inode, 8);
    FieldReadsBack(off, 8);
    FieldReadsBack(|e.name|, 4);
    FieldReadsBack(e.kind, 4);
    FourParts(LittleEndian(e.inode, 8), LittleEndian(off, 8), LittleEndian(|e.name|, 4), LittleEndian(e.kind, 4));
  }

  /** Reading past a whole entry. */
  lemma ReadOne(e: Entry, off: nat, rest: Bytes)
    requires Fits(e) && off < 0x1_0000_0000_0000_0000
    ensures Read(Encoded(e, off) + rest) == [Seen(e, off)] + Read(rest)
  {
    var b := Encoded(e, off) + rest;
    var h := Header(e, off);
    HeaderFields(e, off);
    SameHeader(h, b);
    assert b[24..24 + |e.name|] == e.name;
    assert b[Length(e)..] == rest;
  }

  lemma SameHeader(h: Bytes, b: Bytes)
    requires |h| == HEADER && h <= b
    ensures b[..8] == h[..8] && b[8..16] == h[8..16] && b[16..20] == h[16..20] && b[20..24] == h[20..24]
  {
  }

  /** An entry cut short is not read. */
  lemma ReadCut(e: Entry, off: nat, n: nat)
    requires Fits(e) && off < 0x1_0000_0000_0000_0000 && n < Length(e)
    ensures Read(Encoded(e, off)[..n]) == []
  {
    if n >= HEADER {
      var h, rest := Header(e, off), e.name + Zeros(RoundUp8(|e.name|) - |e.name|);
      HeaderFields(e, off);
      assert Encoded(e, off) == h + rest;
      PartOfPrefix(h, rest, n, 16, 20);
    }
  }

  lemma PartOfPrefix(h: Bytes, rest: Bytes, n: nat, i: nat, j: nat)
    requires i <= j <= |h| <= n <= |h + rest|
    ensures (h + rest)[..n][i..j] == h[i..j]
  {
  }

  /** The bytes from entry `k` on. */
  function From(es: seq<Entry>, k: nat): Bytes
    requires k <= |es|
  {
    PrefixOfListing(es, k);
    Listing(es)[Start(es, k)..]
  }

  lemma FromStep(es: seq<Entry>, k: nat)
    requires k < |es|
    ensures From(es, k) == Encoded(es[k], Start(es, k + 1)) + From(es, k + 1)
  {
    StartStep(es, k);
    PrefixOfListing(es, k);
    PrefixOfListing(es, k + 1);
    var all := Listing(es);
    assert all[Start(es, k)..Start(es, k + 1)] == Listing(es[..k + 1])[Start(es, k)..];
    assert From(es, k) == all[Start(es, k)..Start(es, k + 1)] + all[Start(es, k + 1)..];
  }

  function SeenBetween(es: seq<Entry>, k: nat, m: nat): seq<Seen>
    requires k <= m <= |es|
  {
    seq(m - k, i requires 0 <= i < m - k => SeenAt(es, k + i))
  }

  /** The last entry, from `k` on, that `n` bytes hold in full. */
  function LastWhole(es: seq<Entry>, k: nat, n: nat): (m: nat)
    requires k <= |es|
    ensures k <= m <= |es|
    decreases |es| - k
  {
    if k < |es| && Length(es[k]) <= n then LastWhole(es, k + 1, n - Length(es[k])) else k
  }

  ghost predicate Small(es: seq<Entry>) {
    |Listing(es)| < 0x1_0000_0000 && forall i :: 0 <= i < |es| ==> Fits(es[i])
  }

  lemma PageCut(head: Bytes, tail: Bytes, n: nat)
    requires n <= |head| + |tail|
    ensures (head + tail)[..n] == if n < |head| then head[..n] else head + tail[..n - |head|]
  {
  }

  lemma SeenFirst(es: seq<Entry>, k: nat, m: nat)
    requires k < m <= |es|
    ensures SeenBetween(es, k, m) == [SeenAt(es, k)] + SeenBetween(es, k + 1, m)
  {
  }

  lemma OffsetsFit(es: seq<Entry>, k: nat)
    requires Small(es) && k <= |es|
    ensures Start(es, k) < 0x1_0000_0000_0000_0000
  {
    PrefixOfListing(es, k);
  }

  /** A page shows the whole entries in it, one after the other, with the offsets to go on from. */
  lemma {:induction false} PageShows(es: seq<Entry>, k: nat, n: nat)
    requires Small(es) && k <= |es| && n <= |From(es, k)|
    ensures Read(From(es, k)[..n]) == SeenBetween(es, k, LastWhole(es, k, n))
    decreases |es| - k
  {
    if k == |es| {
      assert es[..k] == es;
    } else {
      FromStep(es, k);
      OffsetsFit(es, k + 1);
      var e, off := es[k], Start(es, k + 1);
      PageCut(Encoded(e, off), From(es, k + 1), n);
      if Length(e) <= n {
        ReadOne(e, off, From(es, k + 1)[..n - Length(e)]);
        PageShows(es, k + 1, n - Length(e));
        SeenFirst(es, k, LastWhole(es, k + 1, n - Length(e)));
      } else {
        ReadCut(e, off, n);
      }
    }
  }

  /** The whole listing reads back as the entries, each with the offset of the next. */
  lemma ListingReadsBack(es: seq<Entry>)
    requires Small(es)
    ensures Read(Listing(es)) == SeenBetween(es, 0, |es|)
  {
    assert Listing(es[..0]) == [];
    assert From(es, 0) == Listing(es);
    PageShows(es, 0, |Listing(es)|);
    WholeIsWhole(es, 0);
    assert From(es, 0)[..|Listing(es)|] == Listing(es);
  }

  lemma {:induction false} WholeIsWhole(es: seq<Entry>, k: nat)
    requires k <= |es|
    ensures LastWhole(es, k, |From(es, k)|) == |es|
    decreases |es| - k
  {
    if k < |es| {
      FromStep(es, k);
      WholeIsWhole(es, k + 1);
    }
  }

  lemma PrefixOfPrefix<T>(s: seq<T>, i: nat, j: nat)
    requires i <= j <= |s|
    ensures s[..j][..i] == s[..i]
  {
  }

  lemma {:induction false} PrefixOfListing(es: seq<Entry>, k: nat)
    requires k <= |es|
    ensures Start(es, k) <= |Listing(es)| && Listing(es)[..Start(es, k)] == Listing(es[..k])
    decreases |es| - k
  {
    if k < |es| {
      StartStep(es, k);
      PrefixOfListing(es, k + 1);
      PrefixOfPrefix(Listing(es), Start(es, k), Start(es, k + 1));
    } else {
      assert es[..k] == es;
    }
  }

  /** The entry at which page `i` starts, if each page goes on from the last whole entry of the one before. */
  ghost function PageStart(es: seq<Entry>, sizes: nat -> nat, i: nat): (k: nat)
    ensures k <= |es|
  {
    if i == 0 then 0 else
    var k := PageStart(es, sizes, i - 1);
    LastWhole(es, k, |Window(Listing(es), Start(es, k), sizes(i - 1))|)
  }

  /** Every page has room for the entry it starts at. */
  ghost predicate RoomForNext(es: seq<Entry>, sizes: nat -> nat) {
    forall i: nat :: var k := PageStart(es, sizes, i); k < |es| ==> sizes(i) >= Length(es[k])
  }

  /** A reader that asks for page after page, going on from the offset of the last entry it saw, sees every entry
      once and in order, if each page has room for the next entry. */
  method ReadDirectory(all: Bytes, sizes: nat -> nat, ghost es: seq<Entry>) returns (seen: seq<Seen>)
    requires Small(es) && all == Listing(es)
    requires RoomForNext(es, sizes)
    ensures seen == SeenBefore(es, |es|)
  {
    seen := [];
    var offset, page := 0, 0;
    assert Listing(es[..0]) == [];
    while true
      invariant offset == Start(es, PageStart(es, sizes, page)) && seen == SeenBefore(es, PageStart(es, sizes, page))
      decreases |es| - PageStart(es, sizes, page)
    {
      var data := Window(all, offset, sizes(page));
      PageByPage(es, sizes, page);
      if data == [] {
        return;
      }
      var entries := Read(data);
      seen := seen + entries;
      offset := entries[|entries| - 1].off;
      page := page + 1;
    }
  }

  ghost function SeenBefore(es: seq<Entry>, k: nat): seq<Seen>
    requires k <= |es|
  {
    SeenBetween(es, 0, k)
  }

  /** A page that starts at entry `k` is empty at the end only; otherwise it shows the entries up to `m` and the offset
      to go on from. */
  ghost predicate MovesOn(es: seq<Entry>, k: nat, m: nat, data: Bytes)
    requires k <= |es| && m <= |es|
  {
    && (data == [] <==> k == |es|)
    && (k < |es| ==> k < m && |Read(data)| > 0 && Read(data)[|Read(data)| - 1].off == Start(es, m))
    && (k < |es| ==> SeenBefore(es, k) + Read(data) == SeenBefore(es, m))
  }

  lemma PageByPage(es: seq<Entry>, sizes: nat -> nat, i: nat)
    requires Small(es) && RoomForNext(es, sizes)
    ensures var k := PageStart(es, sizes, i);
      MovesOn(es, k, PageStart(es, sizes, i + 1), Window(Listing(es), Start(es, k), sizes(i)))
  {
    var k := PageStart(es, sizes, i);
    assert k < |es| ==> sizes(i) >= Length(es[k]);
    PageMovesOn(es, k, sizes(i));
  }

  lemma LastSeen(es: seq<Entry>, k: nat, m: nat)
    requires k < m <= |es|
    ensures |SeenBetween(es, k, m)| > 0
    ensures SeenBetween(es, k, m)[|SeenBetween(es, k, m)| - 1].off == Start(es, m)
  {
    assert SeenBetween(es, k, m)[m - k - 1] == SeenAt(es, k + (m - k - 1));
    assert k + (m - k - 1) + 1 == m;
  }

  lemma PageMovesOn(es: seq<Entry>, k: nat, size: nat)
    requires Small(es) && k <= |es| && (k < |es| ==> size >= Length(es[k]))
    ensures var data := Window(Listing(es), Start(es, k), size);
      MovesOn(es, k, LastWhole(es, k, |data|), data)
  {
    var m := OnePage(es, k, size);
    SeenTogether(es, k, m);
    if k < m { LastSeen(es, k, m); }
  }

  lemma WindowIsPrefix(data: Bytes, offset: nat, size: nat)
    requires |data| < 0x1_0000_0000 && offset <= |data|
    ensures Window(data, offset, size) == data[offset..][..if |data| - offset > size then size else |data| - offset]
  {
  }

  lemma PageIsPart(es: seq<Entry>, k: nat, size: nat)
    requires Small(es) && k <= |es| && (k < |es| ==> size >= Length(es[k]))
    ensures var data := Window(Listing(es), Start(es, k), size);
      && |data| <= |From(es, k)| && data == From(es, k)[..|data|]
      && (data == [] <==> k == |es|) && (k < |es| ==> LastWhole(es, k, |data|) > k)
  {
    PrefixOfListing(es, k);
    WindowIsPrefix(Listing(es), Start(es, k), size);
    if k < |es| {
      FromStep(es, k);
    } else {
      assert es[..k] == es;
    }
  }

  lemma OnePage(es: seq<Entry>, k: nat, size: nat) returns (m: nat)
    requires Small(es) && k <= |es| && (k < |es| ==> size >= Length(es[k]))
    ensures k <= m == LastWhole(es, k, |Window(Listing(es), Start(es, k), size)|) <= |es|
    ensures Window(Listing(es), Start(es, k), size) == [] <==> k == |es|
    ensures k < |es| ==> k < m && Read(Window(Listing(es), Start(es, k), size)) == SeenBetween(es, k, m)
  {
    PageIsPart(es, k, size);
    m := LastWhole(es, k, |Window(Listing(es), Start(es, k), size)|);
    PageShows(es, k, |Window(Listing(es), Start(es, k), size)|);
  }

  lemma SeenTogether(es: seq<Entry>, k: nat, m: nat)
    requires k <= m <= |es|
    ensures SeenBetween(es, 0, k) + SeenBetween(es, k, m) == SeenBetween(es, 0, m)
  {
  }
}
