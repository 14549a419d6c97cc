/** The unified USB image (tools/build_usb_unified.py): where its regions lie, the partition table `write_gpt` puts into
    it, the order in which `main` writes the regions, and the two programs that find the EFI system partition again
    (`parse_uefi_esp` there, `find_esp` in tools/f15_member_sha.py). Field offsets are those of section 5.3 of the UEFI
    Specification.

    The two checksums and the identifiers are parameters. The master boot record is any sector with its signature.
 */
module Gpt {
  import opened Basics
  import opened Wire

  const SECTOR := 512
  const ESP_START := 2048

  // ----- layout ---------------------------------------------------------------------------------------------

  /** The next multiple of `a`. */
  function AlignUp(v: nat, a: nat): (r: nat)
    requires a > 0
    ensures v <= r < v + a && r % a == 0
  {
    var q := (v + a - 1) / a;
    Multiples(v, a, q);
    q * a
  }

  lemma {:induction false} Multiples(v: nat, a: nat, q: nat)
    requires a > 0 && q == (v + a - 1) / a
    ensures v <= q * a < v + a && q * a % a == 0
  {
    assert v + a - 1 == q * a + (v + a - 1) % a;
    MultipleOf(q, a);
  }

  lemma {:induction false} OnlyZero(q: int, a: nat, r: int)
    requires a > 0 && r == q * a && 0 <= r < a
    ensures r == 0
  {
    if q >= 1 {
      AtLeastOnce(q, a);
    } else if q <= -1 {
      AtLeastOnce(-q, a);
    }
  }

  lemma {:induction false} AtLeastOnce(q: int, a: nat)
    requires q >= 1
    ensures q * a >= a
  {
  }

  lemma {:induction false} MultipleOf(q: nat, a: nat)
    requires a > 0
    ensures q * a % a == 0
  {
    var x := q * a;
    var k := x / a;
    assert x == k * a + x % a;
    assert q * a - k * a == (q - k) * a;
    OnlyZero(q - k, a, x % a);
  }

  /** Sizes of the two partitions, in sectors. */
  datatype Sizes = Sizes(esp: nat, data: nat)

  function EspEnd(z: Sizes): int { ESP_START + z.esp - 1 }

  function DataStart(z: Sizes): nat { AlignUp(ESP_START + z.esp, 2048) }

  function DataEnd(z: Sizes): int { DataStart(z) + z.data - 1 }

  function Total(z: Sizes): nat
    requires z.data > 0
  {
    DataStart(z) + z.data - 1 + 34
  }

  datatype Region = Region(start: nat, len: nat)

  /** The regions in the order they lie: boot record, header, entries, system partition, data partition, backup entries,
      backup header. */
  function Regions(z: Sizes): seq<Region>
    requires z.data > 0
  {
    [Region(0, 1), Region(1, 1), Region(2, 32), Region(ESP_START, z.esp), Region(DataStart(z), z.data),
     Region(Total(z) - 33, 32), Region(Total(z) - 1, 1)]
  }

  predicate Ordered(rs: seq<Region>) {
    forall i, k :: 0 <= i < k < |rs| ==> rs[i].start + rs[i].len <= rs[k].start
  }

  /** For all sizes of at least one sector: regions are in order and do not overlap, the last ends the image, and both
      partitions lie in the range the header calls usable. */
  lemma {:induction false} RegionsFit(z: Sizes)
    requires z.esp > 0 && z.data > 0
    ensures Ordered(Regions(z)) && Regions(z)[6].start + Regions(z)[6].len == Total(z)
    ensures 34 <= ESP_START <= EspEnd(z) < DataStart(z) <= DataEnd(z) == Total(z) - 34
    ensures DataStart(z) % 2048 == 0
  {
  }

  // ----- the partition table --------------------------------------------------------------------------------

  const MAGIC: bytes := [0x45, 0x46, 0x49, 0x20, 0x50, 0x41, 0x52, 0x54]

  /** C12A7328-F81F-11D2-BA4B-00A0C93EC93B, its first three fields little-endian. */
  const ESP_TYPE: bytes := [0x28, 0x73, 0x2A, 0xC1, 0x1F, 0xF8, 0xD2, 0x11, 0xBA, 0x4B, 0x00, 0xA0, 0xC9, 0x3E, 0xC9, 0x3B]

  /** EBD0A0A2-B9E5-4433-87C0-68B6B72699C7. */
  const BASIC_TYPE: bytes := [0xA2, 0xA0, 0xD0, 0xEB, 0xE5, 0xB9, 0x33, 0x44, 0x87, 0xC0, 0x68, 0xB6, 0xB7, 0x26, 0x99, 0xC7]

  function Zeros(n: nat): (b: bytes)
    ensures |b| == n
  {
    seq(n, _ => 0)
  }

  /** What the caller supplies: identifiers, partition names in their 72 bytes, and the checksum. */
  datatype Ids = Ids(disk: bytes, esp: bytes, data: bytes, espName: bytes, dataName: bytes, crc: bytes -> nat)

  predicate IdsFit(ids: Ids) {
    |ids.disk| == 16 && |ids.esp| == 16 && |ids.data| == 16 && |ids.espName| == 72 && |ids.dataName| == 72
  }

  function EntryBytes(kind: bytes, id: bytes, start: nat, end: nat, name: bytes): (b: bytes)
    requires |kind| == 16 && |id| == 16 && |name| == 72
    ensures |b| == 128
  {
    kind + (id + (LE(start, 8) + (LE(end, 8) + (LE(0, 8) + name))))
  }

  function EntryTable(z: Sizes, ids: Ids): (b: bytes)
    requires IdsFit(ids) && z.esp > 0 && z.data > 0
    ensures |b| == 16384
  {
    EntryBytes(ESP_TYPE, ids.esp, ESP_START, ESP_START + z.esp - 1, ids.espName) +
    (EntryBytes(BASIC_TYPE, ids.data, DataStart(z), DataStart(z) + z.data - 1, ids.dataName) + Zeros(126 * 128))
  }

  /** Bytes 16 to 71 of a header: its own checksum, then the numbers up to the disk identifier. */
  function HeadMiddle(crc: nat, current: nat, alternate: nat, lastUsable: nat, disk: bytes): (b: bytes)
    requires |disk| == 16
    ensures |b| == 56
  {
    LE(crc, 4) + (LE(0, 4) + (LE(current, 8) + (LE(alternate, 8) + (LE(34, 8) + (LE(lastUsable, 8) + disk)))))
  }

  /** The first 92 bytes. */
  function Head92(crc: nat, current: nat, alternate: nat, entries: nat, lastUsable: nat, disk: bytes, entriesCrc: nat): (b: bytes)
    requires |disk| == 16
    ensures |b| == 92
  {
    MAGIC + (LE(0x10000, 4) + (LE(92, 4) + (HeadMiddle(crc, current, alternate, lastUsable, disk) +
    (LE(entries, 8) + (LE(128, 4) + (LE(128, 4) + LE(entriesCrc, 4)))))))
  }

  /** A header: its checksum is that of the first 92 bytes with the checksum field zero. */
  function HeadBytes(z: Sizes, ids: Ids, current: nat, alternate: nat, entries: nat): (b: bytes)
    requires IdsFit(ids) && z.esp > 0 && z.data > 0
    ensures |b| == SECTOR
  {
    var entriesCrc := ids.crc(EntryTable(z, ids));
    var bare := Head92(0, current, alternate, entries, Total(z) - 34, ids.disk, entriesCrc);
    Head92(ids.crc(bare), current, alternate, entries, Total(z) - 34, ids.disk, entriesCrc) + Zeros(420)
  }

  // ----- writing regions ------------------------------------------------------------------------------------

  function Patched(d: bytes, off: nat, b: bytes): (r: bytes)
    requires off + |b| <= |d|
    ensures |r| == |d|
  {
    d[..off] + b + d[off + |b|..]
  }

  lemma {:induction false} PatchedAt(d: bytes, off: nat, b: bytes)
    requires off + |b| <= |d|
    ensures At(Patched(d, off, b), off, b)
  {
    AtSlice(Patched(d, off, b), off, b);
  }

  predicate Apart(a: nat, aLen: nat, b: nat, bLen: nat) {
    a + aLen <= b || b + bLen <= a
  }

  lemma {:induction false} PatchedElsewhere(d: bytes, off: nat, b: bytes, p: nat, x: bytes)
    requires off + |b| <= |d| && At(d, p, x) && Apart(p, |x|, off, |b|)
    ensures At(Patched(d, off, b), p, x)
  {
    var r := Patched(d, off, b);
    AtSlice(d, p, x);
    AtSlice(r, p, x);
    assert forall i {:trigger x[i]} :: 0 <= i < |x| ==> d[p..p + |x|][i] == x[i];
    assert r[p..p + |x|] == x;
  }

  datatype RegionWrite = RegionWrite(off: nat, b: bytes)

  predicate InBounds(ws: seq<RegionWrite>, size: nat) {
    forall i :: 0 <= i < |ws| ==> ws[i].off + |ws[i].b| <= size
  }

  /** The image after the first `k` writes. */
  function Applied(d: bytes, ws: seq<RegionWrite>, k: nat): (r: bytes)
    requires k <= |ws| && InBounds(ws, |d|)
    ensures |r| == |d|
  {
    if k == 0 then d else Patched(Applied(d, ws, k - 1), ws[k - 1].off, ws[k - 1].b)
  }

  /** Write `i` is not touched by any of the writes after it. */
  predicate Undisturbed(ws: seq<RegionWrite>, i: nat)
    requires i < |ws|
  {
    forall k :: i < k < |ws| ==> Apart(ws[i].off, |ws[i].b|, ws[k].off, |ws[k].b|)
  }

  /** What was written and not overwritten stays. */
  lemma {:induction false} WriteStays(d: bytes, ws: seq<RegionWrite>, i: nat, k: nat)
    requires i < k <= |ws| && InBounds(ws, |d|) && Undisturbed(ws, i)
    ensures At(Applied(d, ws, k), ws[i].off, ws[i].b)
  {
    var before := Applied(d, ws, k - 1);
    if i == k - 1 {
      PatchedAt(before, ws[i].off, ws[i].b);
    } else {
      WriteStays(d, ws, i, k - 1);
      PatchedElsewhere(before, ws[k - 1].off, ws[k - 1].b, ws[i].off, ws[i].b);
    }
  }

  /** What goes into the image besides the table. */
  datatype Content = Content(mbr: bytes, esp: bytes, data: bytes)

  predicate ContentFits(z: Sizes, c: Content) {
    && z.esp > 0 && z.data > 0
    && |c.mbr| == SECTOR && c.mbr[510] == 0x55 && c.mbr[511] == 0xAA
    && |c.esp| == z.esp * SECTOR && |c.data| == z.data * SECTOR
  }

  /** The seven region writes, in the order they are made. */
  function RegionWrites(z: Sizes, ids: Ids, c: Content): seq<RegionWrite>
    requires IdsFit(ids) && ContentFits(z, c)
  {
    [RegionWrite(0, c.mbr),
     RegionWrite(SECTOR, HeadBytes(z, ids, 1, Total(z) - 1, 2)),
     RegionWrite(2 * SECTOR, EntryTable(z, ids)),
     RegionWrite((Total(z) - 33) * SECTOR, EntryTable(z, ids)),
     RegionWrite((Total(z) - 1) * SECTOR, HeadBytes(z, ids, Total(z) - 1, 1, Total(z) - 33)),
     RegionWrite(ESP_START * SECTOR, c.esp),
     RegionWrite(DataStart(z) * SECTOR, c.data)]
  }

  /** Later changes inside the data partition only. */
  predicate InsideData(z: Sizes, patches: seq<RegionWrite>) {
    forall i :: 0 <= i < |patches| ==>
      DataStart(z) * SECTOR <= patches[i].off && patches[i].off + |patches[i].b| <= (DataStart(z) + z.data) * SECTOR
  }

  lemma {:induction false} RegionsApart(z: Sizes, ids: Ids, c: Content, i: nat, k: nat)
    requires IdsFit(ids) && ContentFits(z, c) && i < k < 7
    ensures var ws := RegionWrites(z, ids, c); Apart(ws[i].off, |ws[i].b|, ws[k].off, |ws[k].b|)
  {
    RegionsFit(z);
  }

  lemma {:induction false} RegionsInBounds(z: Sizes, ids: Ids, c: Content)
    requires IdsFit(ids) && ContentFits(z, c)
    ensures InBounds(RegionWrites(z, ids, c), Total(z) * SECTOR)
  {
    RegionsFit(z);
  }

  /** The finished image. */
  function Image(z: Sizes, ids: Ids, c: Content, patches: seq<RegionWrite>): (img: bytes)
    requires IdsFit(ids) && ContentFits(z, c) && InsideData(z, patches)
    ensures |img| == Total(z) * SECTOR
  {
    RegionsInBounds(z, ids, c);
    var ws := RegionWrites(z, ids, c) + patches;
    Applied(Zeros(Total(z) * SECTOR), ws, |ws|)
  }

  lemma {:induction false} PatchesApart(z: Sizes, ids: Ids, c: Content, patches: seq<RegionWrite>, i: nat)
    requires IdsFit(ids) && ContentFits(z, c) && InsideData(z, patches) && i < 7 && (i == 6 ==> patches == [])
    ensures Undisturbed(RegionWrites(z, ids, c) + patches, i)
  {
    var ws := RegionWrites(z, ids, c);
    RegionsFit(z);
    forall k | i < k < 7 + |patches|
      ensures Apart(ws[i].off, |ws[i].b|, (ws + patches)[k].off, |(ws + patches)[k].b|)
    {
      if k < 7 {
        RegionsApart(z, ids, c, i, k);
      } else {
        RegionsApart(z, ids, c, i, 6);
      }
    }
  }

  /** Every region of the finished image holds what was written to it; the data partition too when nothing patched it. */
  lemma {:induction false} RegionsHold(z: Sizes, ids: Ids, c: Content, patches: seq<RegionWrite>, i: nat)
    requires IdsFit(ids) && ContentFits(z, c) && InsideData(z, patches) && i < 7 && (i == 6 ==> patches == [])
    ensures var w := RegionWrites(z, ids, c)[i]; At(Image(z, ids, c, patches), w.off, w.b)
  {
    var ws := RegionWrites(z, ids, c) + patches;
    RegionsInBounds(z, ids, c);
    PatchesApart(z, ids, c, patches, i);
    WriteStays(Zeros(Total(z) * SECTOR), ws, i, |ws|);
  }

  // ----- the file as the program writes it ------------------------------------------------------------------

  lemma {:induction false} PatchedTwice(d: bytes, off: nat, a: bytes, b: bytes)
    requires off + |a| + |b| <= |d|
    ensures Patched(Patched(d, off, a), off + |a|, b) == Patched(d, off, a + b)
  {
  }

  class ImageFile {
    var data: bytes
    var pos: nat

    constructor (size: nat)
      ensures data == Zeros(size) && pos == 0
    {
      data, pos := Zeros(size), 0;
    }

    method Seek(to: nat)
      modifies this
      ensures data == old(data) && pos == to
    {
      pos := to;
    }

    method Put(b: bytes)
      requires pos + |b| <= |data|
      modifies this
      ensures data == Patched(old(data), old(pos), b) && pos == old(pos) + |b|
    {
      data := data[..pos] + b + data[pos + |b|..];
      pos := pos + |b|;
    }

    /** The chunked copy of a partition, by pieces of at most `chunk` bytes. */
    method Copy(to: nat, src: bytes, chunk: nat)
      requires chunk > 0 && to + |src| <= |data|
      modifies this
      ensures data == Patched(old(data), to, src)
    {
      ghost var was := data;
      Seek(to);
      var done := 0;
      assert src[..0] == [] && Patched(was, to, []) == was;
      while done < |src|
        invariant 0 <= done <= |src| && pos == to + done && |data| == |was|
        invariant data == Patched(was, to, src[..done])
      {
        var n := if |src| - done < chunk then |src| - done else chunk;
        PatchedTwice(was, to, src[..done], src[done..done + n]);
        assert src[..done] + src[done..done + n] == src[..done + n];
        Put(src[done..done + n]);
        done := done + n;
      }
      assert src[..done] == src;
    }

    method Write(off: nat, b: bytes, ghost d: bytes, ghost ws: seq<RegionWrite>, ghost k: nat)
      requires k < |ws| && InBounds(ws, |d|) && ws[k] == RegionWrite(off, b) && data == Applied(d, ws, k)
      modifies this
      ensures data == Applied(d, ws, k + 1)
    {
      Seek(off);
      Put(b);
    }
  }

  /** The writes of `write_gpt` and `main`, in their order; the data partition is copied in pieces. */
  method BuildImage(z: Sizes, ids: Ids, c: Content, patches: seq<RegionWrite>, chunk: nat) returns (img: bytes)
    requires IdsFit(ids) && ContentFits(z, c) && InsideData(z, patches) && chunk > 0
    ensures img == Image(z, ids, c, patches)
  {
    RegionsInBounds(z, ids, c);
    var size := Total(z) * SECTOR;
    var ws := RegionWrites(z, ids, c);
    ghost var all, blank := ws + patches, Zeros(size);
    var f := new ImageFile(size);
    for k := 0 to 6
      invariant f.data == Applied(blank, all, k)
    {
      f.Write(ws[k].off, ws[k].b, blank, all, k);
    }
    f.Copy(ws[6].off, ws[6].b, chunk);
    for k := 0 to |patches|
      invariant f.data == Applied(blank, all, 7 + k)
    {
      f.Write(patches[k].off, patches[k].b, blank, all, 7 + k);
    }
    img := f.data;
  }
}
