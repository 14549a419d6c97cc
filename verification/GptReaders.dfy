/** The two readers of the partition table: `parse_uefi_esp` (tools/build_usb_unified.py) and `find_esp`
    (tools/f15_member_sha.py), and what they read from an image of module Gpt.
 */
module GptReaders {
  import opened Basics
  import opened Wire
  import opened Gpt

  // ----- find_esp -------------------------------------------------------------------------------------------

  predicate HasMagic(img: bytes) {
    |img| >= SECTOR + 8 && img[SECTOR..SECTOR + 8] == MAGIC
  }

  predicate IsType(img: bytes, o: nat, kind: bytes) {
    o + 16 <= |img| && img[o..o + 16] == kind
  }

  /** Looks at `left` entries of 128 bytes from offset `o`. */
  function FindFrom(img: bytes, o: nat, left: nat): Result<nat>
    decreases left
  {
    if left == 0 then Err("no system partition")
    else if IsType(img, o, ESP_TYPE) then
      if o + 40 > |img| then Err("struct.error") else Ok(NumAt(img, o + 32, 8) * SECTOR)
    else FindFrom(img, o + 128, left - 1)
  }

  /** The byte offset of the system partition. */
  function FindEsp(img: bytes): Result<nat> {
    if !HasMagic(img) then Err("no partition table")
    else if |img| < SECTOR + 84 then Err("struct.error")
    else FindFrom(img, NumAt(img, SECTOR + 72, 8) * SECTOR, NumAt(img, SECTOR + 80, 4))
  }

  method FindEspScan(img: bytes) returns (r: Result<nat>)
    ensures r == FindEsp(img)
  {
    if !HasMagic(img) {
      return Err("no partition table");
    }
    if |img| < SECTOR + 84 {
      return Err("struct.error");
    }
    var base, n := NumAt(img, SECTOR + 72, 8) * SECTOR, NumAt(img, SECTOR + 80, 4);
    var k: nat, o: nat := 0, base;
    while k < n
      invariant 0 <= k <= n && FindFrom(img, base, n) == FindFrom(img, o, n - k)
    {
      if IsType(img, o, ESP_TYPE) {
        return if o + 40 > |img| then Err("struct.error") else Ok(NumAt(img, o + 32, 8) * SECTOR);
      }
      k, o := k + 1, o + 128;
    }
    r := Err("no system partition");
  }

  // ----- parse_uefi_esp -------------------------------------------------------------------------------------

  /** The bounds of a partition, as read from the entry at `o`. */
  function BoundsAt(img: bytes, o: nat): (nat, nat)
    requires o + 48 <= |img|
  {
    (NumAt(img, o + 32, 8), NumAt(img, o + 40, 8))
  }

  /** Looks at `left` entries of `size` bytes from offset `o`; `best` is the first nonempty partition met so far. */
  function PickFrom(img: bytes, o: nat, size: nat, left: nat, best: Option<(nat, nat)>): Result<Option<(nat, nat)>>
    decreases left
  {
    if left == 0 || o + size > |img| then Ok(best)
    else if size >= 16 && IsType(img, o, Zeros(16)) then PickFrom(img, o + size, size, left - 1, best)
    else if size < 48 then Err("struct.error")
    else if IsType(img, o, ESP_TYPE) then Ok(Some(BoundsAt(img, o)))
    else PickFrom(img, o + size, size, left - 1, if best.None? then Some(BoundsAt(img, o)) else best)
  }

  datatype Esp = Esp(start: nat, sectors: nat, raw: bytes)

  /** Cuts the partition out of the image. */
  function CutOut(img: bytes, b: (nat, nat)): Result<Esp> {
    if b.1 + 1 < b.0 then Err("truncated")
    else
      var sectors := b.1 + 1 - b.0;
      if sectors == 0 then Ok(Esp(b.0, 0, []))
      else if (b.0 + sectors) * SECTOR > |img| then Err("truncated")
      else Ok(Esp(b.0, sectors, img[b.0 * SECTOR..(b.0 + sectors) * SECTOR]))
  }

  predicate HasSignature(img: bytes) {
    |img| >= SECTOR && img[510] == 0x55 && img[511] == 0xAA
  }

  function ParseEsp(img: bytes): Result<Esp> {
    if !HasSignature(img) then Err("no boot signature")
    else if !HasMagic(img) then Err("no partition table")
    else if |img| < SECTOR + 88 then Err("struct.error")
    else
      match PickFrom(img, NumAt(img, SECTOR + 72, 8) * SECTOR, NumAt(img, SECTOR + 84, 4), NumAt(img, SECTOR + 80, 4), None)
      case Err(e) => Err(e)
      case Ok(None) => Err("no partition")
      case Ok(Some(b)) => CutOut(img, b)
  }

  method Pick(img: bytes, base: nat, size: nat, count: nat) returns (r: Result<Option<(nat, nat)>>)
    ensures r == PickFrom(img, base, size, count, None)
  {
    var best: Option<(nat, nat)> := None;
    var k: nat, o: nat := 0, base;
    while k < count
      invariant 0 <= k <= count && PickFrom(img, base, size, count, None) == PickFrom(img, o, size, count - k, best)
    {
      if o + size > |img| {
        break;
      }
      if !(size >= 16 && IsType(img, o, Zeros(16))) {
        if size < 48 {
          return Err("struct.error");
        }
        if IsType(img, o, ESP_TYPE) || best.None? {
          best := Some(BoundsAt(img, o));
          if IsType(img, o, ESP_TYPE) {
            return Ok(best);
          }
        }
      }
      k, o := k + 1, o + size;
    }
    r := Ok(best);
  }

  method ParseEspScan(img: bytes) returns (r: Result<Esp>)
    ensures r == ParseEsp(img)
  {
    if !HasSignature(img) {
      return Err("no boot signature");
    }
    if !HasMagic(img) {
      return Err("no partition table");
    }
    if |img| < SECTOR + 88 {
      return Err("struct.error");
    }
    var found := Pick(img, NumAt(img, SECTOR + 72, 8) * SECTOR, NumAt(img, SECTOR + 84, 4), NumAt(img, SECTOR + 80, 4));
    match found {
      case Err(e) => r := Err(e);
      case Ok(None) => r := Err("no partition");
      case Ok(Some(b)) => r := CutOut(img, b);
    }
  }

  // ----- they agree -----------------------------------------------------------------------------------------

  lemma {:induction false} SameEntry(img: bytes, o: nat, left: nat, best: Option<(nat, nat)>)
    requires FindFrom(img, o, left).Ok? && o + 128 * left <= |img|
    ensures var r := PickFrom(img, o, 128, left, best);
            r.Ok? && r.value.Some? && r.value.value.0 * SECTOR == FindFrom(img, o, left).value
    decreases left
  {
    NotBlank();
    if !IsType(img, o, ESP_TYPE) {
      var best' := if IsType(img, o, Zeros(16)) || best.Some? then best else Some(BoundsAt(img, o));
      SameEntry(img, o + 128, left - 1, best');
    }
  }

  /** On every image whose table of 128-byte entries lies inside it: if one reader finds a system partition, the other
      starts at the same byte or finds the partition truncated. */
  lemma {:induction false} ReadersAgree(img: bytes)
    requires HasSignature(img) && |img| >= SECTOR + 88 && NumAt(img, SECTOR + 84, 4) == 128 && FindEsp(img).Ok?
    requires NumAt(img, SECTOR + 72, 8) * SECTOR + 128 * NumAt(img, SECTOR + 80, 4) <= |img|
    ensures ParseEsp(img) == Err("truncated") || (ParseEsp(img).Ok? && ParseEsp(img).value.start * SECTOR == FindEsp(img).value)
  {
    SameEntry(img, NumAt(img, SECTOR + 72, 8) * SECTOR, NumAt(img, SECTOR + 80, 4), None);
  }

  lemma {:induction false} NotBlank()
    ensures ESP_TYPE != Zeros(16)
  {
    assert ESP_TYPE[0] == 0x28 && Zeros(16)[0] == 0;
  }

  // ----- what they read from a written image ----------------------------------------------------------------

  /** The numbers of the layout fit their fields. */
  predicate Fits(z: Sizes) {
    z.esp > 0 && z.data > 0 && Total(z) < Limit(8)
  }

  lemma {:induction false} NumHere(img: bytes, o: nat, n: nat, k: nat, rest: bytes)
    requires n < Limit(k) && At(img, o, LE(n, k) + rest)
    ensures o + k <= |img| && NumAt(img, o, k) == n && At(img, o + k, rest)
  {
    AtSplit(img, o, LE(n, k), rest);
    NumBack(img, o, n, k);
  }

  lemma {:induction false} Skip(img: bytes, o: nat, x: bytes, rest: bytes)
    requires At(img, o, x + rest)
    ensures o + |x| <= |img| && img[o..o + |x|] == x && At(img, o + |x|, rest)
  {
    AtSplit(img, o, x, rest);
    AtSlice(img, o, x);
  }

  /** The fields of a header that the readers use. */
  lemma {:induction false} Head92Back(img: bytes, crc: nat, current: nat, alternate: nat, entries: nat, last: nat,
                                      disk: bytes, entriesCrc: nat)
    requires |disk| == 16 && entries < Limit(8)
    requires At(img, SECTOR, Head92(crc, current, alternate, entries, last, disk, entriesCrc))
    ensures HasMagic(img) && |img| >= SECTOR + 88
    ensures NumAt(img, SECTOR + 72, 8) == entries && NumAt(img, SECTOR + 80, 4) == 128 && NumAt(img, SECTOR + 84, 4) == 128
  {
    var tail := LE(entries, 8) + (LE(128, 4) + (LE(128, 4) + LE(entriesCrc, 4)));
    var middle := HeadMiddle(crc, current, alternate, last, disk);
    Skip(img, SECTOR, MAGIC, LE(0x10000, 4) + (LE(92, 4) + (middle + tail)));
    Skip(img, SECTOR + 8, LE(0x10000, 4), LE(92, 4) + (middle + tail));
    Skip(img, SECTOR + 12, LE(92, 4), middle + tail);
    Skip(img, SECTOR + 16, middle, tail);
    NumHere(img, SECTOR + 72, entries, 8, LE(128, 4) + (LE(128, 4) + LE(entriesCrc, 4)));
    NumHere(img, SECTOR + 80, 128, 4, LE(128, 4) + LE(entriesCrc, 4));
    NumHere(img, SECTOR + 84, 128, 4, LE(entriesCrc, 4));
  }

  lemma {:induction false} HeadBack(img: bytes, z: Sizes, ids: Ids)
    requires IdsFit(ids) && Fits(z) && At(img, SECTOR, HeadBytes(z, ids, 1, Total(z) - 1, 2))
    ensures HasMagic(img) && |img| >= SECTOR + 88
    ensures NumAt(img, SECTOR + 72, 8) == 2 && NumAt(img, SECTOR + 80, 4) == 128 && NumAt(img, SECTOR + 84, 4) == 128
  {
    var entriesCrc := ids.crc(EntryTable(z, ids));
    var crc := ids.crc(Head92(0, 1, Total(z) - 1, 2, Total(z) - 34, ids.disk, entriesCrc));
    AtSplit(img, SECTOR, Head92(crc, 1, Total(z) - 1, 2, Total(z) - 34, ids.disk, entriesCrc), Zeros(420));
    Head92Back(img, crc, 1, Total(z) - 1, 2, Total(z) - 34, ids.disk, entriesCrc);
  }

  lemma {:induction false} EntryBack(img: bytes, o: nat, kind: bytes, id: bytes, start: nat, end: nat, name: bytes)
    requires |kind| == 16 && |id| == 16 && |name| == 72 && start < Limit(8) && end < Limit(8)
    requires At(img, o, EntryBytes(kind, id, start, end, name))
    ensures o + 128 <= |img| && IsType(img, o, kind) && BoundsAt(img, o) == (start, end)
  {
    var rest := LE(start, 8) + (LE(end, 8) + (LE(0, 8) + name));
    Skip(img, o, kind, id + rest);
    Skip(img, o + 16, id, rest);
    NumHere(img, o + 32, start, 8, LE(end, 8) + (LE(0, 8) + name));
    NumHere(img, o + 40, end, 8, LE(0, 8) + name);
  }

  /** The system partition is the first entry of the table. */
  lemma {:induction false} FirstEntry(img: bytes, z: Sizes, ids: Ids)
    requires IdsFit(ids) && Fits(z) && At(img, 2 * SECTOR, EntryTable(z, ids))
    ensures 2 * SECTOR + 128 <= |img| && IsType(img, 2 * SECTOR, ESP_TYPE)
    ensures BoundsAt(img, 2 * SECTOR) == (ESP_START, ESP_START + z.esp - 1)
  {
    var first := EntryBytes(ESP_TYPE, ids.esp, ESP_START, ESP_START + z.esp - 1, ids.espName);
    var second := EntryBytes(BASIC_TYPE, ids.data, DataStart(z), DataStart(z) + z.data - 1, ids.dataName);
    AtSplit(img, 2 * SECTOR, first, second + Zeros(126 * 128));
    EntryBack(img, 2 * SECTOR, ESP_TYPE, ids.esp, ESP_START, ESP_START + z.esp - 1, ids.espName);
  }

  lemma {:induction false} FindInTable(img: bytes, z: Sizes, ids: Ids)
    requires IdsFit(ids) && Fits(z)
    requires At(img, SECTOR, HeadBytes(z, ids, 1, Total(z) - 1, 2)) && At(img, 2 * SECTOR, EntryTable(z, ids))
    ensures FindEsp(img) == Ok(ESP_START * SECTOR)
  {
    HeadBack(img, z, ids);
    FirstEntry(img, z, ids);
  }

  lemma {:induction false} ParseInTable(img: bytes, z: Sizes, ids: Ids, esp: bytes)
    requires IdsFit(ids) && Fits(z) && HasSignature(img) && |esp| == z.esp * SECTOR && At(img, ESP_START * SECTOR, esp)
    requires At(img, SECTOR, HeadBytes(z, ids, 1, Total(z) - 1, 2)) && At(img, 2 * SECTOR, EntryTable(z, ids))
    ensures ParseEsp(img) == Ok(Esp(ESP_START, z.esp, esp))
  {
    HeadBack(img, z, ids);
    FirstEntry(img, z, ids);
    NotBlank();
    AtSlice(img, ESP_START * SECTOR, esp);
  }

  lemma {:induction false} SignatureHolds(img: bytes, mbr: bytes)
    requires At(img, 0, mbr) && |mbr| == SECTOR && mbr[510] == 0x55 && mbr[511] == 0xAA
    ensures HasSignature(img)
  {
    AtSlice(img, 0, mbr);
    assert img[0..SECTOR][510] == mbr[510] && img[0..SECTOR][511] == mbr[511];
  }

  /** Of every finished image, whatever was later patched into the data partition, both readers give the start of the
      system partition, and the parser its size and its bytes. */
  lemma {:induction false} ReadersFindEsp(z: Sizes, ids: Ids, c: Content, patches: seq<RegionWrite>)
    requires Fits(z) && IdsFit(ids) && ContentFits(z, c) && InsideData(z, patches)
    ensures FindEsp(Image(z, ids, c, patches)) == Ok(ESP_START * SECTOR)
    ensures ParseEsp(Image(z, ids, c, patches)) == Ok(Esp(ESP_START, z.esp, c.esp))
  {
    var img := Image(z, ids, c, patches);
    RegionsHold(z, ids, c, patches, 0);
    RegionsHold(z, ids, c, patches, 1);
    RegionsHold(z, ids, c, patches, 2);
    RegionsHold(z, ids, c, patches, 5);
    SignatureHolds(img, c.mbr);
    FindInTable(img, z, ids);
    ParseInTable(img, z, ids, c.esp);
  }

  // ----- checksums ------------------------------------------------------------------------------------------

  /** A header with its checksum field zeroed. */
  function Cleared(h: bytes): bytes
    requires |h| == 92
  {
    h[..16] + [0, 0, 0, 0] + h[20..]
  }

  lemma {:induction false} ZeroBytes()
    ensures LE(0, 4) == [0, 0, 0, 0]
  {
    assert Low(0) == 0 && High(0) == 0;
    assert Digit(0, 0) == 0;
    assert Digit(0, 1) == 0;
    assert Digit(0, 2) == 0;
    assert Digit(0, 3) == 0;
  }

  lemma {:induction false} ClearedFront(front: bytes, crc: bytes, rest: bytes)
    requires |front| == 16 && |crc| == 4 && |rest| == 72
    ensures Cleared(front + (crc + rest)) == front + ([0, 0, 0, 0] + rest)
  {
    var h := front + (crc + rest);
    assert h[..16] == front && h[20..] == rest;
  }

  function Front(): (b: bytes)
    ensures |b| == 16
  {
    MAGIC + (LE(0x10000, 4) + LE(92, 4))
  }

  function Rest(current: nat, alternate: nat, entries: nat, last: nat, disk: bytes, entriesCrc: nat): (b: bytes)
    requires |disk| == 16
    ensures |b| == 72
  {
    (LE(0, 4) + (LE(current, 8) + (LE(alternate, 8) + (LE(34, 8) + (LE(last, 8) + disk))))) +
    (LE(entries, 8) + (LE(128, 4) + (LE(128, 4) + LE(entriesCrc, 4))))
  }

  lemma {:induction false} HeadParts(crc: nat, current: nat, alternate: nat, entries: nat, last: nat, disk: bytes, entriesCrc: nat)
    requires |disk| == 16
    ensures Head92(crc, current, alternate, entries, last, disk, entriesCrc) ==
            Front() + (LE(crc, 4) + Rest(current, alternate, entries, last, disk, entriesCrc))
  {
    var numbers := LE(0, 4) + (LE(current, 8) + (LE(alternate, 8) + (LE(34, 8) + (LE(last, 8) + disk))));
    var tail := LE(entries, 8) + (LE(128, 4) + (LE(128, 4) + LE(entriesCrc, 4)));
    Assoc(LE(crc, 4), numbers, tail);
    Assoc(LE(92, 4), LE(crc, 4) + numbers, tail);
    Assoc(LE(0x10000, 4), LE(92, 4), LE(crc, 4) + (numbers + tail));
    Assoc(MAGIC, LE(0x10000, 4) + LE(92, 4), LE(crc, 4) + (numbers + tail));
  }

  /** A written header carries the checksum of its 92 bytes with that field zeroed, and that of the entry table. */
  lemma {:induction false} ChecksumsHold(img: bytes, z: Sizes, ids: Ids, o: nat, current: nat, alternate: nat, entries: nat)
    requires IdsFit(ids) && Fits(z) && (forall b :: ids.crc(b) < Limit(4))
    requires At(img, o, HeadBytes(z, ids, current, alternate, entries))
    ensures o + 92 <= |img| && NumAt(img, o + 16, 4) == ids.crc(Cleared(img[o..o + 92]))
    ensures NumAt(img, o + 88, 4) == ids.crc(EntryTable(z, ids))
  {
    var last, entriesCrc := Total(z) - 34, ids.crc(EntryTable(z, ids));
    var bare := Head92(0, current, alternate, entries, last, ids.disk, entriesCrc);
    var crc := ids.crc(bare);
    var head := Head92(crc, current, alternate, entries, last, ids.disk, entriesCrc);
    var rest := Rest(current, alternate, entries, last, ids.disk, entriesCrc);
    Skip(img, o, head, Zeros(420));
    HeadParts(crc, current, alternate, entries, last, ids.disk, entriesCrc);
    HeadParts(0, current, alternate, entries, last, ids.disk, entriesCrc);
    ZeroBytes();
    ClearedFront(Front(), LE(crc, 4), rest);
    AtSplit(img, o, head, Zeros(420));
    Skip(img, o, Front(), LE(crc, 4) + rest);
    NumHere(img, o + 16, crc, 4, rest);
    TableChecksum(img, o, current, alternate, entries, last, ids.disk, entriesCrc);
  }

  lemma {:induction false} TableChecksum(img: bytes, o: nat, current: nat, alternate: nat, entries: nat, last: nat, disk: bytes, entriesCrc: nat)
    requires |disk| == 16 && entriesCrc < Limit(4)
    requires At(img, o + 20, Rest(current, alternate, entries, last, disk, entriesCrc))
    ensures o + 92 <= |img| && NumAt(img, o + 88, 4) == entriesCrc
  {
    var numbers := LE(0, 4) + (LE(current, 8) + (LE(alternate, 8) + (LE(34, 8) + (LE(last, 8) + disk))));
    AtSplit(img, o + 20, numbers, LE(entries, 8) + (LE(128, 4) + (LE(128, 4) + LE(entriesCrc, 4))));
    AtSplit(img, o + 72, LE(entries, 8), LE(128, 4) + (LE(128, 4) + LE(entriesCrc, 4)));
    AtSplit(img, o + 80, LE(128, 4), LE(128, 4) + LE(entriesCrc, 4));
    AtSplit(img, o + 84, LE(128, 4), LE(entriesCrc, 4));
    NumBack(img, o + 88, entriesCrc, 4);
  }
}
