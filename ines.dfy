/**
 * The iNES cartridge image: a 16-byte header, an optional 512-byte trainer,
 * `prg_rom_size` 16 KiB units of PRG-ROM and `chr_rom_size` 8 KiB units of
 * CHR-ROM, back to back. The parsers work on the file's bytes; reading the
 * file is not part of this model.
 */
module INes {
  import opened Machine

  /** "NES" followed by the MS-DOS end-of-file byte. */
  const MAGIC: seq<u8> := [0x4E, 0x45, 0x53, 0x1A]
  const HEADER_SIZE: nat := 16
  const TRAINER_SIZE: nat := 512
  const PRG_ROM_SIZE_FACTOR: nat := 16384
  const CHR_ROM_SIZE_FACTOR: nat := 8192

  datatype Header = Header(magic: seq<u8>, prgRomSize: u8, chrRomSize: u8,
                           flags6: u8, flags7: u8, flags8: u8, flags9: u8, flags10: u8,
                           unused: seq<u8>)

  datatype HeaderVersion = V1 | V2

  /** `Header::new`: every field zero, so in particular not a valid header. */
  function NewHeader(): (h: Header)
    ensures |h.magic| == 4 && |h.unused| == 5
    ensures forall i :: 0 <= i < 4 ==> h.magic[i] == 0
    ensures forall i :: 0 <= i < 5 ==> h.unused[i] == 0
    ensures h.prgRomSize == 0 && h.chrRomSize == 0
    ensures h.flags6 == 0 && h.flags7 == 0 && h.flags8 == 0 && h.flags9 == 0 && h.flags10 == 0
    ensures h.magic != MAGIC
  {
    Header([0, 0, 0, 0], 0, 0, 0, 0, 0, 0, 0, [0, 0, 0, 0, 0])
  }

  /** The bytes `Header::from` accepts: the magic constant, non-zero ROM sizes, and all eleven bytes it reads. */
  predicate HeaderAccepts(content: seq<u8>) {
    |content| >= 11 && content[..4] == MAGIC && content[4] != 0 && content[5] != 0
  }

  /** The header that accepted bytes describe: bytes 0 to 10 in order, the padding left zero. */
  function HeaderOf(content: seq<u8>): (h: Header)
    requires HeaderAccepts(content)
    ensures h.magic == MAGIC && h.prgRomSize != 0 && h.chrRomSize != 0
    ensures h.unused == NewHeader().unused
  {
    Header(content[..4], content[4], content[5], content[6], content[7], content[8], content[9], content[10],
           [0, 0, 0, 0, 0])
  }

  /**
   * `Header::from`: fills a zero header field by field, checking the magic
   * constant first, then the PRG size, then the CHR size. A sequence too
   * short for the byte being read aborts on the index.
   */
  method HeaderFrom(content: seq<u8>) returns (r: Result<Header>)
    ensures r.Ok? <==> HeaderAccepts(content)
    ensures r.Ok? ==> r.value == HeaderOf(content)
    ensures r.Err? ==>
              r.fault == if |content| < 4 then OutOfBounds
              else if content[..4] != MAGIC then BadMagic
              else if |content| < 5 then OutOfBounds
              else if content[4] == 0 then NoPrgRom
              else if |content| < 6 then OutOfBounds
              else if content[5] == 0 then NoChrRom
              else OutOfBounds
  {
    var ret := NewHeader();
    if |content| < 4 {
      return Err(OutOfBounds);
    }
    var magic := content[..4];
    if magic != MAGIC {
      return Err(BadMagic);
    }
    ret := ret.(magic := magic);
    if |content| < 5 {
      return Err(OutOfBounds);
    }
    if content[4] == 0 {
      return Err(NoPrgRom);
    }
    ret := ret.(prgRomSize := content[4]);
    if |content| < 6 {
      return Err(OutOfBounds);
    }
    if content[5] == 0 {
      return Err(NoChrRom);
    }
    ret := ret.(chrRomSize := content[5]);
    if |content| < 11 {
      return Err(OutOfBounds);
    }
    ret := ret.(flags6 := content[6], flags7 := content[7], flags8 := content[8],
                flags9 := content[9], flags10 := content[10]);
    return Ok(ret);
  }

  /**
   * `format_version`: `flags_7 & 0x0C == 0x08`, bits 2-3 of flags 7 holding
   * the NES 2.0 marker, is refused: exactly the bytes whose low nibble is 8
   * to 11. Every other header is version 1. Bit fields of a byte are
   * written here as divisions and remainders by powers of two.
   */
  function FormatVersion(h: Header): (r: Result<HeaderVersion>)
    ensures r.Err? <==> 8 <= h.flags7 as int % 16 <= 11
    ensures r.Ok? ==> r.value == V1
    ensures r.Err? ==> r.fault == UnsupportedVersion
  {
    if (h.flags7 as int / 4) % 4 == 2 then Err(UnsupportedVersion) else Ok(V1)
  }

  /** `(flags_6 >> 4) | (flags_7 & 0xF0)`: the two nibbles do not overlap, so the OR is a sum. */
  function MergeNibbles(flags6: u8, flags7: u8): u8 {
    (flags6 as int / 16 + (flags7 as int / 16) * 16) as u8
  }

  /**
   * `mapper_id`: the low nibble of the mapper number is the high nibble of
   * flags 6, its high nibble the high nibble of flags 7. A NES 2.0 header
   * is refused.
   */
  function MapperId(h: Header): (r: Result<u8>)
    ensures r.Ok? <==> FormatVersion(h).Ok?
    ensures r.Ok? ==> r.value as int % 16 == h.flags6 as int / 16 && r.value as int / 16 == h.flags7 as int / 16
    ensures r.Err? ==> r.fault == UnsupportedVersion
  {
    match FormatVersion(h)
    case Ok(_) => Ok(MergeNibbles(h.flags6, h.flags7))
    case Err(fault) => Err(fault)
  }

  /** A parsed image: the header and the sections that follow it. */
  datatype Image = Image(header: Header, trainer: seq<u8>, prgRom: seq<u8>, chrRom: seq<u8>,
                         plcInstRom: seq<u8>, plcProm: seq<u8>)

  /** Bit 2 of flags 6: a 512-byte trainer precedes the PRG-ROM. */
  predicate HasTrainer(h: Header) {
    (h.flags6 as int / 4) % 2 == 1
  }

  function TrainerLength(h: Header): nat {
    if HasTrainer(h) then TRAINER_SIZE else 0
  }

  function PrgLength(h: Header): nat {
    h.prgRomSize as nat * PRG_ROM_SIZE_FACTOR
  }

  function ChrLength(h: Header): nat {
    h.chrRomSize as nat * CHR_ROM_SIZE_FACTOR
  }

  /** Where the CHR-ROM ends: the smallest file the header describes. */
  function ImageLength(h: Header): (n: nat)
    ensures n >= HEADER_SIZE + PRG_ROM_SIZE_FACTOR + CHR_ROM_SIZE_FACTOR || h.prgRomSize == 0 || h.chrRomSize == 0
  {
    HEADER_SIZE + TrainerLength(h) + PrgLength(h) + ChrLength(h)
  }

  /**
   * `INESFormat::from` of `inesformat/format.rs`: after the header, a
   * cursor moves over the trainer (if flags 6 announces one), the PRG-ROM
   * and the CHR-ROM, each copied into a buffer sized for it first. The
   * three sections tile the bytes after the header exactly; anything after
   * the CHR-ROM is ignored, and the PlayChoice sections stay empty. An
   * invalid header, or a file too short for a section, aborts.
   */
  method FromBytes(bytes: seq<u8>) returns (r: Result<Image>)
    ensures r.Ok? <==> HeaderAccepts(bytes) && ImageLength(HeaderOf(bytes)) <= |bytes|
    ensures r.Err? && HeaderAccepts(bytes) ==> r.fault == OutOfBounds
    ensures r.Ok? ==>
              var h := HeaderOf(bytes);
              && r.value.header == h
              && |r.value.trainer| == TrainerLength(h)
              && |r.value.prgRom| == PrgLength(h)
              && |r.value.chrRom| == ChrLength(h)
              && r.value.trainer + r.value.prgRom + r.value.chrRom == bytes[HEADER_SIZE..ImageLength(h)]
              && r.value.plcInstRom == [] && r.value.plcProm == []
  {
    var header :- HeaderFrom(bytes);
    var pos: nat := HEADER_SIZE;
    var trainer: seq<u8> := [];
    if HasTrainer(header) {
      if pos + TRAINER_SIZE > |bytes| {
        return Err(OutOfBounds);
      }
      trainer := bytes[pos..pos + TRAINER_SIZE];
      pos := pos + TRAINER_SIZE;
    }
    var prgLen := header.prgRomSize as nat * PRG_ROM_SIZE_FACTOR;
    if pos + prgLen > |bytes| {
      return Err(OutOfBounds);
    }
    assert trainer == bytes[HEADER_SIZE..pos];
    var prgRom := bytes[pos..pos + prgLen];
    SlicesJoin(bytes, HEADER_SIZE, pos, pos + prgLen);
    pos := pos + |prgRom|;
    var chrLen := header.chrRomSize as nat * CHR_ROM_SIZE_FACTOR;
    if pos + chrLen > |bytes| {
      return Err(OutOfBounds);
    }
    var chrRom := bytes[pos..pos + chrLen];
    SlicesJoin(bytes, HEADER_SIZE, pos, pos + chrLen);
    return Ok(Image(header, trainer, prgRom, chrRom, [], []));
  }

  /**
   * `INESFormat::from` of the older `cartridge/mod.rs`, as written: without
   * a trainer it slices PRG-ROM and CHR-ROM as `FromBytes` does, but with
   * the trainer bit set it copies 512 bytes into a buffer that was never
   * sized, and that copy aborts, whatever the file holds.
   */
  method LegacyFromBytes(bytes: seq<u8>) returns (r: Result<Image>)
    ensures r.Ok? <==> HeaderAccepts(bytes) && !HasTrainer(HeaderOf(bytes)) && ImageLength(HeaderOf(bytes)) <= |bytes|
    ensures HeaderAccepts(bytes) && HasTrainer(HeaderOf(bytes)) ==>
              r.Err? && r.fault == if HEADER_SIZE + TRAINER_SIZE > |bytes| then OutOfBounds else LengthMismatch
    ensures r.Ok? ==>
              var h := HeaderOf(bytes);
              && r.value.header == h
              && r.value.trainer == []
              && r.value.prgRom == bytes[HEADER_SIZE..HEADER_SIZE + PrgLength(h)]
              && r.value.chrRom == bytes[HEADER_SIZE + PrgLength(h)..ImageLength(h)]
              && r.value.plcInstRom == [] && r.value.plcProm == []
  {
    var header :- HeaderFrom(bytes);
    var pos: nat := HEADER_SIZE;
    var trainer: seq<u8> := [];
    if HasTrainer(header) {
      if pos + TRAINER_SIZE > |bytes| {
        return Err(OutOfBounds);
      }
      var source := bytes[pos..pos + TRAINER_SIZE];
      if |trainer| != |source| {
        return Err(LengthMismatch);
      }
      trainer := source;
      pos := pos + TRAINER_SIZE;
    }
    var prgLen := header.prgRomSize as nat * PRG_ROM_SIZE_FACTOR;
    if pos + prgLen > |bytes| {
      return Err(OutOfBounds);
    }
    var prgRom := bytes[pos..pos + prgLen];
    pos := pos + |prgRom|;
    var chrLen := header.chrRomSize as nat * CHR_ROM_SIZE_FACTOR;
    if pos + chrLen > |bytes| {
      return Err(OutOfBounds);
    }
    var chrRom := bytes[pos..pos + chrLen];
    return Ok(Image(header, trainer, prgRom, chrRom, [], []));
  }

  /** Two adjacent slices of a file joined are the slice that spans both. */
  lemma SlicesJoin(bytes: seq<u8>, i: nat, j: nat, k: nat)
    requires i <= j <= k <= |bytes|
    ensures bytes[i..j] + bytes[j..k] == bytes[i..k]
  {
    assert forall n :: 0 <= n < k - i ==> (bytes[i..j] + bytes[j..k])[n] == bytes[i..k][n];
  }

  /** Where the two loaders both succeed they agree. */
  lemma LoadersAgree(bytes: seq<u8>, newer: Image, legacy: Image)
    requires HeaderAccepts(bytes) && !HasTrainer(HeaderOf(bytes)) && ImageLength(HeaderOf(bytes)) <= |bytes|
    requires var h := HeaderOf(bytes);
             && newer.header == h && |newer.trainer| == TrainerLength(h)
             && |newer.prgRom| == PrgLength(h) && |newer.chrRom| == ChrLength(h)
             && newer.trainer + newer.prgRom + newer.chrRom == bytes[HEADER_SIZE..ImageLength(h)]
             && newer.plcInstRom == [] && newer.plcProm == []
    requires var h := HeaderOf(bytes);
             && legacy.header == h && legacy.trainer == []
             && legacy.prgRom == bytes[HEADER_SIZE..HEADER_SIZE + PrgLength(h)]
             && legacy.chrRom == bytes[HEADER_SIZE + PrgLength(h)..ImageLength(h)]
             && legacy.plcInstRom == [] && legacy.plcProm == []
    ensures newer == legacy
  {
    var h := HeaderOf(bytes);
    var body := bytes[HEADER_SIZE..ImageLength(h)];
    assert newer.trainer == [];
    assert newer.prgRom + newer.chrRom == body;
    assert newer.prgRom == body[..PrgLength(h)];
    assert newer.chrRom == body[PrgLength(h)..];
  }

  /**
   * The smallest image the loaders' tests build: one PRG unit of 0xEE and
   * one CHR unit of 0xDD after a header with no trainer, 24592 bytes.
   */
  function SampleImage(): (b: seq<u8>)
    ensures |b| == HEADER_SIZE + PRG_ROM_SIZE_FACTOR + CHR_ROM_SIZE_FACTOR
  {
    [0x4E, 0x45, 0x53, 0x1A, 1, 1, 0, 0, 0, 0, 0, 0, 0, 0, 0, 0]
    + seq(PRG_ROM_SIZE_FACTOR, _ => 0xEE) + seq(CHR_ROM_SIZE_FACTOR, _ => 0xDD)
  }

  /**
   * The sample is accepted, has no trainer, and its 24592 bytes are exactly
   * the header, 16384 PRG bytes of 0xEE and 8192 CHR bytes of 0xDD.
   */
  lemma SampleImageLayout()
    ensures var b := SampleImage();
            && HeaderAccepts(b)
            && var h := HeaderOf(b);
            && !HasTrainer(h)
            && PrgLength(h) == 16384 && ChrLength(h) == 8192
            && ImageLength(h) == |b| == 24592
            && b[HEADER_SIZE..HEADER_SIZE + PrgLength(h)] == seq(16384, _ => 0xEE)
            && b[HEADER_SIZE + PrgLength(h)..ImageLength(h)] == seq(8192, _ => 0xDD)
  {
    var b := SampleImage();
    var head: seq<u8> := [0x4E, 0x45, 0x53, 0x1A, 1, 1, 0, 0, 0, 0, 0, 0, 0, 0, 0, 0];
    var prg: seq<u8> := seq(PRG_ROM_SIZE_FACTOR, _ => 0xEE);
    var chr: seq<u8> := seq(CHR_ROM_SIZE_FACTOR, _ => 0xDD);
    assert b == head + prg + chr;
    assert b[..4] == MAGIC;
    assert b[HEADER_SIZE..HEADER_SIZE + 16384] == prg;
    assert b[HEADER_SIZE + 16384..24592] == chr;
  }
}
