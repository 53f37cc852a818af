/**
 * The main bus: a flat 64 KiB RAM with byte and little-endian word access,
 * plus the CPU-facing word accessors that the `MainBusConnection` trait
 * composes from byte accessors.
 *
 * The CPU-facing byte accessors `cpu_read_u8`/`cpu_write_u8` are implemented
 * outside this model; here they have the flat semantics of `read_u8`/`write_u8`.
 */
module MainBus {
  import opened Machine

  /** The highest address; the RAM holds `RAM_SIZE + 1` bytes. */
  const RAM_SIZE: nat := 0xFFFF
  /** The largest image `load_to_ram` copies: `0xFFFF - 0x8000` bytes. */
  const MAX_ROM_SIZE: nat := 0xFFFF - 0x8000

  class Bus {
    var ram: array<u8>

    predicate Valid()
      reads this
    {
      ram.Length == RAM_SIZE + 1
    }

    /** `Bus::new`: 65536 zero bytes. */
    constructor ()
      ensures Valid() && fresh(ram)
      ensures forall i :: 0 <= i < ram.Length ==> ram[i] == 0
    {
      ram := new u8[RAM_SIZE + 1](_ => 0);
    }

    /** `read_u8` */
    function Read8(addr: u16): u8
      requires Valid()
      reads this, ram
    {
      ram[addr]
    }

    /** `read_u8_slice`: the bytes at `from` up to, not including, `to`; aborts when `from > to`. */
    function ReadSlice(from: u16, to: u16): (r: Result<seq<u8>>)
      requires Valid()
      reads this, ram
      ensures r.Ok? <==> from <= to
      ensures r.Ok? ==> |r.value| == (to - from) as int
      ensures r.Ok? ==> forall k :: 0 <= k < |r.value| ==> r.value[k] == ram[from as int + k]
      ensures r.Err? ==> r.fault == OutOfBounds
    {
      if from > to then Err(OutOfBounds) else Ok(ram[from..to])
    }

    /** `read_u16`: low byte at `addr`, high byte at `addr + 1`; `addr + 1` overflows at 0xFFFF. */
    function Read16(addr: u16): (r: Result<u16>)
      requires Valid()
      reads this, ram
      ensures r.Ok? <==> addr != 0xFFFF
      ensures r.Ok? ==> Lo(r.value) == Read8(addr) && Hi(r.value) == Read8(addr + 1)
      ensures r.Err? ==> r.fault == ArithmeticOverflow
    {
      var next :- AddU16(addr, 1);
      Ok(Word(Read8(addr), Read8(next)))
    }

    /** `write_u8`: the byte at `addr` becomes `value`, every other byte stays. */
    method Write8(addr: u16, value: u8)
      requires Valid()
      modifies ram
      ensures ram[..] == old(ram[..])[addr := value]
    {
      ram[addr] := value;
    }

    /**
     * `write_u16`: the low byte goes to `addr`, then the high byte to `addr + 1`.
     * At 0xFFFF the low byte is written before `addr + 1` overflows.
     */
    method Write16(addr: u16, value: u16) returns (r: Result<()>)
      requires Valid()
      modifies ram
      ensures r.Ok? <==> addr != 0xFFFF
      ensures r.Err? ==> r.fault == ArithmeticOverflow && ram[..] == old(ram[..])[addr := Lo(value)]
      ensures r.Ok? ==> ram[..] == old(ram[..])[addr := Lo(value)][addr + 1 := Hi(value)]
      ensures r.Ok? ==> Read16(addr) == Ok(value)
    {
      // Each store is the single-byte store of `write_u8`.
      Write8(addr, Lo(value));
      if addr == 0xFFFF {
        return Err(ArithmeticOverflow);
      }
      Write8(addr + 1, Hi(value));
      WordOfParts(value);
      return Ok(());
    }

    /**
     * `load_to_ram`: copies the first min(|content|, MAX_ROM_SIZE) bytes of
     * `content` to consecutive indices from `start`. An index past the end of
     * RAM aborts; the bytes before it have already been copied.
     */
    method LoadToRam(start: u16, content: seq<u8>) returns (r: Result<()>)
      requires Valid()
      modifies ram
      ensures var count := RomSize(|content|);
              && (r.Ok? <==> start as int + count <= ram.Length)
              && (r.Err? ==> r.fault == OutOfBounds)
              && forall k :: 0 <= k < ram.Length ==>
                   ram[k] == if start as int <= k < start as int + count then content[k - start as int] else old(ram[k])
    {
      var romSize := RomSize(|content|);
      var j := start as int;
      var i := 0;
      while i < romSize
        invariant 0 <= i <= romSize && j == start as int + i && j <= ram.Length
        invariant forall k :: 0 <= k < ram.Length ==>
                    ram[k] == if start as int <= k < j then content[k - start as int] else old(ram[k])
      {
        if j >= ram.Length {
          return Err(OutOfBounds);
        }
        ram[j] := content[i];
        i := i + 1;
        j := j + 1;
      }
      return Ok(());
    }

    /** `cpu_read_u16`: `cpu_read_u8(addr)` is the low byte and `cpu_read_u8(addr + 1)` the high byte. */
    function CpuRead16(addr: u16): (r: Result<u16>)
      requires Valid()
      reads this, ram
      ensures r.Ok? <==> addr != 0xFFFF
      ensures r.Ok? ==> Lo(r.value) == Read8(addr) && Hi(r.value) == Read8(addr + 1)
      ensures r.Err? ==> r.fault == ArithmeticOverflow
    {
      var low := Read8(addr);
      var next :- AddU16(addr, 1);
      var high := Read8(next);
      Ok(Word(low, high))
    }

    /** `cpu_write_u16`: `cpu_write_u8(addr, value & 0xFF)` and then `cpu_write_u8(addr + 1, value >> 8)`. */
    method CpuWrite16(addr: u16, value: u16) returns (r: Result<()>)
      requires Valid()
      modifies ram
      ensures r.Ok? <==> addr != 0xFFFF
      ensures r.Err? ==> r.fault == ArithmeticOverflow && ram[..] == old(ram[..])[addr := Lo(value)]
      ensures r.Ok? ==> ram[..] == old(ram[..])[addr := Lo(value)][addr + 1 := Hi(value)]
      ensures r.Ok? ==> CpuRead16(addr) == Ok(value)
    {
      Write8(addr, Lo(value));
      if addr == 0xFFFF {
        return Err(ArithmeticOverflow);
      }
      Write8(addr + 1, Hi(value));
      WordOfParts(value);
      return Ok(());
    }
  }

  /** `min(len, MAX_ROM_SIZE)`: how many bytes `load_to_ram` copies. */
  function RomSize(len: nat): (n: nat)
    ensures n <= MAX_ROM_SIZE && n <= len
    ensures n == len || n == MAX_ROM_SIZE
  {
    if len > MAX_ROM_SIZE then MAX_ROM_SIZE else len
  }
}
