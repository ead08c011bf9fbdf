/** The register-access contract the drivers are built on. The transport
    itself is not part of this model: its four operations are stated here
    over an abstract 256-byte register file, with the semantics the drivers
    rely on (a single read or write, a block read of consecutive addresses,
    and a read-modify-write of the bits under a mask). */
module WiredDevice {

  /** An 8-bit register address. */
  type Address = a: int | 0 <= a < 0x100

  /** The register value left by configureRegisterBits: the bits under
      `mask` are cleared and `bits` is OR-ed in. `bits` is not masked, so a
      value that strays outside `mask` lands in the neighbouring bits. */
  function Configure(current: bv8, mask: bv8, bits: bv8): (r: bv8)
    ensures r & mask == bits & mask
    ensures r & !mask == (current & !mask) | (bits & !mask)
  {
    (current & !mask) | bits
  }

  /** One device on the bus, seen as its register file. */
  class RegisterDevice {
    const regs: array<bv8>

    ghost predicate Valid()
      reads this
    {
      regs.Length == 0x100
    }

    constructor (initial: seq<bv8>)
      requires |initial| == 0x100
      ensures Valid() && fresh(regs) && regs[..] == initial
    {
      regs := new bv8[0x100](i requires 0 <= i < 0x100 => initial[i]);
    }

    method ReadRegister(r: Address) returns (v: bv8)
      requires Valid()
      ensures v == regs[r]
    {
      v := regs[r];
    }

    method WriteRegister(r: Address, v: bv8)
      requires Valid()
      modifies regs
      ensures regs[..] == old(regs[..])[r := v]
    {
      regs[r] := v;
    }

    /** Copies registers start .. start+n-1 into buf[0 .. n-1] and returns
        the number of bytes read. */
    method ReadRegisterBlock(start: Address, buf: array<bv8>, n: nat) returns (count: nat)
      requires Valid()
      requires start + n <= regs.Length && n <= buf.Length && buf != regs
      modifies buf
      ensures buf[..n] == regs[start .. start + n]
      ensures buf[n..] == old(buf[n..])
      ensures count == n
    {
      forall i | 0 <= i < n {
        buf[i] := regs[start + i];
      }
      count := n;
    }

    method ConfigureRegisterBits(r: Address, mask: bv8, bits: bv8)
      requires Valid()
      modifies regs
      ensures regs[..] == old(regs[..])[r := Configure(old(regs[r]), mask, bits)]
    {
      regs[r] := Configure(regs[r], mask, bits);
    }
  }
}
