/** The Blynk_led program: it enables the GPIOC clock, makes PC13 a 50 MHz
    push-pull output, and then toggles PC13 for ever with a counting delay
    between the two writes.

    The three registers become `bv32` fields of a class, and every
    read-modify-write of the source is one assignment through SetBits or
    ClearBits.  The mask constants are the ones of the STM32F10x device
    header: IOPCEN is bit 4 of RCC_APB2ENR, MODE13 bits 21:20 and CNF13 bits
    23:22 of GPIOx_CRH. */
module BlynkLed {
  /** RCC_APB2ENR_IOPCEN. */
  const IopcEn: bv32 := 0x0000_0010
  /** GPIO_CRH_MODE13_0 and GPIO_CRH_MODE13_1. */
  const Mode13Bit0: bv32 := 0x0010_0000
  const Mode13Bit1: bv32 := 0x0020_0000
  /** GPIO_CRH_CNF13_0 and GPIO_CRH_CNF13_1. */
  const Cnf13Bit0: bv32 := 0x0040_0000
  const Cnf13Bit1: bv32 := 0x0080_0000
  /** Every CRH bit that belongs to pin 13's configuration, bits 23:20. */
  const Pin13Config: bv32 := 0x00F0_0000
  /** `1 << 13`, pin 13 of the output data register. */
  const Pin13: bv32 := 0x0000_2000

  /** `r |= mask`: every bit of the mask is set, every other bit keeps its
      value. */
  function SetBits(r: bv32, mask: bv32): (s: bv32)
    ensures s & mask == mask
    ensures s & !mask == r & !mask
  {
    r | mask
  }

  /** `r &= ~mask`: every bit of the mask is cleared, every other bit keeps
      its value. */
  function ClearBits(r: bv32, mask: bv32): (s: bv32)
    ensures s & mask == 0
    ensures s & !mask == r & !mask
  {
    r & !mask
  }

  /** Setting bits that are already set changes nothing. */
  lemma SetIdempotent(r: bv32, mask: bv32)
    ensures SetBits(SetBits(r, mask), mask) == SetBits(r, mask)
  {
  }

  /** Clearing what was just set leaves the register as if it had only been
      cleared: the bits outside the mask come through the toggle intact. */
  lemma ClearUndoesSet(r: bv32, mask: bv32)
    ensures ClearBits(SetBits(r, mask), mask) == ClearBits(r, mask)
  {
  }

  /** The two-bit MODE13 field of a CRH value. */
  function Mode13(crh: bv32): (m: bv32)
    ensures m <= 3
  {
    (crh >> 20) & 3
  }

  /** The two-bit CNF13 field of a CRH value. */
  function Cnf13(crh: bv32): (c: bv32)
    ensures c <= 3
  {
    (crh >> 22) & 3
  }

  /** The four read-modify-writes of GPIO_Config on CRH, in order. */
  function ConfigureCrh(crh: bv32): (c: bv32)
  {
    ClearBits(ClearBits(SetBits(SetBits(crh, Mode13Bit0), Mode13Bit1), Cnf13Bit0), Cnf13Bit1)
  }

  /** Whatever CRH held before, GPIO_Config leaves MODE13 = 0b11 (output,
      50 MHz), CNF13 = 0b00 (general purpose push-pull) and every bit outside
      bits 23:20 as it was. */
  lemma ConfigureCrhFields(crh: bv32)
    ensures Mode13(ConfigureCrh(crh)) == 3
    ensures Cnf13(ConfigureCrh(crh)) == 0
    ensures ConfigureCrh(crh) & !Pin13Config == crh & !Pin13Config
  {
  }

  class Board {
    /** RCC->APB2ENR. */
    var apb2enr: bv32
    /** GPIOC->CRH. */
    var crh: bv32
    /** GPIOC->ODR. */
    var odr: bv32

    /** GPIO_Config: the GPIOC clock is switched on without touching any
        other peripheral's clock, and pin 13 becomes a 50 MHz push-pull
        output without touching the other pins of the high half. */
    method GpioConfig()
      modifies this
      ensures apb2enr == SetBits(old(apb2enr), IopcEn)
      ensures crh == ConfigureCrh(old(crh)) && odr == old(odr)
    {
      apb2enr := SetBits(apb2enr, IopcEn);
      crh := SetBits(crh, Mode13Bit0);
      crh := SetBits(crh, Mode13Bit1);
      crh := ClearBits(crh, Cnf13Bit0);
      crh := ClearBits(crh, Cnf13Bit1);
    }

    /** One iteration of main's loop: PC13 is driven high, then low, every
        other ODR bit staying as it was; `lit` is ODR while PC13 is high. */
    method Blink() returns (lit: bv32)
      modifies this
      ensures lit == SetBits(old(odr), Pin13)
      ensures odr == ClearBits(old(odr), Pin13)
      ensures apb2enr == old(apb2enr) && crh == old(crh)
    {
      odr := SetBits(odr, Pin13);
      lit := odr;
      var _ := Delay(10000000);
      odr := ClearBits(odr, Pin13);
      var _ := Delay(10000000);
      ClearUndoesSet(old(odr), Pin13);
    }
  }

  /** delay: `timedelay` empty iterations and nothing else; the result is
      the number of iterations made.  The counter is a signed int compared
      against the unsigned bound, so the bound must stay within int's range
      for the count to reach it. */
  method Delay(timedelay: bv32) returns (iterations: nat)
    requires timedelay <= 0x7FFF_FFFF
    ensures iterations == timedelay as int
  {
    var i: int := 0;
    while i < timedelay as int
      invariant 0 <= i <= timedelay as int
    {
      i := i + 1;
    }
    iterations := i;
  }
}
