/** power-clkpr-6.h: the XTAL Divide Control Register of the ATmega103,
    ATmega64 and ATmega128. XDIVEN (bit 7) enables division and XDIV6..0
    hold `129 - x` for a division factor `x` in 2 .. 129. */
module ClockPrescale6 {
  import opened Avr
  import opened Bits

  /** The division factors `clock_prescale_set` accepts; any other argument
      is ignored. */
  predicate InRange(x: int) { 1 <= x <= 129 }

  /** The byte the setter finally leaves in XDIV for an accepted `x`: 0
      for a factor of 1, otherwise `(0x81 - x) | 0x80` computed in an 8-bit
      register. */
  function XdivValue(x: int): bv8
    requires InRange(x)
  {
    if x == 1 then 0 else (0x81 - x as bv8) | 0x80
  }

  /** The encoding: a factor of 1 leaves division off, and any other
      accepted factor sets XDIVEN with `129 - x` in XDIV6..0. */
  lemma XdivEncoding(x: int)
    requires InRange(x)
    ensures x == 1 ==> XdivValue(x) == 0
    ensures x != 1 ==> XdivValue(x) & 0x80 != 0 && (XdivValue(x) & 0x7F) as int == 129 - x
  {
    if x != 1 {
      var b := x as bv8;
      assert b as int == x;
      assert (0x81 - b) as int == 129 - b as int;
      assert ((0x81 - b) | 0x80) & 0x7F == 0x81 - b;
    }
  }

  /** The stores an accepted `x` performs, all with interrupts disabled:
      XDIV cleared, then, unless `x == 1`, the encoded value. */
  function XdivWrites(x: int): (w: seq<Event>)
    requires InRange(x)
    ensures |w| >= 1 && w[0] == Write(XDIV, 0, false)
    ensures w[|w| - 1] == Write(XDIV, XdivValue(x), false)
    ensures |w| == 1 <==> x == 1
  {
    [Write(XDIV, 0, false)] + if x == 1 then [] else [Write(XDIV, XdivValue(x), false)]
  }

  /** `clock_prescale_set(x)`. Out of range it returns at once, touching
      neither XDIV nor the I flag. Otherwise it saves SREG, disables
      interrupts, clears XDIV, returns straight to the SREG restore when
      `x == 1`, and else stores `(0x81 - x) | 0x80`. */
  method PrescaleSet(m: Mcu, x: int)
    requires XDIV in m.io
    modifies m
    ensures !InRange(x) ==> m.io == old(m.io) && m.trace == old(m.trace)
    ensures InRange(x) ==> m.io == old(m.io)[XDIV := XdivValue(x)]
    ensures InRange(x) ==> m.trace == old(m.trace) + XdivWrites(x)
    ensures m.ie == old(m.ie)
  {
    if x <= 0 || x > 129 {
      return;
    }
    var saved := m.ie;
    m.Cli();
    m.Out(XDIV, 0);
    if x != 1 {
      var t: bv8 := 0x81;
      t := t - x as bv8;
      t := t | 0x80;
      assert t == XdivValue(x);
      m.Out(XDIV, t);
    }
    m.RestoreSreg(saved);
  }

  /** `clock_prescale_get()`: 1 when XDIVEN is clear, else
      `129 - (XDIV & 0x7F)`. The result is always a factor the setter
      accepts. */
  function PrescaleGet(xdiv: bv8, xdiven: BitPos): (r: int)
    ensures InRange(r)
    ensures xdiv & Bit(xdiven) == 0 ==> r == 1
  {
    if xdiv & Bit(xdiven) == 0 then 1 else 129 - (xdiv & 0x7F) as int
  }

  /** With XDIVEN at bit 7, every accepted factor reads back as itself. */
  lemma SetGetRoundTrip(x: int)
    requires InRange(x)
    ensures PrescaleGet(XdivValue(x), 7) == x
  {
    XdivEncoding(x);
  }

  /** With XDIVEN at bit 7, setting the factor that was read back restores
      the register exactly when division was enabled or the register was
      0: a value with XDIVEN clear but stray low bits reads as 1 and is
      then cleared. */
  lemma GetSetRoundTrip(xdiv: bv8)
    ensures XdivValue(PrescaleGet(xdiv, 7)) == xdiv <==> xdiv == 0 || xdiv & 0x80 != 0
  {
    var x := PrescaleGet(xdiv, 7);
    XdivEncoding(x);
    if xdiv & 0x80 != 0 {
      assert x == 129 - (xdiv & 0x7F) as int;
      assert XdivValue(x) & 0x7F == xdiv & 0x7F;
    }
  }
}
