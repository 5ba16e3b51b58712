/**
 * The MCP23017 register map as the driver header defines it: ports, pin
 * names, the interrupt-mirroring mode, the 21 register addresses for
 * IOCON.BANK = 0 (section 3.2.1 of the MCP23017 data sheet) and the
 * `register + port` rule that turns a port-A register into its port-B twin.
 */
module Registers {
  import opened Bits

  datatype Option<T> = None | Some(value: T)

  /** The default bus address of the chip (MCP23017_I2C_ADDRESS). */
  const DefaultAddress: bv8 := 0x20

  /** The two 8-bit ports; a port's value is the offset it adds to a
      port-A register address. */
  datatype Port = A | B

  function PortValue(p: Port): (v: nat)
    ensures v <= 1
    ensures v == 0 <==> p == A
  {
    match p
    case A => 0
    case B => 1
  }

  /** MCP23017Pin::Names: GPA0..GPA7 then GPB0..GPB7. */
  datatype PinName =
    | GPA0 | GPA1 | GPA2 | GPA3 | GPA4 | GPA5 | GPA6 | GPA7
    | GPB0 | GPB1 | GPB2 | GPB3 | GPB4 | GPB5 | GPB6 | GPB7

  /** The pin names in declaration order. */
  const PinNames: seq<PinName> :=
    [GPA0, GPA1, GPA2, GPA3, GPA4, GPA5, GPA6, GPA7,
     GPB0, GPB1, GPB2, GPB3, GPB4, GPB5, GPB6, GPB7]

  /** The pin number a name stands for: its position among the names. */
  function PinOf(n: PinName): (pin: nat)
    ensures pin < 16 && PinNames[pin] == n
  {
    match n
    case GPA0 => 0  case GPA1 => 1  case GPA2 => 2  case GPA3 => 3
    case GPA4 => 4  case GPA5 => 5  case GPA6 => 6  case GPA7 => 7
    case GPB0 => 8  case GPB1 => 9  case GPB2 => 10 case GPB3 => 11
    case GPB4 => 12 case GPB5 => 13 case GPB6 => 14 case GPB7 => 15
  }

  /** The port a pin belongs to: pins above 7 are on port B. */
  function PinPort(pin: nat): Port
    requires pin < 16
  {
    if pin > 7 then B else A
  }

  /** The bit of its port that a pin occupies (`pin -= 8` for port B). */
  function PinBit(pin: nat): (b: nat)
    requires pin < 16
    ensures b < 8 && b == pin % 8
    ensures pin == 8 * PortValue(PinPort(pin)) + b
  {
    if pin > 7 then pin - 8 else pin
  }

  /** GPAk is bit k of port A and GPBk is bit k of port B. */
  lemma PinNameLocation(k: nat)
    requires k < 8
    ensures PinPort(PinOf(PinNames[k])) == A && PinBit(PinOf(PinNames[k])) == k
    ensures PinPort(PinOf(PinNames[k + 8])) == B && PinBit(PinOf(PinNames[k + 8])) == k
  {
  }

  /** MCP23017InterruptMode: whether the two interrupt pins mirror each other. */
  datatype MirrorMode = Separated | Or

  /** The IOCON bits an interrupt mode stands for: Or is exactly the
      MIRROR bit (bit 6), Separated is no bit at all. */
  function ModeBits(m: MirrorMode): (v: bv8)
    ensures m == Separated ==> v == 0
    ensures m == Or ==> forall i :: 0 <= i < 8 ==> (BitRead(v, i) <==> i == 6)
  {
    match m
    case Separated => 0
    case Or => 0x40
  }

  /** MCP23017Register, the registers for IOCON.BANK = 0. */
  datatype Register =
    | IODIR_A | IODIR_B | IPOL_A | IPOL_B | GPINTEN_A | GPINTEN_B
    | DEFVAL_A | DEFVAL_B | INTCON_A | INTCON_B | IOCON
    | GPPU_A | GPPU_B | INTF_A | INTF_B | INTCAP_A | INTCAP_B
    | GPIO_A | GPIO_B | OLAT_A | OLAT_B

  /** Number of register cells, addresses 0x00 to 0x15. */
  const RegisterCount: nat := 0x16

  /** The register enumerator named at each address 0x00..0x15; none names 0x0B. */
  const RegisterTable: seq<Option<Register>> :=
    [Some(IODIR_A), Some(IODIR_B), Some(IPOL_A), Some(IPOL_B),
     Some(GPINTEN_A), Some(GPINTEN_B), Some(DEFVAL_A), Some(DEFVAL_B),
     Some(INTCON_A), Some(INTCON_B), Some(IOCON), None,
     Some(GPPU_A), Some(GPPU_B), Some(INTF_A), Some(INTF_B),
     Some(INTCAP_A), Some(INTCAP_B), Some(GPIO_A), Some(GPIO_B),
     Some(OLAT_A), Some(OLAT_B)]

  /** The register named at an address, if any. */
  function RegisterAt(a: nat): Option<Register>
  {
    if a < |RegisterTable| then RegisterTable[a] else None
  }

  /** The address of a register. Every address lies in 0x00..0x15, none is
      0x0B, and every address names back its register, so no two registers
      share an address. */
  function Address(r: Register): (a: nat)
    ensures a < RegisterCount && a != 0x0B
    ensures RegisterAt(a) == Some(r)
  {
    match r
    case IODIR_A => 0x00   case IODIR_B => 0x01
    case IPOL_A => 0x02    case IPOL_B => 0x03
    case GPINTEN_A => 0x04 case GPINTEN_B => 0x05
    case DEFVAL_A => 0x06  case DEFVAL_B => 0x07
    case INTCON_A => 0x08  case INTCON_B => 0x09
    case IOCON => 0x0A
    case GPPU_A => 0x0C    case GPPU_B => 0x0D
    case INTF_A => 0x0E    case INTF_B => 0x0F
    case INTCAP_A => 0x10  case INTCAP_B => 0x11
    case GPIO_A => 0x12    case GPIO_B => 0x13
    case OLAT_A => 0x14    case OLAT_B => 0x15
  }

  /** Every named address belongs to exactly the register it names. */
  lemma RegisterAtAddress(a: nat)
    requires RegisterAt(a).Some?
    ensures Address(RegisterAt(a).value) == a
  {
  }

  predicate IsPortA(r: Register)
  {
    match r
    case IODIR_A | IPOL_A | GPINTEN_A | DEFVAL_A | INTCON_A
      | GPPU_A | INTF_A | INTCAP_A | GPIO_A | OLAT_A => true
    case _ => false
  }

  predicate IsPortB(r: Register)
  {
    match r
    case IODIR_B | IPOL_B | GPINTEN_B | DEFVAL_B | INTCON_B
      | GPPU_B | INTF_B | INTCAP_B | GPIO_B | OLAT_B => true
    case _ => false
  }

  /** IOCON is the only register that belongs to no A/B pair. */
  lemma Unpaired(r: Register)
    ensures !(IsPortA(r) && IsPortB(r))
    ensures !IsPortA(r) && !IsPortB(r) <==> r == IOCON
  {
  }

  /** `operator+(Register, Port)`: the address arithmetic `r + p`. The
      result is the register at address `r + p`, and `None` exactly when no
      register has that address (IOCON + B is 0x0B, OLAT_B + B is 0x16). */
  function Plus(r: Register, p: Port): (s: Option<Register>)
    ensures s.Some? ==> Address(s.value) == Address(r) + PortValue(p)
    ensures s.None? <==> forall q :: Address(q) != Address(r) + PortValue(p)
  {
    RegisterAt(Address(r) + PortValue(p))
  }

  /** Adding port A to any register gives it back. */
  lemma PlusPortA(r: Register)
    ensures Plus(r, A) == Some(r)
  {
  }

  /** Every port-A register sits at an even address, and adding port B to it
      gives its port-B twin, one address up. */
  lemma PlusPortB(r: Register)
    requires IsPortA(r)
    ensures Address(r) % 2 == 0
    ensures Plus(r, B).Some? && IsPortB(Plus(r, B).value)
    ensures Address(Plus(r, B).value) == Address(r) + 1
  {
  }

  /** Adding port B to IOCON gives 0x0B, which no enumerator names, and adding it to
      OLAT_B runs past the last register. */
  lemma PlusOutsideMap()
    ensures Plus(IOCON, B) == None && Plus(OLAT_B, B) == None
  {
  }

  /** The register of port `p` in the family whose port-A member is `base`. */
  function OnPort(base: Register, p: Port): (r: Register)
    requires IsPortA(base)
    ensures Plus(base, p) == Some(r)
    ensures Address(r) == Address(base) + PortValue(p)
    ensures p == A ==> r == base
    ensures p == B ==> IsPortB(r)
  {
    PlusPortB(base);
    Plus(base, p).value
  }

  /** The second address touched by a two-byte access that starts at `r`.
      In byte mode with IOCON.BANK = 0 the address pointer toggles within
      an A/B pair, so it is the other member of the pair. */
  function PairAddress(r: Register): (a: nat)
    ensures a / 2 == Address(r) / 2 && a != Address(r)
  {
    if Address(r) % 2 == 0 then Address(r) + 1 else Address(r) - 1
  }

  /** The second address of a two-byte access is a register cell other
      than the first; after IOCON it is 0x0B, which no enumerator names. */
  lemma PairAddressInMap(r: Register)
    ensures PairAddress(r) < RegisterCount && PairAddress(r) != Address(r)
    ensures r == IOCON ==> RegisterAt(PairAddress(r)) == None
  {
  }

  /** The other member of an A/B pair. A two-byte access starting at a
      paired register reaches its twin next: a port-A register's port-B
      twin, or a port-B register's port-A twin (so the bytes arrive
      reversed). */
  function Twin(r: Register): (t: Register)
    requires r != IOCON
    ensures Address(t) == PairAddress(r)
    ensures IsPortA(r) ==> t == OnPort(r, B)
    ensures IsPortB(r) ==> IsPortA(t) && OnPort(t, B) == r
    ensures t != IOCON && IsPortA(t) == IsPortB(r)
  {
    match r
    case IODIR_A => IODIR_B     case IODIR_B => IODIR_A
    case IPOL_A => IPOL_B       case IPOL_B => IPOL_A
    case GPINTEN_A => GPINTEN_B case GPINTEN_B => GPINTEN_A
    case DEFVAL_A => DEFVAL_B   case DEFVAL_B => DEFVAL_A
    case INTCON_A => INTCON_B   case INTCON_B => INTCON_A
    case GPPU_A => GPPU_B       case GPPU_B => GPPU_A
    case INTF_A => INTF_B       case INTF_B => INTF_A
    case INTCAP_A => INTCAP_B   case INTCAP_B => INTCAP_A
    case GPIO_A => GPIO_B       case GPIO_B => GPIO_A
    case OLAT_A => OLAT_B       case OLAT_B => OLAT_A
  }

  /** The byte a register holds in a register file indexed by address. */
  function Get(f: seq<bv8>, r: Register): bv8
    requires |f| == RegisterCount
  {
    f[Address(r)]
  }
}
