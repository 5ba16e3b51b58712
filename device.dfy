/**
 * The MCP23017 device controller. The bus and the chip behind it are
 * modelled as plain memory: a `Bus` holds the chip's 22 register cells
 * (addresses 0x00..0x15) and the acknowledgement the bus gives to each
 * transaction whose status the driver reports. Every driver operation is
 * either a full-byte overwrite of one register or of an A/B pair, or a
 * read-modify-write of a single bit that leaves the other seven bits alone.
 */
module Device {
  import opened Bits
  import opened Registers

  /** Arduino's pinMode argument: OUTPUT, INPUT, INPUT_PULLUP or any other byte. */
  datatype PinModeArg = Output | Input | InputPullup | OtherMode

  /** Arduino's HIGH and LOW; `OtherLevel` is any other byte given as a state. */
  datatype Level = Low | High | OtherLevel

  /** Arduino's interrupt triggers CHANGE, FALLING, RISING, or any other byte. */
  datatype Trigger = Change | Falling | Rising | OtherTrigger

  /** IOCON as `init` writes it: BANK = 0, MIRROR = 0, SEQOP = 1 (byte
      mode), DISSLW = 0, HAEN = 0, ODR = 0, INTPOL = 0. */
  const InitialIocon: bv8 := 0x20

  /** The IOCON byte `interruptMode(m)` writes back: `iocon | Or` for Or,
      `iocon & ~Or` otherwise. */
  function WithMirror(iocon: bv8, m: MirrorMode): (r: bv8)
    ensures r == BitWrite(iocon, 6, m == Or)
  {
    if m == Or then iocon | ModeBits(Or) else iocon & !ModeBits(Or)
  }

  /** Setting the interrupt mode again changes nothing more. */
  lemma WithMirrorIdempotent(iocon: bv8, m: MirrorMode)
    ensures WithMirror(WithMirror(iocon, m), m) == WithMirror(iocon, m)
  {
  }

  /** The level of pin `pin` in a register file: its bit of GPIO_A or GPIO_B. */
  predicate PinHigh(f: seq<bv8>, pin: nat)
    requires |f| == RegisterCount && pin < 16
  {
    BitRead(Get(f, OnPort(GPIO_A, PinPort(pin))), PinBit(pin))
  }

  /** The 16-bit value of the GPIO pair: GPIO_A is the low byte. */
  function PortsWord(f: seq<bv8>): bv16
    requires |f| == RegisterCount
  {
    Join(Get(f, GPIO_A), Get(f, GPIO_B))
  }

  /** The two-wire bus together with the chip it reaches. */
  class Bus {
    /** The chip's register cells, indexed by address. */
    const regs: array<bv8>
    /** Whether the bus acknowledges the n-th status-reporting transaction. */
    const acks: nat -> bool
    /** How many status-reporting transactions have been issued. */
    var sent: nat

    constructor (regs: array<bv8>, acks: nat -> bool)
      ensures this.regs == regs && this.acks == acks && sent == 0
    {
      this.regs := regs;
      this.acks := acks;
      sent := 0;
    }
  }

  /** The driver object: a device address and the bus it talks over. */
  class MCP23017 {
    const bus: Bus
    var deviceAddr: bv8

    ghost predicate Valid()
    {
      bus.regs.Length == RegisterCount
    }

    /** The chip's register file, by address. */
    ghost function RegisterFile(): (f: seq<bv8>)
      requires Valid()
      reads bus.regs
      ensures |f| == RegisterCount
    {
      bus.regs[..]
    }

    /** The chip at `address` on `bus`. */
    constructor (address: bv8, bus: Bus)
      requires bus.regs.Length == RegisterCount
      ensures Valid() && this.bus == bus && deviceAddr == address
    {
      this.bus := bus;
      deviceAddr := address;
    }

    /** The chip at the default address 0x20 on `bus`. */
    constructor WithDefaultAddress(bus: Bus)
      requires bus.regs.Length == RegisterCount
      ensures Valid() && this.bus == bus && deviceAddr == DefaultAddress
    {
      this.bus := bus;
      deviceAddr := DefaultAddress;
    }

    /** Writes one register; the result is the bus's acknowledgement. */
    method WriteRegister(reg: Register, value: bv8) returns (ack: bool)
      requires Valid()
      modifies bus, bus.regs
      ensures RegisterFile() == old(RegisterFile())[Address(reg) := value]
      ensures ack == bus.acks(old(bus.sent)) && bus.sent == old(bus.sent) + 1
    {
      bus.regs[Address(reg)] := value;
      ack := bus.acks(bus.sent);
      bus.sent := bus.sent + 1;
    }

    /** Writes two bytes starting at `reg`: `portA` lands in `reg` and
        `portB` in its A/B twin, so a port-B `reg` reverses them. */
    method WriteRegisterPair(reg: Register, portA: bv8, portB: bv8) returns (ack: bool)
      requires Valid()
      modifies bus, bus.regs
      ensures RegisterFile() == old(RegisterFile())[Address(reg) := portA][PairAddress(reg) := portB]
      ensures reg != IOCON ==>
        Get(RegisterFile(), reg) == portA && Get(RegisterFile(), Twin(reg)) == portB
      ensures ack == bus.acks(old(bus.sent)) && bus.sent == old(bus.sent) + 1
    {
      PairAddressInMap(reg);
      bus.regs[Address(reg)] := portA;
      bus.regs[PairAddress(reg)] := portB;
      ack := bus.acks(bus.sent);
      bus.sent := bus.sent + 1;
    }

    /** Reads one register. */
    method ReadRegister(reg: Register) returns (value: bv8)
      requires Valid()
      ensures value == Get(RegisterFile(), reg)
    {
      value := bus.regs[Address(reg)];
    }

    /** Reads two bytes starting at `reg`: the byte of `reg` and that of its
        A/B twin, reversed for a port-B `reg`. Writes nothing. */
    method ReadRegisterPair(reg: Register) returns (ok: bool, portA: bv8, portB: bv8)
      requires Valid()
      modifies bus
      ensures RegisterFile() == old(RegisterFile())
      ensures portA == Get(RegisterFile(), reg) && portB == RegisterFile()[PairAddress(reg)]
      ensures reg != IOCON ==> portB == Get(RegisterFile(), Twin(reg))
      ensures ok == bus.acks(old(bus.sent)) && bus.sent == old(bus.sent) + 1
    {
      PairAddressInMap(reg);
      portA := bus.regs[Address(reg)];
      portB := bus.regs[PairAddress(reg)];
      ok := bus.acks(bus.sent);
      bus.sent := bus.sent + 1;
    }

    /** Sets IOCON to byte mode with separate interrupt pins and enables
        every pull-up; no other register changes. */
    method Init() returns (ok: bool)
      requires Valid()
      modifies bus, bus.regs
      ensures RegisterFile() == old(RegisterFile())
        [Address(IOCON) := InitialIocon][Address(GPPU_A) := 0xFF][Address(GPPU_B) := 0xFF]
      ensures BitRead(Get(RegisterFile(), IOCON), 5)
        && !BitRead(Get(RegisterFile(), IOCON), 6) && !BitRead(Get(RegisterFile(), IOCON), 7)
      ensures ok == (bus.acks(old(bus.sent)) && bus.acks(old(bus.sent) + 1))
      ensures bus.sent == old(bus.sent) + 2
    {
      ok := WriteRegister(IOCON, 0x20);
      var ack := WriteRegisterPair(GPPU_A, 0xFF, 0xFF);
      ok := ok && ack;
    }

    /** `begin()`: initializes the chip at the address already set. */
    method Begin() returns (ok: bool)
      requires Valid()
      modifies bus, bus.regs
      ensures RegisterFile() == old(RegisterFile())
        [Address(IOCON) := InitialIocon][Address(GPPU_A) := 0xFF][Address(GPPU_B) := 0xFF]
      ensures ok == (bus.acks(old(bus.sent)) && bus.acks(old(bus.sent) + 1))
      ensures bus.sent == old(bus.sent) + 2
    {
      ok := Init();
    }

    /** `begin(address)`: records a new device address, then initializes. */
    method BeginAt(address: bv8) returns (ok: bool)
      requires Valid()
      modifies this, bus, bus.regs
      ensures deviceAddr == address
      ensures RegisterFile() == old(RegisterFile())
        [Address(IOCON) := InitialIocon][Address(GPPU_A) := 0xFF][Address(GPPU_B) := 0xFF]
      ensures ok == (bus.acks(old(bus.sent)) && bus.acks(old(bus.sent) + 1))
      ensures bus.sent == old(bus.sent) + 2
    {
      deviceAddr := address;
      ok := Begin();
    }

    /** Overwrites the direction, pull-up and polarity registers of `port`. */
    method PortMode(port: Port, directions: bv8, pullups: bv8 := 0xFF, inverted: bv8 := 0x00) returns (ok: bool)
      requires Valid()
      modifies bus, bus.regs
      ensures RegisterFile() == old(RegisterFile())
        [Address(OnPort(IODIR_A, port)) := directions]
        [Address(OnPort(GPPU_A, port)) := pullups]
        [Address(OnPort(IPOL_A, port)) := inverted]
      ensures ok == (bus.acks(old(bus.sent)) && bus.acks(old(bus.sent) + 1)
                     && bus.acks(old(bus.sent) + 2))
      ensures bus.sent == old(bus.sent) + 3
    {
      ok := WriteRegister(OnPort(IODIR_A, port), directions);
      var ack := WriteRegister(OnPort(GPPU_A, port), pullups);
      ok := ok && ack;
      ack := WriteRegister(OnPort(IPOL_A, port), inverted);
      ok := ok && ack;
    }

    /** Configures one pin: its IODIR bit is set iff the mode is an input
        mode, its GPPU bit iff the mode is INPUT_PULLUP, its IPOL bit iff
        `inverted`. Every other bit and every other register is kept. */
    method PinMode(pin: nat, mode: PinModeArg, inverted: bool := false) returns (ok: bool)
      requires Valid() && pin < 16
      modifies bus, bus.regs
      ensures
        var port, b := PinPort(pin), PinBit(pin);
        var dir, pull, pol := OnPort(IODIR_A, port), OnPort(GPPU_A, port), OnPort(IPOL_A, port);
        var f := old(RegisterFile());
        RegisterFile() == f
          [Address(dir) := BitWrite(Get(f, dir), b, mode == Input || mode == InputPullup)]
          [Address(pull) := BitWrite(Get(f, pull), b, mode == InputPullup)]
          [Address(pol) := BitWrite(Get(f, pol), b, inverted)]
      ensures ok == (bus.acks(old(bus.sent)) && bus.acks(old(bus.sent) + 1)
                     && bus.acks(old(bus.sent) + 2))
      ensures bus.sent == old(bus.sent) + 3
    {
      var iodirreg, pullupreg, polreg := IODIR_A, GPPU_A, IPOL_A;
      var b := pin;
      if pin > 7 {
        iodirreg, pullupreg, polreg := IODIR_B, GPPU_B, IPOL_B;
        b := pin - 8;
      }
      ghost var f := RegisterFile();
      assert iodirreg == OnPort(IODIR_A, PinPort(pin)) && b == PinBit(pin);
      assert pullupreg == OnPort(GPPU_A, PinPort(pin)) && polreg == OnPort(IPOL_A, PinPort(pin));

      var iodir := ReadRegister(iodirreg);
      if mode == Input || mode == InputPullup {
        iodir := BitSet(iodir, b);
      } else {
        iodir := BitClear(iodir, b);
      }

      var pull := ReadRegister(pullupreg);
      if mode == InputPullup {
        pull := BitSet(pull, b);
      } else {
        pull := BitClear(pull, b);
      }

      var pol := ReadRegister(polreg);
      if inverted {
        pol := BitSet(pol, b);
      } else {
        pol := BitClear(pol, b);
      }

      assert iodir == BitWrite(Get(f, iodirreg), b, mode == Input || mode == InputPullup);
      assert pull == BitWrite(Get(f, pullupreg), b, mode == InputPullup);
      assert pol == BitWrite(Get(f, polreg), b, inverted);
      ok := WriteRegister(iodirreg, iodir);
      var ack := WriteRegister(pullupreg, pull);
      ok := ok && ack;
      ack := WriteRegister(polreg, pol);
      ok := ok && ack;
    }

    /** Drives one pin: its GPIO bit is set iff `state` is HIGH; every other
        pin and every other register keeps its value. */
    method DigitalWrite(pin: nat, state: Level) returns (ok: bool)
      requires Valid() && pin < 16
      modifies bus, bus.regs
      ensures
        var gpio := OnPort(GPIO_A, PinPort(pin));
        RegisterFile() == old(RegisterFile())
          [Address(gpio) := BitWrite(Get(old(RegisterFile()), gpio), PinBit(pin), state == High)]
      ensures PinHigh(RegisterFile(), pin) == (state == High)
      ensures forall q :: 0 <= q < 16 && q != pin ==>
        PinHigh(RegisterFile(), q) == PinHigh(old(RegisterFile()), q)
      ensures ok == bus.acks(old(bus.sent)) && bus.sent == old(bus.sent) + 1
    {
      var gpioreg := GPIO_A;
      var b := pin;
      if pin > 7 {
        gpioreg := GPIO_B;
        b := pin - 8;
      }

      var gpio := ReadRegister(gpioreg);
      if state == High {
        gpio := BitSet(gpio, b);
      } else {
        gpio := BitClear(gpio, b);
      }

      ok := WriteRegister(gpioreg, gpio);
    }

    /** Reads one pin: HIGH iff its GPIO bit is set. */
    method DigitalRead(pin: nat) returns (level: Level)
      requires Valid() && pin < 16
      ensures level == High <==> PinHigh(RegisterFile(), pin)
      ensures level == Low <==> !PinHigh(RegisterFile(), pin)
    {
      var gpioreg := GPIO_A;
      var b := pin;
      if pin > 7 {
        gpioreg := GPIO_B;
        b := pin - 8;
      }

      var gpio := ReadRegister(gpioreg);
      if BitRead(gpio, b) {
        return High;
      }
      return Low;
    }

    /** Overwrites the GPIO register of `port`. */
    method WritePort(port: Port, value: bv8) returns (ok: bool)
      requires Valid()
      modifies bus, bus.regs
      ensures RegisterFile() == old(RegisterFile())[Address(OnPort(GPIO_A, port)) := value]
      ensures ok == bus.acks(old(bus.sent)) && bus.sent == old(bus.sent) + 1
    {
      ok := WriteRegister(OnPort(GPIO_A, port), value);
    }

    /** Writes both ports at once: the low byte to GPIO_A, the high byte to
        GPIO_B; reading both ports back gives `value`. */
    method Write(value: bv16) returns (ok: bool)
      requires Valid()
      modifies bus, bus.regs
      ensures RegisterFile() == old(RegisterFile())
        [Address(GPIO_A) := LowByte(value)][Address(GPIO_B) := HighByte(value)]
      ensures PortsWord(RegisterFile()) == value
      ensures ok == bus.acks(old(bus.sent)) && bus.sent == old(bus.sent) + 1
    {
      ok := WriteRegisterPair(GPIO_A, LowByte(value), HighByte(value));
      JoinBytes(value);
    }

    /** Reads the GPIO register of `port`. */
    method ReadPort(port: Port) returns (value: bv8)
      requires Valid()
      ensures port == A ==> value == Get(RegisterFile(), GPIO_A)
      ensures port == B ==> value == Get(RegisterFile(), GPIO_B)
    {
      value := ReadRegister(OnPort(GPIO_A, port));
    }

    /** Reads both ports: GPIO_A is the low byte, GPIO_B the high byte. */
    method Read() returns (value: bv16)
      requires Valid()
      ensures LowByte(value) == Get(RegisterFile(), GPIO_A)
      ensures HighByte(value) == Get(RegisterFile(), GPIO_B)
      ensures value == PortsWord(RegisterFile())
    {
      var a := ReadPort(A);
      var b := ReadPort(B);
      value := Join(a, b);
    }

    /** Sets the IOCON.MIRROR bit iff `intMode` is Or, keeping every other
        IOCON bit and every other register. */
    method InterruptMode(intMode: MirrorMode) returns (ok: bool)
      requires Valid()
      modifies bus, bus.regs
      ensures RegisterFile() == old(RegisterFile())
        [Address(IOCON) := WithMirror(Get(old(RegisterFile()), IOCON), intMode)]
      ensures BitRead(Get(RegisterFile(), IOCON), 6) == (intMode == Or)
      ensures SameBitsExcept(Get(RegisterFile(), IOCON), Get(old(RegisterFile()), IOCON), 6)
      ensures ok == bus.acks(old(bus.sent)) && bus.sent == old(bus.sent) + 1
    {
      var iocon := ReadRegister(IOCON);
      if intMode == Or {
        iocon := iocon | ModeBits(Or);
      } else {
        iocon := iocon & !ModeBits(Or);
      }

      ok := WriteRegister(IOCON, iocon);
    }

    /** Enables interrupt-on-change for every pin of `port` and sets its
        comparison: CHANGE compares with the previous value, FALLING with a
        default of 0xFF, RISING with a default of 0x00; any other trigger
        only enables. The other port is untouched. */
    method Interrupt(port: Port, mode: Trigger) returns (ok: bool)
      requires Valid()
      modifies bus, bus.regs
      ensures
        var f, n := old(RegisterFile()), old(bus.sent);
        var en := Address(OnPort(GPINTEN_A, port));
        var con := Address(OnPort(INTCON_A, port));
        var def := Address(OnPort(DEFVAL_A, port));
        match mode
        case Change =>
          RegisterFile() == f[en := 0xFF][con := 0x00]
          && ok == (bus.acks(n) && bus.acks(n + 1)) && bus.sent == n + 2
        case Falling =>
          RegisterFile() == f[en := 0xFF][con := 0xFF][def := 0xFF]
          && ok == (bus.acks(n) && bus.acks(n + 1) && bus.acks(n + 2)) && bus.sent == n + 3
        case Rising =>
          RegisterFile() == f[en := 0xFF][con := 0xFF][def := 0x00]
          && ok == (bus.acks(n) && bus.acks(n + 1) && bus.acks(n + 2)) && bus.sent == n + 3
        case OtherTrigger =>
          RegisterFile() == f[en := 0xFF]
          && ok == bus.acks(n) && bus.sent == n + 1
    {
      var defvalreg := OnPort(DEFVAL_A, port);
      var intconreg := OnPort(INTCON_A, port);

      ok := WriteRegister(OnPort(GPINTEN_A, port), 0xFF);
      var ack: bool;
      match mode {
        case Change =>
          ack := WriteRegister(intconreg, 0);
          ok := ok && ack;
        case Falling =>
          ack := WriteRegister(intconreg, 0xFF);
          ok := ok && ack;
          ack := WriteRegister(defvalreg, 0xFF);
          ok := ok && ack;
        case Rising =>
          ack := WriteRegister(intconreg, 0xFF);
          ok := ok && ack;
          ack := WriteRegister(defvalreg, 0x00);
          ok := ok && ack;
        case OtherTrigger =>
      }
    }

    /** Reads the interrupt flags of both ports (INTF_A, INTF_B); writes nothing. */
    method InterruptedBy() returns (ok: bool, portA: bv8, portB: bv8)
      requires Valid()
      modifies bus
      ensures RegisterFile() == old(RegisterFile())
      ensures portA == Get(RegisterFile(), INTF_A) && portB == Get(RegisterFile(), INTF_B)
      ensures ok == bus.acks(old(bus.sent)) && bus.sent == old(bus.sent) + 1
    {
      ok, portA, portB := ReadRegisterPair(INTF_A);
    }

    /** Disables interrupts for `port`: zeroes its GPINTEN register only. */
    method DisableInterrupt(port: Port) returns (ok: bool)
      requires Valid()
      modifies bus, bus.regs
      ensures RegisterFile() == old(RegisterFile())[Address(OnPort(GPINTEN_A, port)) := 0x00]
      ensures ok == bus.acks(old(bus.sent)) && bus.sent == old(bus.sent) + 1
    {
      ok := WriteRegister(OnPort(GPINTEN_A, port), 0x00);
    }

    /** Clears interrupts by reading the capture registers of both ports. */
    method ClearInterrupts() returns (ok: bool)
      requires Valid()
      modifies bus
      ensures RegisterFile() == old(RegisterFile())
      ensures ok == bus.acks(old(bus.sent)) && bus.sent == old(bus.sent) + 1
    {
      var a, b;
      ok, a, b := ClearInterruptsCaptured();
    }

    /** Clears interrupts and returns the port values captured when the
        interrupt occurred (INTCAP_A, INTCAP_B); writes nothing. */
    method ClearInterruptsCaptured() returns (ok: bool, portA: bv8, portB: bv8)
      requires Valid()
      modifies bus
      ensures RegisterFile() == old(RegisterFile())
      ensures portA == Get(RegisterFile(), INTCAP_A) && portB == Get(RegisterFile(), INTCAP_B)
      ensures ok == bus.acks(old(bus.sent)) && bus.sent == old(bus.sent) + 1
    {
      ok, portA, portB := ReadRegisterPair(INTCAP_A);
    }
  }
}
