# MCP23017 driver model

A Dafny model of an Arduino driver for the Microchip MCP23017 16-bit I/O
expander. The driver turns pin and port operations into reads and writes of
the chip's byte registers. It uses the register layout for IOCON.BANK = 0
(sections 3.2.1 and 3.5 of the MCP23017 data sheet), where the port-B
register of every pair sits one address above its port-A twin.

The project has three modules:

- `Bits` (`bits.dfy`): the bit helpers the driver relies on. These are
  Arduino's `bitSet`, `bitClear`, `bitRead`, `lowByte` and `highByte`, and
  `a | b << 8`. They are pure functions on `bv8` and `bv16`.
- `Registers` (`registers.dfy`): the header `src/MCP23017.h`. It covers
  ports, pin names, the interrupt-mirroring mode and the 21 register
  addresses. It also covers `operator+(Register, Port)`, modelled as
  address arithmetic that yields `None` when the sum names no register.
  The two-byte access rule is here too. In byte mode with BANK = 0 the
  address pointer toggles within an A/B pair, so a pair access starting at
  a port-B register gives the bytes reversed.
- `Device` (`device.dfy`): the controller `src/MCP23017.cpp`. `Bus` stands
  for the two-wire bus and the chip behind it:
  - `regs` is an array of the 22 register cells (addresses 0x00..0x15),
    and the chip is treated as plain memory;
  - `acks(n)` is the acknowledgement of the n-th transaction whose status
    the driver reports;
  - `sent` counts those transactions.

  `MCP23017` holds the device address and the bus. Its methods follow the
  `.cpp` code step by step: read a register into a local, set or clear one
  bit, write it back, and AND the write acknowledgements together. Each
  method states the exact new register file, as an update of the old one,
  and its result as the conjunction of the acknowledgements of the
  transactions it issued.

The header declares `portMode`, `pinMode`, `digitalWrite`, `writePort`,
`write`, `interruptMode`, `interrupt`, `disableInterrupt`, `interruptedBy`
and `clearInterrupts` as returning `void`. The `.cpp` defines them all as
returning `bool`. The model follows the `.cpp`.

Single-register reads (`readRegister(reg)`) discard the bus status in the
source. They are therefore modelled as methods that change nothing. Writes
and the two-byte reads consume one acknowledgement each.

## Model

| member | source | states |
|---|---|---|
| `Bits.BitRead` | src/MCP23017.cpp:115 | `bitRead(v, b)`, `(v >> b) & 1`, holds exactly when the mask `bit(b)` meets v |
| `Bits.LowByte` | src/MCP23017.cpp:126 | `lowByte(v)` is v mod 256 |
| `Bits.HighByte` | src/MCP23017.cpp:126 | `highByte(v)` of a 16-bit v is v div 256 |
| `Bits.BitSet` | src/MCP23017.cpp:69-79 | `bitSet(v, b)` sets bit b and keeps the other seven bits |
| `Bits.BitClear` | src/MCP23017.cpp:69-79 | `bitClear(v, b)` clears bit b and keeps the other seven bits |
| `Bits.BitWrite` | src/MCP23017.cpp:97-99 | the set-if/clear-else shape leaves bit b equal to the condition and the other seven bits unchanged |
| `Bits.BitWriteUnique` | src/MCP23017.cpp:69-83 | a byte whose bit b is as requested and whose other seven bits are as read is exactly the byte the read-modify-write writes back |
| `Bits.BitWriteSame` | src/MCP23017.cpp:97-101 | writing a bit back with the value it already has leaves the byte unchanged |
| `Bits.BitWriteTwice` | src/MCP23017.cpp:97-101 | writing the same bit twice equals writing only the second value, so HIGH then LOW on a pin leaves it LOW |
| `Bits.Join` | src/MCP23017.cpp:139 | the value `a` OR `b << 8` has low byte a and high byte b |
| `Bits.JoinBytes` | src/MCP23017.cpp:124-140 | joining `lowByte(v)` and `highByte(v)` gives v back, so `read()` after `write(v)` returns v |
| `Registers.PortValue` | src/MCP23017.h:9-13 | port A is 0 and port B is 1, the offset each adds to a register address |
| `Registers.PinOf` | src/MCP23017.h:17-34 | each pin name stands for its position: GPA0..GPA7 are 0..7, GPB0..GPB7 are 8..15 |
| `Registers.PinBit` | src/MCP23017.h:127-129 | the bit of a pin is pin mod 8, and pin = 8 × port + bit |
| `Registers.PinNameLocation` | src/MCP23017.h:17-34 | GPAk is bit k of port A and GPBk is bit k of port B |
| `Registers.ModeBits` | src/MCP23017.h:41-45 | `Separated` is 0 and `Or` is exactly bit 6 (IOCON.MIRROR) |
| `Registers.Address` | src/MCP23017.h:52-75 | every register address is in 0x00..0x15 and is not 0x0B, and the address names back its register, so all 21 are distinct |
| `Registers.RegisterAtAddress` | src/MCP23017.h:52-75 | every address that names a register is that register's address |
| `Registers.Unpaired` | src/MCP23017.h:52-75 | each register is port A, port B or IOCON, and IOCON is the only unpaired one |
| `Registers.Plus` | src/MCP23017.h:77-79 | `r + p` is the register at address r + p, and no register exactly when no enumerator has that address |
| `Registers.PlusPortA` | src/MCP23017.h:77-79 | `r + Port::A == r` for every register |
| `Registers.PlusPortB` | src/MCP23017.h:54-79 | every port-A address is even, and `X_A + Port::B` is the port-B register one address up |
| `Registers.PlusOutsideMap` | src/MCP23017.h:64-79 | `IOCON + Port::B` (0x0B) and `OLAT_B + Port::B` (0x16) name no register |
| `Registers.OnPort` | src/MCP23017.h:77-79 | for a port-A base, `base + port` is a register at address base + port, `base` itself for A and its port-B twin for B |
| `Registers.PairAddress` | src/MCP23017.h:206-225 | the second address of a two-byte access is the other address of the same even/odd pair |
| `Registers.PairAddressInMap` | src/MCP23017.h:206-225 | the second byte of a pair access is another cell of the register file; after IOCON it is 0x0B, which no enumerator names |
| `Registers.Twin` | src/MCP23017.h:206-225 | a pair access starting at a paired register reaches its twin next: the port-B twin of a port-A register, the port-A twin of a port-B register |
| `Device.WithMirror` | src/MCP23017.cpp:186-188 | the IOCON byte written back has bit 6 set iff the mode is Or and every other bit as read |
| `Device.WithMirrorIdempotent` | src/MCP23017.cpp:184-191 | setting the interrupt mode twice gives the same IOCON as setting it once |
| `Device.MCP23017.constructor` | src/MCP23017.cpp:3-6 | stores the given device address and bus |
| `Device.MCP23017.WithDefaultAddress` | src/MCP23017.cpp:8-11 | stores the default address 0x20 and the bus |
| `Device.MCP23017.WriteRegister` | src/MCP23017.cpp:142-149 | sets exactly the register's cell; the result is the transaction's acknowledgement |
| `Device.MCP23017.WriteRegisterPair` | src/MCP23017.cpp:151-159 | sets the register's cell to portA and its twin's cell to portB (reversed for a port-B register) and nothing else |
| `Device.MCP23017.ReadRegister` | src/MCP23017.cpp:162-169 | returns the register's cell |
| `Device.MCP23017.ReadRegisterPair` | src/MCP23017.cpp:171-180 | returns the register's cell and its twin's cell, writes nothing, and reports the transaction's acknowledgement |
| `Device.MCP23017.Init` | src/MCP23017.cpp:15-33 | IOCON becomes 0x20 (SEQOP set, MIRROR and BANK clear), GPPU_A and GPPU_B become 0xFF, nothing else changes; the result is the AND of the two acknowledgements |
| `Device.MCP23017.Begin` | src/MCP23017.cpp:35-38 | behaves as `init` |
| `Device.MCP23017.BeginAt` | src/MCP23017.cpp:40-44 | stores the new address and then behaves as `init` |
| `Device.MCP23017.PortMode` | src/MCP23017.cpp:46-52 | `pullups` defaults to 0xFF and `inverted` to 0x00 (src/MCP23017.h:125); overwrites IODIR, GPPU and IPOL of the port with the three bytes, nothing else; AND of three acknowledgements |
| `Device.MCP23017.PinMode` | src/MCP23017.cpp:54-85 | `inverted` defaults to false (src/MCP23017.h:141); on the pin's port, IODIR bit ← INPUT or INPUT_PULLUP, GPPU bit ← INPUT_PULLUP, IPOL bit ← inverted; all other bits and registers kept; AND of the three write acknowledgements |
| `Device.MCP23017.DigitalWrite` | src/MCP23017.cpp:87-102 | the pin's GPIO bit becomes set iff the state is HIGH; every other pin and register keeps its value |
| `Device.MCP23017.DigitalRead` | src/MCP23017.cpp:104-117 | returns HIGH iff the pin's GPIO bit is set, LOW otherwise |
| `Device.MCP23017.WritePort` | src/MCP23017.cpp:119-122 | overwrites exactly `GPIO_A + port` |
| `Device.MCP23017.Write` | src/MCP23017.cpp:124-127 | GPIO_A ← lowByte(v), GPIO_B ← highByte(v), nothing else; the GPIO pair then reads as v |
| `Device.MCP23017.ReadPort` | src/MCP23017.cpp:129-132 | returns GPIO_A for port A and GPIO_B for port B |
| `Device.MCP23017.Read` | src/MCP23017.cpp:134-140 | the low byte of the result is GPIO_A and the high byte is GPIO_B |
| `Device.MCP23017.InterruptMode` | src/MCP23017.cpp:184-191 | IOCON bit 6 becomes set iff the mode is Or; the other IOCON bits and registers are kept |
| `Device.MCP23017.Interrupt` | src/MCP23017.cpp:193-218 | GPINTEN of the port ← 0xFF; CHANGE: INTCON ← 0; FALLING: INTCON ← 0xFF, DEFVAL ← 0xFF; RISING: INTCON ← 0xFF, DEFVAL ← 0; other modes write only GPINTEN; the other port is untouched; result is the AND of the acknowledgements |
| `Device.MCP23017.InterruptedBy` | src/MCP23017.cpp:220-223 | returns (INTF_A, INTF_B) and writes nothing |
| `Device.MCP23017.DisableInterrupt` | src/MCP23017.cpp:225-228 | zeroes that port's GPINTEN only |
| `Device.MCP23017.ClearInterrupts` | src/MCP23017.cpp:230-234 | one two-byte read; writes nothing |
| `Device.MCP23017.ClearInterruptsCaptured` | src/MCP23017.cpp:236-239 | returns (INTCAP_A, INTCAP_B) and writes nothing |

## Left out

- The two-wire transport (`beginTransmission`, `write`, `endTransmission`, `requestFrom`, `read`) is abstracted. The register file stands for the chip, and each status-reporting transaction gets one acknowledgement from the bus.
- Device.MCP23017.ReadRegisterPair: the status is the bus's acknowledgement. It is not `!(endTransmission() & requestFrom(addr, 2))` computed from Wire's numeric return codes.
- The bus reaches a single chip. The device address is stored but does not select among chips.
- The default `TwoWire& bus = Wire` argument (the process-wide `Wire` object) is not modelled. The bus is always passed in.
- Electrical behaviour of the chip is not modelled: GPIO versus OLAT, IPOL inverting reads, pull-ups, and a read of INTCAP clearing the pending interrupt. The register file is plain memory.
- A write takes effect in the register file whether or not the bus acknowledges it. A failed transaction in the middle of a multi-register operation, which leaves the chip partly written, is therefore not modelled; only the reported status reflects it.
- The chip also answers at 0x0B with IOCON (section 3.5 of the MCP23017 data sheet). No enumerator names 0x0B, and the model keeps it as a separate plain cell rather than an alias of IOCON, so a two-byte access starting at IOCON writes or reads that separate cell.
- Pins 16 and above are excluded by a precondition. The source's behaviour there depends on integer truncation inside Arduino's bit macros.
- The numeric values of INPUT, OUTPUT, INPUT_PULLUP, HIGH, LOW, CHANGE, FALLING and RISING live in Arduino.h, which is not part of this model. They are datatypes with an "other" case.
- `debug()` is only declared under `_DEBUG` and has no body.
- The destructor does nothing and is not modelled.
- Concurrency is not modelled. In particular, the race window of a read-modify-write that spans two bus transactions is out of scope.
- The root-level `MCP23017.cpp` and `MCP23017.h` are a superseded revision that does not build, and are not part of this model.
