# Genesis-stick: a Dafny model

Genesis-stick is firmware for an ATtiny2313. It reads a Sega Genesis (three- or
six-button) pad or an Atari joystick on its input pins and copies every button
onto a dedicated output pin of an arcade port. The firmware has two sources:

- `avr-general.h`, a header of bit macros over the 8-bit PORTx/DDRx/PINx
  registers;
- `genesis.c`, with the select-line helpers, `poll` and `main`.

`main` sets up the registers, detects the controller type from the A button
held at boot, sends reset pulses and then polls forever.

The project has three modules:

- `avr_general.dfy`, module `AvrGeneral`.
  - Registers are `bv8`. `Bit` is the reference meaning of a bit, and
    `BitIsBinaryDigit` ties it to the binary digit of the value.
  - `SetBit`, `ClearBit`, `Read` and `ReadInverted` are the macros' expressions.
  - Class `Ports` holds PORTA/B/D and DDRA/B/D. The update macros (`On`, `Off`,
    `BankOn`, `BankOff`, `Input`, `Output`, `InputBank`, `OutputBank`) are its
    methods and change the registers in place.
- `protocol.dfy`, module `Protocol`, is the specification of the poller as a
  table.
  - The `STICK_*` constants and the controller type.
  - The controller as an oracle `Pad`, which gives the PINA/PIND bytes from
    the number of rising select edges since power-on and the current select
    level.
  - `Wired`, the table of which joystick line, read in which phase of a poll,
    drives which output bit.
  - `SamplePoint`, saying where in the edge sequence each phase reads.
  - `Polled`, the state after one poll, and `Polls`, the state after `k` polls
    of the endless loop.
  - `Classify`, the detection rule.
  - The lemmas: the per-type output tables, frame and edge counts, idempotence
    of repeated polls, and detection.
- `genesis.dfy`, module `Genesis`.
  - Class `Adapter` holds the `Ports`, the `sticktype` variable and the edge
    count. It also holds a ghost log of select writes, which stands in for
    the settle delays.
  - Its methods follow the C functions statement by statement: `SelectUp`,
    `SelectDown`, `SelectPulse`, `Poll` (split into its blocks) and `Boot`
    (`main` up to the loop, split into `Init`, `Detect` and `Reset`).
  - Each method is proved against pure step functions (`Raised`, `Lowered`,
    `Pulsed`, `PhaseDone`). `Poll` is proved equal to `Protocol.Polled`.

Behaviour the code has and the model keeps:

- The last statement of `poll` is an unconditional `selectPulse`, so every poll
  leaves select low, for ATARI too. `main`'s comment at genesis.c:242-243 says
  select stays up for ATARI; that holds only until the first poll.
- GENESIS3 reads its "select low" pair (A, and Start remapped to Z) at the
  select level the poll is entered with. The first poll after boot enters with
  select high, because boot leaves it high for GENESIS3. Later polls enter with
  select low.
- Rising edges per poll are 4, 2 and 1 (GENESIS6, GENESIS3, ATARI). It is one
  fewer when select is already high on entry, since `selectUp` on a high line
  makes no edge.
- Boot calls `selectUp` 1, 2 and 5 times for ATARI, GENESIS3 and GENESIS6.
  From power-on (select low) these give 1, 2 and 4 rising edges. Two of the
  calls find select already high and make no edge. The first is detection's
  `selectUp` (genesis.c:232), since the `PORTD = 0b01110100` of init has
  already raised select. The second, for GENESIS6 only, is the raise inside
  the first reset `selectPulse` (genesis.c:249), which comes straight after
  the `selectUp` at genesis.c:244.

## Model

| member | source | states |
|---|---|---|
| AvrGeneral.BitIsBinaryDigit | avr-general.h:5-6 | bit `pin` of a register, as the masks test it, is the binary digit of weight 2^pin of its value |
| AvrGeneral.SetBit | avr-general.h:5 | OR-ing in `1<<pin` makes bit `pin` 1 and keeps the other seven bits |
| AvrGeneral.ClearBit | avr-general.h:6 | AND-ing with `~(1<<pin)` makes bit `pin` 0 and keeps the other seven bits |
| AvrGeneral.SetBitIdempotent | avr-general.h:5 | setting a bit twice is setting it once |
| AvrGeneral.ClearBitIdempotent | avr-general.h:6 | clearing a bit twice is clearing it once |
| AvrGeneral.SetClearNoOp | avr-general.h:5-6 | setting (clearing) a bit leaves the register as it was exactly when the bit is already 1 (0) |
| AvrGeneral.Put | avr-general.h:5-6 | choosing On or Off by a level gives that bit the level and keeps the rest |
| AvrGeneral.Read | avr-general.h:21 | `(PINx>>pin) & 1U` is 0 or 1, and is 1 exactly when bit `pin` is 1 |
| AvrGeneral.ReadAfterUpdate | avr-general.h:5-6 | reading bit `p` after On gives 1, after Off gives 0 |
| AvrGeneral.ReadInvertedAlwaysZero | avr-general.h:22-23 | the inverted read as written is 0 for every byte and every pin |
| AvrGeneral.ReadInvertedCounterexample | avr-general.h:22-23 | PINx = 0x00, pin 0: the pin is low and the macro still gives 0 |
| AvrGeneral.ReadInvertedIntended | avr-general.h:22-23 | the inverted read the comment describes: 0 or 1, 1 exactly when the pin is low, `1 - Read` |
| AvrGeneral.Ports.On | avr-general.h:5 | the bank's PORT register gets bit `pin` set; every other register is unchanged |
| AvrGeneral.Ports.Off | avr-general.h:6 | the bank's PORT register gets bit `pin` cleared; every other register is unchanged |
| AvrGeneral.Ports.BankOn | avr-general.h:9 | the bank's PORT register becomes 0xFF whatever it held; nothing else changes |
| AvrGeneral.Ports.BankOff | avr-general.h:10 | the bank's PORT register becomes 0x00; nothing else changes |
| AvrGeneral.Ports.Input | avr-general.h:13 | the bank's DDR register gets bit `pin` cleared, as Off does to PORT; nothing else changes |
| AvrGeneral.Ports.Output | avr-general.h:14 | the bank's DDR register gets bit `pin` set, as On does to PORT; nothing else changes |
| AvrGeneral.Ports.InputBank | avr-general.h:17 | the bank's DDR register becomes 0x00; nothing else changes |
| AvrGeneral.Ports.OutputBank | avr-general.h:18 | the bank's DDR register becomes 0xFF; nothing else changes |
| AvrGeneral.Ports.SetPort | genesis.c:225 | a whole-register write, as in `PORTD = 0b01110100`: the bank's PORT register becomes the value; nothing else changes |
| Protocol.StickType.Code | genesis.c:86-88 | each type's code; code 0 is GENESIS6, code 1 GENESIS3, and a code below STICK_ATARI is a Genesis type, so `poll`'s tests select the types they name |
| Genesis.Adapter.constructor | genesis.c:96 | power-on: `sticktype` holds GENESIS6, no select edge has happened yet, the log is empty, and the registers are a fresh set |
| Protocol.LevelPins | genesis.c:38-46 | the joystick map reads six distinct input bits: two input bytes agree on all six lines exactly when they agree on PINA bits 0-2 and PIND bits 0, 1, 3 |
| Protocol.Wired | genesis.c:121-197 | the output table: PORTA is never written; on PORTD exactly D4-D6 are driven, all in the middle block; the first block writes PORTB only and not under ATARI; the third block writes PORTB only and only under GENESIS6; under GENESIS6 every PORTB bit is driven |
| Protocol.SamplePoint | genesis.c:118-199 | where each block reads: under ATARI at the entry edge count and level; under GENESIS6 the first block with select low; on Genesis types the middle and extra blocks with select high; never more than three edges after entry |
| Protocol.Polled | genesis.c:115-204 | the state after one poll: select low, PORTA and the DDRs kept, `PulseCount` rising edges, one fewer when select was already high |
| Protocol.After | genesis.c:115-204 | defines each output bit after one poll: select (D2) low; an output the type's table wires takes its line's level at that block's sample point; every other bit keeps its value. Stated per bit by `PolledBit`, and per type by `Genesis6Table`, `Genesis3Table` and `AtariTable` |
| Protocol.Polls | genesis.c:255-257 | defines the state after `k` iterations of the endless loop, as one `Polled` step `k` times. Its properties are stated by `PollsFrame`, `PollsKeepUnwritten`, `PollsEdges` and `UnwiredStable` |
| Genesis.Adapter.SelectUp | genesis.c:99-102 | PORTD bit 2 set, a rising edge counted when select was low, no other register bit changed, one raise logged |
| Genesis.Adapter.SelectDown | genesis.c:103-106 | PORTD bit 2 cleared, no edge, no other register bit changed, one drop logged |
| Genesis.Adapter.SelectPulse | genesis.c:109-112 | select ends low after at most one rising edge (exactly one from low); no other bit changed; one pulse logged |
| Genesis.Raised | genesis.c:99-102 | `selectUp` on a state: bit 2 of PORTD becomes 1, all else kept, edge count + 1 from low |
| Genesis.Lowered | genesis.c:103-106 | `selectDown` on a state: bit 2 of PORTD becomes 0, all else and the edge count kept |
| Genesis.Pulsed | genesis.c:109-112 | `selectPulse` on a state: bit 2 ends 0, all else kept, edge count + 1 from low |
| Genesis.PhaseDone | genesis.c:121-200 | one block of reads and writes: each output wired to that phase takes its line's level in the inputs seen now; select, PORTA, the DDRs and the edge count are kept |
| Genesis.Pulses | genesis.c:109-112 | `n` pulses log `2n` writes alternating raise, drop |
| Genesis.UpsPulses | genesis.c:109-112 | each pulse is one `selectUp` call |
| Genesis.Adapter.Drive | genesis.c:122-124 | `if (Read(..)) On(..) else Off(..)` makes the output bit the read level and changes no other bit or register |
| Genesis.Adapter.PinA | genesis.c:122-197 | defines the PINA byte every `Read(A,..)` of `poll` sees: the controller's answer at the current edge count and select level. `Seen` gives the same inputs to the step functions |
| Genesis.Adapter.PinD | genesis.c:127-191 | defines the PIND byte every `Read(D,..)` of `poll` sees, in the same way as `PinA` |
| Genesis.StartTaps | genesis.c:121-141 | the start block's writes, A to B1 and line 9 to B7 (GENESIS6) or B6 (GENESIS3), are the first phase of the table |
| Genesis.PadTapsB | genesis.c:159-178 | the middle block's PORTB writes (Right to B0, line 6 to B2 or to B7 under ATARI, line 9 to B3) are the second phase of the table |
| Genesis.PadTapsD | genesis.c:147-157 | the middle block's PORTD writes (Up, Down, Left to D4-D6) are the second phase of the table |
| Genesis.ExtraTaps | genesis.c:185-200 | the six-button block's writes (X, Y, Z to B4-B6) are the third phase of the table |
| Genesis.PortDSecondOnly | genesis.c:121-200 | the first block (genesis.c:121-141) and the third block (genesis.c:185-200) leave PORTD alone; only the middle block between them writes it |
| Genesis.Adapter.StartPhase | genesis.c:121-141 | the start block is the first phase of the table on Genesis types and changes nothing under ATARI |
| Genesis.Adapter.StartButtons | genesis.c:122-138 | the start block's writes leave PORTB as the first phase says and change nothing else |
| Genesis.Adapter.PadPhase | genesis.c:147-178 | the middle block is the second phase of the table |
| Genesis.Adapter.PadDirections | genesis.c:147-157 | the direction writes leave PORTD as the second phase says, keep select, and change nothing else |
| Genesis.Adapter.PadButtons | genesis.c:159-178 | the button writes leave PORTB as the second phase says and change nothing else |
| Genesis.Adapter.ExtraPhase | genesis.c:185-200 | under GENESIS6: a raise, the third phase, a drop, one pulse logged; otherwise nothing changes |
| Genesis.Adapter.Poll | genesis.c:115-204 | one poll leaves the registers and the edge count exactly as `Protocol.Polled` says, after 4, 2 or 1 pulses by type |
| Genesis.InOrderIsPolled | genesis.c:115-204 | the poll's steps in program order compose to `Protocol.Polled` |
| Genesis.InOrder | genesis.c:115-204 | defines `poll`'s statements in program order as step functions: lead pulse, start block, raise, middle block, drop, six-button block, final pulse. `InOrderIsPolled` proves it equal to `Protocol.Polled` |
| Genesis.StepsArePolled | genesis.c:115-204 | any chain of states related by the poll's steps ends in `Protocol.Polled` |
| Genesis.PollStrobe | genesis.c:118-202 | the poll's select writes are `PulseCount` pulses: 4 for GENESIS6, 2 for GENESIS3, 1 for ATARI |
| Protocol.PolledExact | genesis.c:115-204 | `Polled` is the one state with its frames, its eight output bits per bank, and its edge count |
| Protocol.AfterStaged | genesis.c:115-204 | an output bit after the three phases, each at its sample point, is the bit `After` gives |
| Protocol.PhasesComposeB | genesis.c:118-200 | PORTB after the three phases in order, with the select writes between, is `After` bit by bit |
| Protocol.PhasesComposeD | genesis.c:118-202 | PORTD after the select writes and the second phase in order is `After` bit by bit, with select low |
| Protocol.Genesis6Table | genesis.c:118-197 | GENESIS6: A0->B1 and D3->B7 with select low after the lead pulse; A2->D4, D0->D5, D1->D6, A1->B0, A0->B2, D3->B3 after the next raise; D1->B4, D0->B5, A2->B6 after the raise after that; no inversion |
| Protocol.Genesis6First | genesis.c:118-129 | GENESIS6: A0->B1 and D3->B7, read with select low after the lead pulse |
| Protocol.Genesis6Second | genesis.c:145-178 | GENESIS6: A2->D4, D0->D5, D1->D6, A1->B0, A0->B2, D3->B3, read after the next raise |
| Protocol.Genesis6Third | genesis.c:185-197 | GENESIS6: D1->B4, D0->B5, A2->B6, read after the raise after that |
| Protocol.Genesis3Table | genesis.c:121-185 | GENESIS3: line 9 read in the first block drives B6 (Z), never B7; B4, B5 and B7 keep their values; the first block reads with no edge before it |
| Protocol.Genesis3Bits | genesis.c:121-185 | each GENESIS3 output bit after a poll is the one `After` gives |
| Protocol.AtariTable | genesis.c:121-185 | ATARI: every read happens before any edge; A0 drives B7, D3 drives B3; B1, B2, B4, B5 and B6 keep their values |
| Protocol.PollFrame | genesis.c:115-204 | a poll never changes PORTA, the DDRs or PORTD bits 0, 1, 3, 7; it ends with select low for every type (the last pulse at genesis.c:202 is unconditional); it makes `PulseCount` rising edges, one fewer when select was high |
| Protocol.PolledBit | genesis.c:115-204 | each PORTB and PORTD bit after a poll is the one `After` gives |
| Protocol.AfterReplay | genesis.c:115-204 | a read of a poll entered `d` edges later sees what the earlier one saw through a controller shifted by `d` |
| Protocol.ReplayBit | genesis.c:115-204 | a second poll, answered as the first was, leaves each output bit as the first left it |
| Protocol.PollIdempotent | genesis.c:115-204 | with select low on entry and the controller answering a second poll as it answered the first, the second poll leaves every register as the first did |
| Protocol.PollsFrame | genesis.c:255-257 | over any number of loop iterations PORTA and the DDRs keep their values |
| Protocol.PollsKeepUnwritten | genesis.c:255-257 | over any number of iterations the PORTD bits no poll writes (0, 1, 3 and 7) keep their values |
| Protocol.PollsEdges | genesis.c:255-257 | after `k > 0` iterations select is low and `k * PulseCount` edges were made, one fewer when select started high |
| Protocol.UnwiredStable | genesis.c:255-257 | an output the table never reads for this type (GENESIS3: X, Y, Start; ATARI: A, B, X, Y, Z) never changes over any number of polls |
| Genesis.Adapter.Init | genesis.c:209-225 | after init DDRA = 0x00, PORTA = 0xFF, DDRB = 0xFF, PORTB = 0xFF, DDRD = 0x74, PORTD = 0x74; select raised, with a rising edge when it was low |
| Genesis.Adapter.SetDirections | genesis.c:209-218 | the direction set-up: the DDRs' final values, PORTA and PORTB high, and the D0, D1, D3 pull-ups set on PORTD with its other bits kept |
| Protocol.Classify | genesis.c:232-240 | detection is total and ordered: ATARI exactly when the first probe is true, GENESIS3 exactly when only the second is, GENESIS6 exactly when neither is |
| Protocol.DetectLiteral | genesis.c:232-240 | with the inverted read as written, detection gives GENESIS6 whatever the controller does |
| Protocol.Probe | genesis.c:233-237 | defines the test `if (ReadInverted(A,0))` for a given inverted-read function. `DetectLiteral` and `DetectIntended` state what it gives for the macro as written and as intended |
| Protocol.DetectIntended | genesis.c:232-240 | with the intended inverted read: ATARI exactly when line 6 is low with select high; else GENESIS3 exactly when line 6 is low with select low; else GENESIS6 |
| Genesis.Adapter.Detect | genesis.c:232-240 | `sticktype` is the classification of the probe with select raised and the probe after it is lowered; select is left high for ATARI and low otherwise |
| Genesis.Adapter.Reset | genesis.c:244-253 | select raised again for the Genesis types, then three more pulses for GENESIS6; ATARI unchanged |
| Genesis.BootSteps | genesis.c:244-253 | from init's registers, boot's select writes end with PORTD 0x70 for GENESIS6 and 0x74 otherwise, after 0, 1 or 3 more rising edges |
| Genesis.Adapter.Boot | genesis.c:206-253 | `main` up to the loop: the classification of the two probes at the edge count init leaves, the final registers per type, the edge count and the select-write log |
| Genesis.BootUps | genesis.c:232-253 | boot calls `selectUp` once for ATARI, twice for GENESIS3, five times for GENESIS6 |
| Genesis.UpsAppend | genesis.c:232-253 | the `selectUp` count of two logs in sequence is the sum of their counts |
| Genesis.PowerOn | genesis.c:96 | from power-on (`sticktype` GENESIS6, select low): the classification of the probes at edge 1; 1, 2 or 4 rising edges and 1, 2 or 5 `selectUp` calls for ATARI, GENESIS3, GENESIS6; the final registers |
| Genesis.PowerOnLiteral | genesis.c:232-240 | with the inverted read as the header writes it, boot from power-on always detects GENESIS6, whatever the controller does, and ends with PORTD 0x70 after 4 rising edges |

## Left out

- The `_delay_us` and `_delay_ms` busy-waits (genesis.c:101, 105, 255) are timing only. Each `selectUp`/`selectDown` adds one entry to the ghost `strobe` log, which stands for the settle delay after it. `pulsepad` and `polldelay` (genesis.c:92-93) are kept only as the named constants `PULSEPAD` and `POLLDELAY`, and no member uses them.
- The endless `for (;;)` loop of `main` (genesis.c:255-257) is not a method. `Protocol.Polls` iterates one poll, and the `Polls…` lemmas and `UnwiredStable` state what holds over any number of iterations.
- The PINx input registers and the controller's multiplexer are the `Pad` oracle. It maps the rising select edges since power-on and the select level to the PINA/PIND bytes. The edge count is environment state on the `Adapter`. The oracle does not model the electrical settle time or the controller's timeout, which resets its counter.
- `avr/io.h` register addresses, fuses, the pinout comments, and what a bit's polarity means to the arcade system are not modelled. Only bit values are.
- C's `int` promotion in the `ReadInverted` and `Read` expressions is modelled in 8 bits. The shifted value is below 256, so the zero tests agree.
- Genesis.Adapter.Boot: requires `sticktype == Genesis6`, the value it holds when `main` starts. `main` runs once, so no other entry state is modelled.
- Genesis.Adapter.Poll: the states between statements are specified per block (`StartPhase`, `PadPhase`, `ExtraPhase`), not per statement.

## Findings

| source | as written | input that shows it | evidently intended | confidence | as-written member | corrected member |
|---|---|---|---|---|---|---|
| avr-general.h:23 | `!` applied to `PINx>>pin` OR-ed with `0xFE` is 0 for every input, because the OR keeps the operand non-zero; boot detection therefore always yields GENESIS6 (Genesis.PowerOnLiteral) | PINA = 0x00 (pin 0 low, A held), pin 0: the macro gives 0 | `!((PINx>>pin)&1U)`, 1 exactly when the pin is low, as the comment at avr-general.h:22 says | high; not executed | AvrGeneral.ReadInvertedAlwaysZero | AvrGeneral.ReadInvertedIntended |
