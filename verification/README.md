# Verified models of v68

v68 is an X68000 emulator. These modules model its stateful cores in Dafny and prove what each of
them is for: a sound chip whose cached fields never go stale, a DMA controller that moves exactly the
operands it was asked to, a streaming hash that equals its definition, long arithmetic made of 32-bit
operations, nested exceptions that resume what they interrupted, and two small encoders that refine a
queue and a decoder. `dafny verify dfyconfig.toml` checks everything.

| file | models |
|---|---|
| `Arithmetic.dfy`, `Bits.dfy` | products and quotients; the bit operators on numbers and what each does to every bit |
| `Rfc1321.dfy`, `Md5.dfy` | the MD5 digest as RFC 1321 defines it; md5.c's streaming context |
| `YmTables.dfy`, `YmOperator.dfy`, `YmRegisters.dfy`, `YmDiagram.dfy`, `YmLfo.dfy`, `Ym2151.dfy`, `YmRelease.dfy`, `YmEnvelope.dfy`, `YmLaws.dfy` | the YM2151: constant tables, one operator, the register file, the eight algorithm drawings, LFO and phases, the chip, release, what the envelope rates add up to, what each register field and generator comes to |
| `DmacState.dfy`, `DmacSafety.dfy`, `DmacChain.dfy`, `DmacClear.dfy`, `DmacMove.dfy`, `DmacProgram.dfy`, `Dmac.dfy` | the DMA controller: what each function does, invariants of every run, chains, when their descriptors are safe from the operands, where the bytes go, whole programs from the register writes to the interrupt, the controller updated in place |
| `M68k.dfy`, `M68kMemory.dfy`, `M68kLong.dfy`, `M68kChain.dfy`, `M68kException.dfy`, `M68kOpcodes.dfy` | the 68k core: state, memory, long multiply and divide, multi-precision chains, exceptions, opcode table |
| `Okim6258.dfy`, `Okim6258Laws.dfy`, `Vgm.dfy` | the ADPCM queue; its decoder and what is heard; the VGM log writer |

How the models read. A struct whose fields the program updates is a class, and its methods change its
fields; an array of structs is an `array` of records, and an assignment to a field of an element is an
assignment of the element. Negating the most negative C integer wraps. Each method's `ensures` ties the new
state to a specification function of the old one, and the lemmas are about those functions: whatever a
method and its specification share, such as the step of an envelope, the bits of a register or a rotation,
has a law of its own that does not mention it. Integers are unbounded, so every wrap, mask and cut of the C
code is written out. A flag word of the 68k core is the one bit its condition macros look at. In `Ym2151`
the fields only the first operator of a channel uses are a record of the channel, and the operator output
functions `op_calc` and `op_calc1` are arbitrary functions; the constant rows of the tables are the
program's, the computed tables are any values of the right size.

Where a promise does not hold of the code, the model keeps the code, gives the input and proves when the
promise is met:

- md5.c:296 compares with the whole `size_t` length, so one `md5_process_block` call for 2^32 bytes or more
  adds a phantom carry to the byte counter unless the low word really wraps (`Md5.CounterExactIff`,
  `Md5.CounterFailsAt4GiB`). Such a call is made only for aligned input; unaligned input goes in by 64 bytes
  and never adds one. The digest counts 2^32 bytes too many for each phantom carry, and its length field is
  right exactly when they are a multiple of 2^29 (`Md5.HashChunks`, `Md5.LengthRightIff`).
- The signed 64-bit divide reports a quotient of exactly -2^31 as an overflow unless the dividend is 2^31
  (`M68kLong.OverflowReported`, `M68kLong.OverflowCounterexample`). The 32-bit divide never reports
  overflow, and -2^31 / -1, the one case that overflows, leaves 0 when both registers are the same
  (`M68kLong.LongQuotientFits`, `M68kLong.Divl`).
- A DMA memory address leaves 24 bits in one case, a continued block whose base address was left at
  0x1000000 by an earlier chain (`DmacSafety.MarsFitUnlessContinued`). Register writes and one request
  get there from any state and whatever memory holds, by starting an array chain at 0xfffffa and aborting it
  (`DmacSafety.EscapeReachable`).
- A DMA count of 0 in a descriptor means 2^32 operands; the chain results hold of it.

## Model

| member | source | states |
|---|---|---|
| `Md5.HashChunks` | md5.c:205-265 | any message cut into any calls, each through the aligned or the unaligned path, gives the RFC 1321 digest of the concatenation with its byte count off by 2^32 per phantom carry, whose number the calls determine: it is the digest itself when no aligned call has 2^32 bytes or more |
| `Md5.ShortCallsExact` | md5.c:290-296 | no phantom carry from calls that are unaligned or shorter than 2^32 bytes |
| `Md5.LengthRightIff` | md5.c:110-120 | the length field hashed is the right one if and only if the phantom carries are a multiple of 2^29 |
| `Md5.CompressBlock` | md5.c:300-433 | the 64 unrolled operations on a block are the 64 indexed steps of RFC 1321 section 3.4, added to the registers |
| `Md5.FF` | md5.c:272 | the three-operation form is F of RFC 1321 |
| `Md5.FG` | md5.c:273 | the rewritten form is G of RFC 1321 |
| `Md5.Cyclic` | md5.c:327 | the two shifts and the or are the rotation: the word's own bits, s places round |
| `Rfc1321.RotatedBits` | md5.c:327 | after a rotation by s, bit (i + s) mod 32 is the bit i of before |
| `Rfc1321.AuxiliaryBits` | md5.c:272-275 | bit by bit, F and G select, H is the parity, I the exclusive or with "x or not z" |
| `Rfc1321.WordOrder` | md5.c:365-428 | rounds 1 to 4 read the words k, 5k + 1, 3k + 5 and 7k modulo 16 |
| `Rfc1321.WordRoundTrip` | md5.c:83-97 | a word written out is the four bytes it was read from, least significant first |
| `Rfc1321.BlockRoundTrip` | md5.c:317-346 | the words of a block are its bytes, four to a word |
| `Rfc1321.InitialBytes` | md5.c:65-74 | the registers begin with 01 23 45 67 89 ab cd ef fe dc ba 98 76 54 32 10 |
| `Rfc1321.PaddingLength` | md5.c:114-115 | the pad is a byte 0x80 and zeros, 1 to 64 bytes, up to 56 modulo 64 |
| `Md5.Context.ProcessBlock` | md5.c:280-440 | the registers take in all blocks of the data; the counter is the two-word sum of the code |
| `Md5.Context.TopUp` | md5.c:208-230 | the buffered part and what is left of the input together are the old message and the input |
| `Md5.Context.UnalignedBlocks` | md5.c:241-249 | the copying loop consumes whole blocks and leaves 1 to 64 bytes |
| `Md5.Context.AlignedBlocks` | md5.c:251-256 | one call consumes all whole blocks, leaves fewer than 64 bytes and may add a phantom carry |
| `Md5.Context.ProcessBytes` | md5.c:205-265 | the message grows by exactly the input, whatever the buffer held and whichever path is taken; the new buffer length, and the phantom carry: only on the aligned path with more than 64 bytes left, by the low counter word and the whole blocks |
| `Md5.Context.Finish` | md5.c:101-129 | the result is the digest of the message with its padding and 64-bit length |
| `Md5.CounterExactIff` | md5.c:292-296 | the counter is exact modulo 2^64 if and only if the call is shorter than 2^32 bytes or the low word wraps |
| `Md5.CounterFailsAt4GiB` | md5.c:295-296 | one call of 2^32 bytes on a fresh context counts 2^33 |
| `YmRegisters.WriteDt1Mul` | ym2151.c:799-813 | refreshing dt1 and freq only on change leaves both equal to recomputation |
| `YmRegisters.WriteKsAr` | ym2151.c:819-851 | refreshing the other three rate pairs only when ks changed leaves all four equal to recomputation |
| `YmRegisters.WriteBank` | ym2151.c:799-877 | a write to any operator register leaves programmed fields as the registers say and cached fields fresh |
| `YmRegisters.WriteKeepsOperators` | ym2151.c:662-879 | a write that leaves the operators listening to its address in order leaves all 32 in order |
| `YmOperator.RefreshEg` | ym2151.c:585-658 | all four cached rate pairs equal recomputation and nothing programmed changes |
| `YmOperator.Tick` | ym2151.c:1328-1381 | one envelope tick keeps every operator invariant; attack never raises volume, other states never lower it; states only go down |
| `YmOperator.KeyOn` | ym2151.c:445-459 | the envelope invariant is kept, a first key bit restarts phase and attack, volume is never raised |
| `YmOperator.KeyOff` | ym2151.c:461-472 | release starts exactly when the last key bit goes and the state is above release |
| `YmLfo.ModulatedIndex` | ym2151.c:1483-1507 | every modulated frequency lookup lies in 260..8091 of the 8448 entries |
| `YmLfo.AdvanceLfo` | ym2151.c:1390-1461 | the next LFO state as a function of the old one; outputs are the scaled waveforms in range; phase and counter together are one 12-bit accumulator |
| `YmLfo.AdvancePhase` | ym2151.c:1480-1511 | the cached frequency when nothing modulates, a lookup otherwise: both are the step of the modulated index |
| `YmLfo.ShiftNoise` | ym2151.c:1463-1478 | the loop is that many shifts of the 17-bit noise register |
| `Ym2151.Route` | ym2151.c:998-1047 | pointer routing for each of the eight algorithms computes the signals of the drawn diagram for any operator function |
| `Ym2151.RoutingIsDrawing` | ym2151.c:1006-1046 | for every algorithm each accumulator holds the sum of the drawing's arrows at the moment it is used |
| `YmDiagram.DrawingDeterminesSample` | ym2151.c:496-583 | with M1 and MEM given, a diagram fixes every other signal |
| `Ym2151.Chip.ChanCalc` | ym2151.c:998-1047 | an unmuted channel takes one sample of its diagram, M1 and MEM from the sample before; a muted one changes nothing |
| `Ym2151.Chip.RunChannel` | ym2151.c:998-1047 | any sequence of samples under one algorithm, with any operator state and any LFO amplitude at each sample, is a run of the diagram |
| `Ym2151.OneSampleDelays` | ym2151.c:1006-1046 | in such a run MEM and M1 are delays of one sample, with feedback of the two outputs before, under the amplitude of each sample |
| `Ym2151.Chip.ResetChip` | ym2151.c:930-967 | after a reset all caches are fresh, every envelope is off, every stored sample is zero |
| `Ym2151.Chip.WriteReg` | ym2151.c:662-879 | any write keeps the chip invariant; only the key register touches envelopes and phases, exactly as its four bits say; LFO and noise step as their registers say |
| `Ym2151.Chip.KonKoff` | ym2151.c:474-494 | the four operators of the channel are keyed on or off by their bits, all others stay |
| `Ym2151.Chip.AdvanceEg` | ym2151.c:1316-1383 | the timer loop gives every operator exactly the ticks that passed and keeps the invariant |
| `Ym2151.Chip.Advance` | ym2151.c:1385-1511 | all 32 phases advance by their modulated step, the noise register by its shifts |
| `Ym2151.Chip.UpdateOne` | ym2151.c:1551-1604 | one turn: the due envelope ticks, then one diagram sample of each unmuted channel from 0 to 6, then LFO, noise register and all 32 phase steps |
| `Ym2151.Chip.Run` | ym2151.c:662-879 | any run of writes and samples from reset: every command is the step specified for it; programmed fields are those of the last byte written to each register, cached fields equal recomputation, envelope invariants hold of all operators |
| `YmRelease.ReleaseProgress` | ym2151.c:1366-1376 | by the next odd step of its period a released operator is off or its volume has grown |
| `YmRelease.ReleaseEnds` | ym2151.c:1320-1376 | a released operator is off within (1024 - volume) * 2^(eg_sh_rr + 1) ticks from any counter value, wrap included, and stays off |
| `YmRelease.ReleasedOperatorFallsSilent` | ym2151.c:872-877 | the same of every operator a reset chip's registers can program |
| `YmEnvelope.TickDecay` | ym2151.c:1345-1353 | decay rises by its own pair and ends exactly at the due step that takes the volume to D1L or beyond |
| `YmEnvelope.TickSustain` | ym2151.c:1355-1365 | sustain rises by its own pair, and is off exactly at the due step that takes it to 1023 |
| `YmEnvelope.TickRelease` | ym2151.c:1367-1377 | so does release by its own |
| `YmEnvelope.TickAttack` | ym2151.c:1332-1343 | attack steps only when its own pair is due |
| `YmEnvelope.AttackLaw` | ym2151.c:445-459 | a step to v' has 16v' <= 16v - (v + 1) inc < 16v' + 16, or goes to 0 and decay |
| `YmEnvelope.OwnPairOnly` | ym2151.c:1331-1378 | operators that agree in envelope, D1L and the pair of their state tick alike |
| `YmEnvelope.FadeExact` | ym2151.c:1355-1377 | after n ticks of sustain or release the volume is the start and all its pair added, up to 1023, and the operator off exactly then |
| `YmEnvelope.RateLaw` | ym2151.c:65-190 | from any counter value, wrap included, 2^14 ticks at rate i add (4 + i mod 4) * 2^((i - 32) / 4), nothing below 32 and no more than rate 92 |
| `YmEnvelope.FadeSpeed` | ym2151.c:1355-1377 | in 2^14 ticks sustain and release raise the volume by exactly that of their programmed rate with key scaling |
| `YmEnvelope.SustainHolds` | ym2151.c:1355-1365 | with D2R = 0 a sustained operator keeps its volume for any number of ticks |
| `YmEnvelope.HeldNote` | ym2151.c:862-870 | the same of a D2R register field of 0 |
| `YmEnvelope.FastAttack` | ym2151.c:593-601 | at rate 94 or more a key going down takes any volume to 0 at once |
| `YmEnvelope.SlowAttack` | ym2151.c:593-601 | below rate 94 the attack goes by the pair of its rate |
| `YmEnvelope.FirstRows` | ym2151.c:69-72 | where the first four rows of the increments have their ones |
| `YmEnvelope.RowShape` | ym2151.c:74-90 | the other rows hold one power of two or the next in a pattern that repeats every four rows |
| `YmEnvelope.KeyScaleIs` | ym2151.c:593 | the key scaling is the key code over 2^ks, rounded down |
| `YmEnvelope.OtherKeyBit` | ym2151.c:445-472 | keying one bit leaves the other as it was |
| `YmLaws.RegisterMap` | ym2151.c:723-877 | operator k of channel c goes by the channel's key registers and by slot 8k + c of the six banks |
| `YmLaws.PitchOfRegisters` | ym2151.c:734-813 | the detune row and the phase step the registers ask for |
| `YmLaws.RatesOfRegisters` | ym2151.c:585-658 | each rate pair comes from its own register, scaled by the key |
| `YmLaws.LevelLaw` | ym2151.c:996-1047 | an operator puts out its wave at 8 TL plus its envelope, plus AM where enabled, and nothing from 832 on |
| `YmLaws.QuietLevels` | ym2151.c:815-817 | from a TL of 104 up nothing is heard, whatever the wave |
| `YmLaws.SilentMeans` | ym2151.c:930-967 | after a reset nothing is heard of any operator, whatever the wave, and every stored sample is zero |
| `YmLaws.Dt1MulFields` | ym2151.c:799-813 | DT1 and MUL from a byte built of them; MUL 0 is a half |
| `YmLaws.RateFields` | ym2151.c:819-851 | KS and a rate from a byte built of them |
| `YmLaws.ReleaseFields` | ym2151.c:872-877 | D1L in steps of 3 dB, the last of 93 dB, and RR |
| `YmLaws.ConnectionFields` | ym2151.c:725-732 | feedback and algorithm |
| `YmLaws.KeyFields` | ym2151.c:474-494 | the channel and the four operator bits of the key register |
| `YmLaws.LfoSpeed` | ym2151.c:698-703 | the LFO overflow times 2^(high half) is 2^28, the step 16 plus the low half |
| `YmLaws.LfoDepths` | ym2151.c:705-710 | one register holds both depths, the top bit says which |
| `YmLaws.LfoWave` | ym2151.c:712-716 | the wave select is the low two bits |
| `YmLaws.LfoTest` | ym2151.c:672-675 | test bit 1 takes the LFO phase to 0 |
| `YmLaws.LfoClock` | ym2151.c:1391-1402 | whenever the timer passes the overflow the 12-bit accumulator moves on by the step |
| `YmLaws.AmShapes` | ym2151.c:1406-1457 | a falling saw, a square, a triangle by twos, the noise |
| `YmLaws.PmShapes` | ym2151.c:1406-1457 | a rising saw odd about its middle, a square, a triangle whose second half negates the first, the noise less 128 |
| `YmLaws.LfoOutputs` | ym2151.c:1460-1461 | the outputs are wave times depth over 128, rounded toward zero |
| `YmLaws.AmSensitivity` | ym2151.c:1011-1012 | AM is off at sensitivity 0 and doubles from 1 up |
| `YmLaws.FeedbackLevels` | ym2151.c:1014-1030 | feedback is 128 times the sum of two outputs at level 1 and doubles from there |
| `YmLaws.KeyCodes` | ym2151.c:734-790 | 64 steps a semitone, 768 an octave, every fourth key code repeating the one before |
| `YmLaws.Detune2` | ym2151.c:198 | detune 2 in 64ths of a semitone |
| `YmLaws.StepLaw` | ym2151.c:799-813 | the phase step is half of MUL times the detuned frequency, rounded down |
| `YmLaws.PmSensitivity` | ym2151.c:1484-1488 | the modulation of every PM sensitivity |
| `YmLaws.ModulatedPitch` | ym2151.c:1483-1507 | modulation is the step of a key so many 64ths of a semitone away |
| `YmLaws.SteadyPitch` | ym2151.c:1480-1511 | without modulation the phase after n samples is n cached steps on, modulo 2^32 |
| `YmLaws.NoiseStream` | ym2151.c:1468-1476 | each bit put out tells whether the bits 17 and 14 before were equal |
| `YmLaws.ClockExact` | ym2151.c:1320-1325 | over any number of samples one envelope tick for every 196608 of timer, the rest still in it |
| `DmacSafety.StepSafe` | dmac.c:265-407 | every register write, request, acknowledge or reset keeps the controller's invariant |
| `DmacSafety.RunSafe` | dmac.c:559-1152 | over every run an active channel has neither ERR nor COC, load and transfer are 0 between calls, cp is in 0..3, dar within 24 bits |
| `DmacSafety.MarsFitUnlessContinued` | dmac.c:1442-1473 | mar stays within 24 bits at a step if and only if it is not the last operand of a continued block with base address 0x1000000 |
| `DmacSafety.EscapeReachable` | dmac.c:893-955 | from any state and with any memory, register writes and one request reach that case: an array chain at 0xfffffa started and aborted, then an unchained transfer continued |
| `DmacSafety.InterruptExact` | dmac.c:991-1059 | the vector asked for is the error or normal vector of the requesting channel of the smallest priority number, then channel number, or none, and IRQ 3 is raised once exactly when it is new |
| `DmacState.Winner` | dmac.c:998-1052 | the requesting channel before all others, or -1 if none requests |
| `DmacChain.AfterNext` | dmac.c:1442-1500 | one request takes a channel with blocks ahead one operand on, into the next block, or to the end |
| `DmacChain.RequestsAdvance` | dmac.c:1442-1500 | k requests leave the channel k operands on in the order of its blocks: addresses, counter, block; no operand may be stored over a descriptor still to be read, a condition on the registers and descriptors at the beginning |
| `DmacChain.MoveFrame` | dmac.c:1327-1438 | an operand changes only the bytes it is stored in |
| `DmacChain.ChainExact` | dmac.c:776-968 | an array chain or link array held in memory before the start is active for exactly the sum of the descriptor counts in operands and then has ACT=0, COC=1, ERR=0, under the same condition on the start |
| `DmacClear.AreaIs` | dmac.c:1452-1461 | the area n operands take is an interval from the start up, down to it, or one operand long |
| `DmacClear.DescriptorArea` | dmac.c:912-968 | a descriptor is six bytes of an array and ten of a link array |
| `DmacClear.TargetsClear` | dmac.c:1327-1458 | from a device to memory that condition is met when each block's area is apart from the descriptors read after it |
| `DmacClear.PortsClear` | dmac.c:1327-1458 | from memory to a device it is met when the device's addresses are apart from the descriptors |
| `DmacChain.NothingAfterEnd` | dmac.c:1140-1152 | requests to an inactive channel change nothing |
| `DmacMove.OperandMoves` | dmac.c:1327-1438 | one operand of any type and direction moves its bytes in order and changes nothing else |
| `DmacMove.MovedJoins` | dmac.c:35-55 | two adjacent transfers are one |
| `DmacMove.WholeTransfer` | dmac.c:1317-1500 | a whole unchained transfer moves memory byte i to or from device address dar + i*s, s=2 for 8-bit ports and 1 for 16-bit, for all size*count bytes and changes nothing else; then the channel has completed |
| `DmacMove.ChainMoves` | dmac.c:1317-1500 | the requests of a chain move the bytes of one block after the other, each to or from where the device address then stands |
| `DmacMove.WholeChain` | dmac.c:776-968 | the same from the start of a chain to its completion |
| `DmacMove.MovedDetermines` | dmac.c:35-55 | the byte mapping fixes memory, so it does not depend on the operand size |
| `DmacProgram.ControlBits` | dmac.c:559-619 | after any write of CCR, INT is its bit 3 and HLT its bit 5, whatever STR, CNT and SAB do |
| `DmacProgram.StatusBits` | dmac.c:621-684 | each one written to CSR clears its status bit and no other; ACT and PCS stay |
| `DmacProgram.DeviceFields` | dmac.c:409-462 | the fields of DCR from a byte built of them |
| `DmacProgram.OperationFields` | dmac.c:464-526 | the fields of OCR |
| `DmacProgram.SequenceFields` | dmac.c:528-557 | the fields of SCR |
| `DmacProgram.AddressWritten` | dmac.c:313-367 | three byte writes put a 24-bit address into MAR, DAR or BAR and change nothing else |
| `DmacProgram.CountWritten` | dmac.c:302-358 | two byte writes put a count into MTC or BTC |
| `DmacState.StartErrors` | dmac.c:782-809 | when a start is accepted, condition by condition, and which of the four errors it gets otherwise |
| `DmacProgram.TransferByControl` | dmac.c:559-619 | a channel set up for an unchained transfer and started by writing 0x88 to CCR moves all its bytes in mtc requests and then asks for its normal vector |
| `DmacProgram.ChainByControl` | dmac.c:559-619 | the same of array chains and link arrays, block by block |
| `DmacProgram.ProgramTransfers` | dmac.c:265-407 | a driver's whole program from any idle state: the bytes move between the addresses written and the interrupt is the vector written |
| `DmacProgram.DescriptorBytes` | dmac.c:912-968 | which bytes of a descriptor are address, count and link |
| `DmacProgram.ContinuedBlock` | dmac.c:1462-1473 | after the last operand of a continued block the base registers are the current ones and BOC is set |
| `DmacProgram.ErrorInterrupts` | dmac.c:970-989 | a failing channel with its interrupts on asks for its error vector |
| `DmacProgram.Causes` | dmac.c:1004-1040 | what makes a channel request, and nothing else does |
| `DmacProgram.AbortLaw` | dmac.c:893-910 | an abort completes an active channel with error 0x11 and only takes COC from another |
| `DmacProgram.ContinueLaw` | dmac.c:878-891 | CNT is a timing error on an idle channel, a configuration error in a chain, nothing at once otherwise |
| `DmacProgram.HaltedWaits` | dmac.c:1140-1152 | a halted, failed or idle channel answers no request |
| `DmacProgram.OddBase` | dmac.c:912-955 | an odd base address fails with an address error |
| `DmacProgram.PlainRegisters` | dmac.c:371-396 | the vector and priority registers are stored and nothing else |
| `DmacProgram.FunctionCodes` | dmac.c:371-396 | so are the function codes |
| `DmacProgram.BurstRegister` | dmac.c:686-703 | the burst register is channel 3's and sets all four |
| `DmacProgram.AfterReset` | dmac.c:705-774 | a reset leaves every channel idle, interrupts off, with vector 15 |
| `Dmac.Controller.Interrupt` | dmac.c:991-1059 | the nested loops find the first requesting channel and ask for its vector |
| `Dmac.FirstWins` | dmac.c:998-1004 | a requesting channel before every other requesting one is the winner |
| `Dmac.Controller.SetError` | dmac.c:970-989 | the channel fails with the code and interrupts are looked at |
| `Dmac.Controller.LoadBlock` | dmac.c:912-968 | the descriptor at an even base address is loaded, an odd one is an address error |
| `Dmac.Controller.StartChannel` | dmac.c:776-876 | the checks in order, then active, with the first block of a chain loaded |
| `Dmac.Controller.CheckStart` | dmac.c:782-809 | the first of timing, count and configuration error that applies |
| `Dmac.Controller.ContinueChannel` | dmac.c:878-891 | errors when inactive or chained |
| `Dmac.Controller.AbortChannel` | dmac.c:893-910 | an active channel completes with the abort error, an inactive one loses COC |
| `Dmac.Controller.MoveOperand` | dmac.c:1327-1434 | memory after the operand is the specified one for every type and direction |
| `Dmac.Controller.TransferOperand` | dmac.c:1317-1500 | operand, addresses, counter, then continue, next block or completion |
| `Dmac.Controller.Advance` | dmac.c:1452-1461 | the step tables give the addresses the operand size and count mode ask for, within 24 bits; the 32-bit counter goes down |
| `Dmac.Controller.RequestTransfer` | dmac.c:1140-1152 | a transfer exactly when active, not failed and not halted |
| `Dmac.Controller.WriteRegister` | dmac.c:265-407 | every register write of a channel, the timing errors of an active one included |
| `Dmac.Controller.WriteWordRegister` | dmac.c:133-149 | a word write is the high byte's write and then the low byte's |
| `Dmac.Controller.StoreRegister` | dmac.c:303-396 | the masks and shifts replace exactly the byte of the register the address names |
| `DmacState.SetByte24` | dmac.c:331-358 | one byte of a 24-bit address is replaced, the others stay and nothing is left above them |
| `Dmac.Controller.ResetOne` | dmac.c:705-774 | the channel record after a reset |
| `Dmac.Controller.PerformAll` | dmac.c:265-407 | any run of events on the controller in place is the run of the specification and keeps its invariant |
| `M68kLong.PartialProducts` | musashi/m68k_in.c:7398-7410 | four 16 by 16 products with 32-bit sums make the exact 64-bit product |
| `M68kLong.MullPair` | musashi/m68k_in.c:7388-7416 | the pair is the exact signed or unsigned product |
| `M68kLong.LowHalf` | musashi/m68k_in.c:7427-7435 | the code's V test says exactly whether the product fits 32 bits |
| `M68kLong.ExtensionFields` | musashi/m68k_in.c:7377-7384 | sign, size and both registers from an extension word built of them |
| `M68k.MsbIsSign` | musashi/m68kcpu.h:230 | the top bit of a register is its sign |
| `M68kLong.Mull` | musashi/m68k_in.c:7371-7438 | registers and all flags of both forms, V set exactly when the 32-bit result is not the product |
| `M68kLong.ShiftSubtract` | musashi/m68k_in.c:4680-4700 | two 32-step loops give quotient and remainder of a 64-bit dividend, the bit lost to the left included |
| `M68kLong.QuadDivide` | musashi/m68k_in.c:4642-4716 | quotient toward zero and remainder of the dividend's sign, or no result exactly when the quotient is too large for the code |
| `M68kLong.Divl` | musashi/m68k_in.c:4627-4763 | registers and flags of every form; V set with registers unchanged, and the trap on zero |
| `M68kLong.QuotientUnique` | musashi/m68k_in.c:4702-4716 | no other quotient and remainder satisfy the division law |
| `M68kLong.OverflowReported` | musashi/m68k_in.c:4702-4708 | V equals "does not fit" if and only if the quotient is not -2^31, but for 2^31 / -1 |
| `M68kLong.OverflowCounterexample` | musashi/m68k_in.c:4702-4708 | -2^32 / 2 fits and is reported as overflow |
| `M68kLong.LongQuotientFits` | musashi/m68k_in.c:4728-4757 | the 32-bit form's results are right in all cases but -2^31 / -1, which alone overflows |
| `M68kChain.AddLimbExact` | musashi/m68k_in.c:1579-1630 | one ADDX: sum, carry, N and V for bytes, words and longs |
| `M68kChain.SubLimbExact` | musashi/m68k_in.c:9807-9858 | one SUBX: difference, borrow, N and V |
| `M68kChain.AddDecimalExact` | musashi/m68k_in.c:1010-1033 | one ABCD on valid digits: valid digits, exact decimal sum and carry |
| `M68kChain.SubDecimalExact` | musashi/m68k_in.c:9179-9202 | one SBCD on valid digits: valid digits, exact decimal difference and borrow |
| `M68kChain.DecimalFlags` | musashi/m68k_in.c:1010-1033 | N and V of one decimal limb of any bytes |
| `M68kChain.AddAnyDigits` | musashi/m68k_in.c:1010-1033 | ABCD of any bytes: what invalid digits give |
| `M68kChain.SubAnyDigits` | musashi/m68k_in.c:9179-9202 | SBCD of any bytes |
| `M68kChain.ChainExact` | musashi/m68k_in.c:1579-1630 | n predecrement steps from any X leave the n-limb sum or difference, X and C its carry, Z kept exactly when it is zero, all other memory unchanged |
| `M68kChain.ChainFromClear` | musashi/m68k_in.c:9807-9858 | from X clear and Z set: result modulo the operand size, X is carry or borrow, Z tells zero, the source is intact |
| `M68kChain.ChainOverflow` | musashi/m68kcpu.h:640-665 | after a binary chain N is the sign and V the signed overflow of the whole operands |
| `M68kChain.MemoryForm` | musashi/m68k_in.c:1579-1630 | a handler is one step of the chain, or an address error with the registers it had lowered |
| `M68kChain.Repeat` | musashi/m68k_in.c:1579-1630 | n calls of a handler on aligned operands that do not overlap fault nowhere and are the chain of n steps |
| `M68kMemory.ReadLimb` | musashi/m68kcpu.h:1058-1074 | a big-endian read of 1, 2 or 4 bytes on 24 address lines |
| `M68kMemory.WriteLimb` | musashi/m68kcpu.h:1076-1092 | a big-endian write and nothing else |
| `M68kException.SrRoundTrip` | musashi/m68kcpu.h:1422-1443 | setting the status register that was read gives back all flags, with T0 and M clear |
| `M68kException.BitsOfSr` | musashi/m68kcpu.h:1414-1443 | which bit of the status register is which flag |
| `M68kException.MaskFields` | musashi/m68kcpu.h:1433-1443 | of a status register's fields the mask keeps T1, S, the interrupt mask and the condition codes |
| `M68kException.Entered` | musashi/m68kcpu.h:1472-1491 | entry pushes program counter and status register below the supervisor stack and banks the user stack pointer |
| `M68kException.Arrives` | musashi/m68kcpu.h:1738-1746 | TRAP #n goes through the long at 0x80 + 4n with the mask kept; an interrupt through 0x60 + 4 * level, 0x60 or the answered vector, through 0x3c when that is 0, with the mask its level; tracing is off |
| `M68kException.DroppedIff` | musashi/m68kcpu.h:1910-1934 | an interrupt is dropped exactly when halted or the answer is no vector |
| `M68kException.CheckIdle` | musashi/m68kcpu.h:1971-1975 | the check does nothing exactly when the mask holds the level back, or the interrupt is dropped outside a STOP |
| `M68kException.Returned` | musashi/m68k_in.c:8961-8982 | RTE on an intact frame restores program counter, masked status register and both stack pointers |
| `M68kException.FramesSurvive` | musashi/m68kcpu.h:1388-1411 | whatever is nested inside a handler, every live frame and the user stack pointer survive |
| `M68kException.ExceptionResumes` | musashi/m68kcpu.h:1738-1746 | one exception with any careful handler resumes what it interrupted |
| `M68kException.RunResumes` | musashi/m68kcpu.h:1898-1961 | any well-nested run of TRAPs and interrupts matched by RTEs restores program counter, masked status register and both stack pointers |
| `M68kException.PendingInterruptIsNext` | musashi/m68kcpu.h:1971-1975 | the interrupt RTE takes at once is the exception that follows it in a run |
| `M68kException.ExceptionTrapN` | musashi/m68kcpu.h:1738-1746 | the TRAP entry in place |
| `M68kException.ExceptionInterrupt` | musashi/m68kcpu.h:1898-1961 | the interrupt entry in place: vector, mask, uninitialized vector, and the two early returns |
| `M68kException.Rte` | musashi/m68k_in.c:8961-8982 | RTE in place, with the pending interrupt taken at once; nothing in user mode |
| `M68kOpcodes.SortedIsPhased` | musashi/m68kmake.c:802-810 | the generator's sort order puts the masks in the order of the builder's loops |
| `M68kOpcodes.EarlyIff` | musashi/m68kmake.c:802-810 | the masks of the first loop are those the generator sorts before ff00 |
| `M68kOpcodes.MostSpecificWins` | musashi/m68kmake.c:802-810 | the entry an opcode gets has no fewer mask bits than any other that matches |
| `M68kOpcodes.ScanIsLastMatch` | musashi/m68k_in.c:184-196 | the plain scan gives the last matching entry, or illegal |
| `M68kOpcodes.MemberMatches` | musashi/m68k_in.c:197-206 | the opcodes a one-field loop fills are distinct matches of the entry |
| `M68kOpcodes.MatchIsMember` | musashi/m68k_in.c:197-206 | and there are no others |
| `M68kOpcodes.FamilyAnd` | musashi/m68k_in.c:197-270 | what the six masks keep of an opcode |
| `M68kOpcodes.ShiftFields` | musashi/m68k_in.c:207-231 | an f1f8 entry gives shifts by an immediate distance two cycles a place more on the 68000 and 68010, 0 standing for eight, and every other opcode its own cycles |
| `M68kOpcodes.FillShifts` | musashi/m68k_in.c:207-231 | the two nested loops fill exactly the matching opcodes, the shift cycles added |
| `M68kOpcodes.BuildOpcodeTable` | musashi/m68k_in.c:166-270 | on any sorted table the phased loops give all 65536 opcodes what the plain scan gives: the last matching entry or illegal |
| `Okim6258.Chip.DataW` | okim6258.c:286-304 | a data write is an offer to a queue of seven that drops the newest byte when full |
| `Okim6258.Chip.CtrlW` | okim6258.c:306-326 | stop, play and record; a start of play discards what waits and takes its own byte |
| `Okim6258.Chip.Update` | okim6258.c:116-165 | samples and state are those of the queue played |
| `Okim6258.TakenInOrder` | okim6258.c:127-138 | the bytes taken are the front of the queue, in order |
| `Okim6258.LowNibbleFirst` | okim6258.c:124-155 | a byte plays as its low nibble and then its high one |
| `Okim6258Laws.StepLaw` | okim6258.c:100-105 | the low three bits 0 to 3 lower the step by one, 4 to 7 raise it by 2, 4, 6 and 8, within 0..48 |
| `Okim6258Laws.SignalLaw` | okim6258.c:83-98 | the signal is the difference and 245/256 of the one before, rounded down, within 12 bits |
| `Okim6258Laws.DecayLaw` | okim6258.c:148-150 | a starved signal loses a sixteenth, rounded toward zero |
| `Okim6258Laws.SevensRise` | okim6258.c:100-105 | k nibbles of full scale raise the step to min(48, step + 8k) |
| `Okim6258Laws.SmallFall` | okim6258.c:100-105 | k small nibbles lower it to max(0, step - k) |
| `Okim6258Laws.QueueIsHeard` | okim6258.c:116-165 | everything that waits is heard in order, two samples to the byte, low nibble first |
| `Okim6258Laws.FirstGap` | okim6258.c:135-153 | when the last byte has gone the last sample is repeated twice |
| `Okim6258Laws.StarvedFades` | okim6258.c:135-153 | and then the signal fades at every other sample |
| `Okim6258Laws.FirstSevenWait` | okim6258.c:286-304 | of any number of bytes offered the first ones wait, seven at most |
| `Okim6258Laws.ControlFields` | okim6258.c:306-326 | bit 0 stops, bit 1 plays, bit 2 records, and a stop overrides both |
| `Okim6258Laws.CommandIsHeard` | okim6258.c:225-326 | from a reset the command that starts to play is heard as the first byte, from signal -2 and step 0 |
| `Okim6258Laws.PlayAgain` | okim6258.c:306-326 | playing again keeps queue and signal and begins with a low nibble at step 0 |
| `Okim6258.RingPush` | okim6258.c:286-304 | the packed ring's push is the queue's, and full means seven |
| `Okim6258.RingPop` | okim6258.c:127-138 | the packed ring's pop is the queue's |
| `Okim6258.Chip.Run` | okim6258.c:225-326 | any run from reset is the run of a bounded queue: same queue, decoder, accepted and loaded bytes and mode, and the same samples put out |
| `Okim6258.Chip.Perform` | okim6258.c:116-326 | one data write, control write or update in place is the queue's command |
| `Okim6258.LoadedInOrder` | okim6258.c:225-326 | in any run the loaded bytes are the accepted bytes in order, but for at most seven still waiting; signal and step stay in range |
| `Vgm.DecodeAppend` | vgm.c:40-82 | reading a log goes on where it stopped |
| `Vgm.OtherCommands` | vgm.c:40-109 | no other first byte is a command the log uses |
| `Vgm.Logger.WriteWait` | vgm.c:40-72 | the bytes emitted for a wait read back as that wait, whatever its length |
| `Vgm.Logger.Write` | vgm.c:74-109 | the pending wait and then the write, at its time |
| `Vgm.NothingLost` | vgm.c:35-38 | logged time and pending wait add up to the total waited |
| `Vgm.WritesAtTheirTimes` | vgm.c:74-109 | the log holds exactly the writes, each at the samples waited before it |
| `Vgm.LogCalls` | vgm.c:35-113 | decoding the log of any calls gives back their writes at their times and the total wait |

## Left out

- Dmac.Controller.StartChannel: the temporary change of REQG around the call of `dmac_channel_auto` is not shown, because that function is empty (its body is disabled).
- Dmac.Controller.TransferOperand: memory is RAM of 24 address bits without the controller's own registers in it; an address outside it, where the program exits, and bus errors, which its memory functions never raise, are not modelled.
- Dmac register reads and the two debugging counters of a channel: simple read-back.
- Md5.HashChunks: `md5_stream` and `md5_buffer`, which only feed the same three calls, are not modelled.
- Md5.Context.ProcessBytes: takes the outcome of the pointer alignment test as a parameter.
- Ym2151.Chip.UpdateOne: channel 7, its noise output and clamp, panning, mixing and clipping of the output are not modelled; nor are the CSM request, which is never set, and the timer registers.
- YmTables.Tables: how the tables are computed in floating point; only their sizes and the one zero entry the reset relies on are used, and the noise waveform is any 256 bytes.
- M68kLong.Divl: the operand forms that fetch the divisor from memory, the zero-divide exception itself and the illegal-instruction branch of older processors.
- M68kChain.MemoryForm: byte operands on A7, whose separate handlers step by two, the register forms, and the address error exception itself.
- M68kException.Rte: the 68010 and 68020 frames, privilege violations, odd stack pointers and cycle counts; VBR is 0 and the master bit clear, as on the 68000.
- M68kException.RunResumes: an interrupt that RTE finds pending is the next exception of the run.
- M68kOpcodes.BuildOpcodeTable: the three cycle tables and the handler table are one array of records; the table text itself and how m68kmake expands it are not modelled. The conditions on the table are an entry of mask ff00 and no unknown mask after it.
- Okim6258.Chip.Update: pan masks, clocks and dividers; the difference table is any 49 by 16 numbers.
- Vgm.Logger.Write: the header, its patching and `total_samples`; pending waits are asked to fit the C int they are kept in.
- Files, drives, consoles, the DOS and IOCS calls, ordinary 68k instructions, the disassembler: effects of the host, or large and easy one at a time.
- The heap of v68human.c: its header accounting differs between its functions.
