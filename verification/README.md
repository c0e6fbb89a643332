# Verification of the FPGA NES

Dafny models and proofs for the NES on an FPGA and its host tool: the 6502 core, the picture unit, the serial
debug link, sprite DMA and the PPU register port. Each of them is a simple idea carried out by a complicated
machine; the proofs connect the two. `dafny verify dfyconfig.toml` checks the project.

**The 6502 core.** `Isa` says what one instruction does to registers, flags and memory. `CpuCore` is the
microcoded core of `cpu.v`: timing states T0 to T6, the decode ROM, the ALU with its hold register, and the
precharged internal buses, one cycle being the phase-2 latch followed by the phase-1 latch. `CpuDecode`,
`CpuSteps`, `CpuFinish`, `CpuImplied` and `CpuStack` follow single cycles; `CpuRefinement` puts them together for
all 256 opcode bytes, every state and every stream of interrupt requests, with exact cycle counts. `CpuUnit` is
the core updated in place. `Interrupts` adds the reset and NMI latches. `Emulator` is the instruction-level
emulator of the random test, with its own bit loops, and `RandomTest` the test itself. `Programs`,
`Instructions`, `Bubble16` and `SumArray` run assembled programs, on the instruction-level machine and through
the refinement on the core.

**The picture unit.** `Raster` is the order of pixels and lines. `Sprites` and `Background` are the two pixel
pipelines one NES pixel at a time: a pixel lasts eight clocks, and what is latched last in it counts.
`SpriteLines` and `BackgroundLines` prove whole lines and frames against direct lookups; `SpriteUnit` and
`BackgroundUnit` are the units updated in place.

**The debug link.** `Uart` and `UartLink` are the serial line, `Fifo` its buffers, `Packets` the host's packets,
`Hci` the state machine that serves them, `HciFraming` whole sessions, `HciBuffer` the reply path, `HciUnit` the
unit updated in place, `DebugPort` the CPU registers as the debugger sees them, `RomLoad` and `RomSender` loading
a ROM from the file to what the CPU and PPU read, `BlockMemory` the address map as a written block reads back, and
`HexText` the text form of packets. `DebugLink` wires ports, buffers and debug unit together. `LinkRoom` proves
when no buffer can overflow, `LinkProgress` and `LinkPace` when everything arrives, `LateSessions` which sessions
these are. `BaudLink` puts both directions on the ticks of the baud generator, where replies without memory reads need
no further condition. `Requests` is what the unit makes of a request with the CPU running or stopped, `Conversation`
a host that waits for each answer before it goes on, and `LinkSessions` follows sessions from the host's serial port
to memory and back. `HiddenReply` is a session that loses its last reply on ticks the generator does not give.

**DMA and the register port.** `SpriteDma` copies a page to sprite memory; `PpuPort` and `PpuPortUnit` are the
register port as a path to video memory. `StrayAccess` derives from `Sprites` when a picture line takes the video bus
from the port.

How the model is stated:

- Bytes and words are ranges of the integers and every wrap-around is written out. Memory is a sequence.
- The outputs of the decode ROM are grouped into enumerations, because in no cycle two lines of one group are
  raised together; the one exception, SAX, has a value of its own.
- The clocked blocks appear twice: as a step function, about which lemmas are proved, and as a class whose
  methods update its fields and are proved equal to the step function.
- A request is what the interrupt latches ask for; `SOFT` means none, so that a BRK is serviced as BRK.
- Bit tests in the emulator and in the packet header use the recursive `Bit`.

What the code does where its comments or its companion say otherwise:

- The sprite overflow flag is raised at eight objects on a line, not at more than eight.
- The sprite unit takes the video address bus while it fetches; a data access of the register port that begins
  then goes to the sprite's pattern address.
- Of the two video memories the one that answers is chosen by the address one clock later, when the port has
  already moved on: a data read at 0x1FFF gives a name table byte.
- A text of an odd number of digits and nothing else makes the parser store its last digit behind its buffer.
- A simultaneous read and write raises the buffer's empty flag with one byte left in it, or the full flag with
  one place free. A last reply that enters its buffer in the clock in which the one before leaves would
  never reach the host; on the ticks of the baud generator this does not happen to echoes and queries.
- Nothing answers at 0x4000 to 0x7FFF on the debug unit's bus: writes are lost and reads give zero.
- An NMI edge in cycle T6 of an NMI sequence is lost, because the acknowledgement has priority.
- HLT is a one-byte instruction that raises the break line and does nothing else; bytes that are no opcodes are
  one-byte instructions of seven cycles.
- LDX and LDY with absolute indexing always take the fix-up cycle, other indexed reads only across a page.
- JSR fetches the high byte of its target after it has pushed the return address.
- The emulator adds index registers without wrapping at 16 bits; the two agree below the end of its RAM.
- The serial link needs no spacing between ticks: what is said of it holds for every tick stream of either direction,
  unless the baud generator is named. Sender and receiver of one direction see the same ticks.
- sum_array with size 0 adds 256 bytes.

## Model

| member | source | states |
|---|---|---|
| `CpuRefinement.InstructionRefines` | hw/src/cpu/cpu.v:533-746 | from the start of any instruction or interrupt sequence, for every state, opcode byte and request stream, the microcoded core reaches the start of the next one after exactly the instruction's cycle count, not earlier, and shows what the instruction-level machine shows |
| `CpuRefinement.CoreRefines` | hw/src/cpu/cpu.v:960-2251 | over any number of cycles and any request stream, the last instruction boundary the core has passed is that of the instruction-level run |
| `CpuRefinement.FromOpcode` | hw/src/cpu/cpu.v:1044-1995 | every opcode other than BRK arrives with its instruction-level result, per addressing mode and page-cross case |
| `CpuRefinement.FromIndexed` | hw/src/cpu/cpu.v:570-660 | absolute indexed access, with the fix-up cycle exactly when a page is crossed or the instruction always takes it |
| `CpuRefinement.FromIndirectY` | hw/src/cpu/cpu.v:613-700 | indirect indexed access, with the fix-up cycle exactly when a page is crossed or the instruction always takes it |
| `CpuRefinement.FromBranch` | hw/src/cpu/cpu.v:555-648 | a branch takes 2, 3 or 4 cycles and ends at the signed 16-bit target or the next instruction |
| `CpuRefinement.FromCall` | hw/src/cpu/cpu.v:1106-1113 | JSR pushes the return address, fetches the high target byte afterwards and restores the stack pointer it has used as scratch |
| `CpuRefinement.FromReturn` | hw/src/cpu/cpu.v:1643-1653 | RTS and RTI pull PC (and status) and end with the stack pointer past what they pulled |
| `CpuRefinement.FromInterrupt` | hw/src/cpu/cpu.v:1965-1977 | BRK and every serviced request push PC and status, mask interrupts and load PC from the vector of the service |
| `CpuRefinement.FromIllegal` | hw/src/cpu/cpu.v:533-719 | a byte that is no opcode takes seven cycles and changes nothing but PC |
| `CpuRefinement.LatencyRange` | hw/src/cpu/cpu.v:546-719 | an instruction or sequence takes two to seven cycles, and which take seven |
| `CpuFinish.AluFinish` | hw/src/cpu/cpu.v:2003-2023 | the last cycle of an ALU instruction, overlapped with the next opcode fetch, leaves result, flags and PC of the instruction |
| `CpuFinish.OverflowIsSigned` | hw/src/cpu/cpu.v:2014-2023 | the overflow output is exactly: the signed sum does not fit a byte |
| `CpuFinish.RmwWriteBack` | hw/src/cpu/cpu.v:1704-1711 | a read-modify-write instruction writes back the modified byte and fetches the next opcode |
| `CpuCore.JoinIsAnd` | hw/src/cpu/cpu.v:2195-2216 | joining two precharged buses reads as the bitwise AND of what they carry |
| `Bytes.BitwiseBit` | hw/src/cpu/cpu.v:2005-2012 | every bit of a bytewise AND, OR or XOR is the operation on the two bits |
| `CpuUnit.Cpu.LatchPhase2` | hw/src/cpu/cpu.v:505-528 | the phase-2 registers, and memory on a write cycle, after their latch |
| `CpuUnit.Cpu.LatchPhase1` | hw/src/cpu/cpu.v:426-469 | all other registers after the phase-1 latch |
| `CpuUnit.Cpu.Clock` | hw/src/cpu/cpu.v:426-528 | one cycle in place: phase 2, then phase 1 |
| `CpuUnit.Cpu.Run` | hw/src/cpu/cpu.v:426-528 | a stream of cycles in place is the run the refinement is about |
| `Emulator.State.EmulateOperand` | sw/scripts/cpu_rand.lua:1863-2012 | one instruction of the emulator's table leaves registers and RAM as the instruction-level machine does |
| `Emulator.State.ExecuteAdc` | sw/scripts/cpu_rand.lua:120-166 | addition with carry: accumulator and C, Z, V, N |
| `Emulator.State.ExecuteSbc` | sw/scripts/cpu_rand.lua:1547-1592 | subtraction with borrow: accumulator and C, Z, V, N |
| `Emulator.ComputeResult` | sw/scripts/cpu_rand.lua:242-259 | the bit loop computes the bytewise AND, OR or XOR |
| `Emulator.State.StatusToPush` | sw/scripts/cpu_rand.lua:1305-1341 | the pushed status byte, with bits 4 and 5 set |
| `Emulator.State.StatusFromPull` | sw/scripts/cpu_rand.lua:1354-1410 | the six flags from a pulled byte, peeled bit by bit |
| `RandomTest.EmulateCode` | sw/scripts/cpu_rand.lua:2145-2150 | the emulation loop follows the machine to the HLT of any straight-line code whose operands stay in RAM |
| `RandomTest.TestPasses` | sw/scripts/cpu_rand.lua:2016-2043 | the core stops at the HLT with exactly the emulator's registers and RAM, and with PC behind the HLT |
| `Interrupts.SystemRefines` | hw/src/cpu/cpu.v:384-421 | core and edge latches together do one instruction or interrupt sequence of the platform, for any behaviour of the lines |
| `Interrupts.SystemFollows` | hw/src/cpu/cpu.v:721-746 | the same over any number of cycles |
| `Interrupts.NmiIsTakenNext` | hw/src/cpu/cpu.v:419-421 | NMI is serviced after an instruction if and only if it was pending or its line fell before the last cycle, and no reset is pending |
| `Interrupts.NmiIsTakenOnce` | hw/src/cpu/cpu.v:1965-1977 | the sequence pushes the address of the dropped instruction and the status with bit 4 clear and goes through FFFA; it is not repeated, and only an edge in its seventh cycle stays pending |
| `Interrupts.NmisArePaidFor` | hw/src/cpu/cpu.v:416-421 | over any run every NMI serviced or pending has a falling edge of its own |
| `Interrupts.InterruptThenReturn` | hw/src/cpu/cpu.v:1933-1940 | an interrupt whose handler is RTI restores PC, the stack pointer, all registers and flags, and changes three stack bytes only |
| `Interrupts.NmiThenReturn` | hw/src/cpu/cpu.v:1044-1053 | on the core, with the NMI line at any level: if no reset or IRQ request comes in the first seven cycles it is back at the dropped instruction after thirteen, and executes it then if and only if no request comes before the last cycle of RTI; NMI edges in the first six cycles are absorbed |
| `RegisterFile.StatusBit` | hw/src/cpu/cpu.v:2253-2254 | which flag each bit of the status byte holds |
| `Programs.CoreRuns` | hw/src/cpu/cpu.v:533-746 | without requests the core runs n instructions in exactly the sum of their cycle counts |
| `Programs.CallsReturn` | hw/src/cpu/cpu.v:1106-1113 | any well-nested tree of JSR/RTS and push/pull within the stack page whose pushed bytes are not overwritten comes back after each call with the stack pointer and the live stack bytes as before |
| `Programs.CoreCallsReturn` | hw/src/cpu/cpu.v:1816-1821 | the same for the core's own stack pointer register, although it holds address bytes inside calls |
| `Bubble16.Sorts` | sw/asm/bubble16.asm:19-70 | any list of two or more 16-bit elements is sorted ascending, unsigned, and a permutation, at the HLT, with nothing else changed but the flag byte and three stack bytes |
| `Bubble16.CoreSorts` | sw/asm/bubble16.asm:19-70 | the same on the microcoded core |
| `Bubble16.SweepRuns` | sw/asm/bubble16.asm:24-37 | one sweep does the abstract sweep and ends at HLT exactly if it exchanged nothing |
| `Bubble16.ExchangePair` | sw/asm/bubble16.asm:41-70 | the exchange through the stack swaps exactly two neighbours and sets the flag |
| `Sorting.ExchangeInversions` | sw/asm/bubble16.asm:41-63 | exchanging neighbours that are out of order removes exactly one inversion |
| `SumArray.Sums` | sw/asm/sum_array.asm:15-33 | for every size (0 meaning 256) and content the 16-bit total is the exact sum and nothing else has changed |
| `SpriteLines.SpritesMatch` | hw/src/ppu/ppu_spr.v:151-616 | what a line shows at every pixel is the first opaque of the first eight objects in OAM order that cross it, by direct lookup in the memories of the line before |
| `SpriteLines.FramesMatch` | hw/src/ppu/ppu_spr.v:346-616 | over any run of lines with any settings, every pixel of a line shows the objects chosen on the last line before it on which objects were evaluated, by direct lookup; with sprites off on the line it shows none |
| `SpriteLines.LinePrepares` | hw/src/ppu/ppu_spr.v:151-324 | evaluation and fetch leave exactly the chosen objects in the buffers, in order, then empty entries |
| `SpriteLines.LineRests` | hw/src/ppu/ppu_spr.v:185-200 | every line ends with the counter at zero and empty shift registers |
| `SpriteLines.PatternBit` | hw/src/ppu/ppu_spr.v:252-266 | the fetched, possibly mirrored pattern bits are those of the direct lookup, for both heights and both inversions |
| `SpriteLines.RangeIsCrossing` | hw/src/ppu/ppu_spr.v:161-162 | the truncated 9-bit comparison is exact on the lines where it is used |
| `SpriteLines.OverflowAtEight` | hw/src/ppu/ppu_spr.v:168-173 | the overflow flag after a line: kept within the frame, and raised exactly if eight or more objects cross |
| `SpriteLines.OverflowIsEarly` | hw/src/ppu/ppu_spr.v:173 | with exactly eight objects the flag is raised although its comment says more than eight |
| `SpriteLines.OverflowInFrame` | hw/src/ppu/ppu_spr.v:168-173 | from the start of a frame on the flag is up if and only if eight or more objects cross some evaluated line |
| `SpriteLines.OverflowExactUnlessEight` | hw/src/ppu/ppu_spr.v:168-173 | over a frame the flag tells of more than eight objects on some line exactly unless some line has eight and none has more |
| `SpriteUnit.Generator.Step` | hw/src/ppu/ppu_spr.v:164-616 | one pixel in place: new state and output |
| `SpriteUnit.Generator.Line` | hw/src/ppu/ppu_spr.v:164-616 | one line in place: new state and its 256 outputs |
| `BackgroundLines.BackgroundMatches` | hw/src/ppu/ppu_bg.v:239-320 | with the background on, every pixel of a line is the direct lookup at (h*256 + ht*8 + fh + x) mod 512 |
| `BackgroundLines.FrameMatches` | hw/src/ppu/ppu_bg.v:142-320 | over a whole frame, line v shows the plane v/2 lines below the vertical scroll position modulo 480, at every pixel |
| `BackgroundLines.LinePrefetches` | hw/src/ppu/ppu_bg.v:241-312 | the end of a line turns the counters and prefetches two tiles |
| `BackgroundLines.TileStep` | hw/src/ppu/ppu_bg.v:254-312 | eight pixels on, the tile of the upper register halves is in the lower ones and the tile under the counters in the upper |
| `BackgroundLines.TileIsLookup` | hw/src/ppu/ppu_bg.v:199-213 | a fetched tile with its attribute bits is the direct lookup |
| `BackgroundLines.RowsMove` | hw/src/ppu/ppu_bg.v:142-154 | k scanline increments keep the tile counter at most 29 and advance the position by k modulo 480 |
| `BackgroundUnit.Generator.Step` | hw/src/ppu/ppu_bg.v:115-320 | one pixel in place: new state and palette index |
| `BackgroundUnit.Generator.Line` | hw/src/ppu/ppu_bg.v:115-320 | one line in place: new state and its 256 palette indices |
| `UartLink.OnlyWhatWasSent` | hw/src/cmn/uart/uart_rx.v:87-167 | for any tick stream and any queueing, what has arrived is a prefix of what was queued, without parity error, and all of it once the buffer is empty |
| `UartLink.EverythingArrives` | hw/src/cmn/uart/uart_tx.v:87-173 | 178 ticks for each byte left are enough for everything to arrive, each byte once |
| `UartLink.WithinStep` | hw/src/cmn/uart/uart_rx.v:87-167 | one clock of a frame keeps sender, line registers, receiver and delivery in step |
| `UartLink.SampledBit` | hw/src/cmn/uart/uart_rx.v:123-143 | the level the receiver samples is that of the bit it takes it for |
| `Uart.Transmitter.Step` | hw/src/cmn/uart/uart_tx.v:63-173 | one clock of the transmitter in place |
| `Uart.Receiver.Step` | hw/src/cmn/uart/uart_rx.v:63-167 | one clock of the receiver in place |
| `Fifo.OrderKept` | hw/src/cmn/fifo/fifo.v:60-108 | for every run what is read is a prefix of what was accepted, the rest is held in order, and the flags are right up to one entry and never both up |
| `Fifo.StepHolds` | hw/src/cmn/fifo/fifo.v:79-104 | one clock takes the front and appends at the end |
| `Fifo.StaysExact` | hw/src/cmn/fifo/fifo.v:96-103 | exact flags stay exact if and only if a read and a write are not accepted together with one entry or one free place |
| `Fifo.EmptyTooEarly` | hw/src/cmn/fifo/fifo.v:96-97 | from reset, one write and then a read and a write together leave the empty flag up with one byte held |
| `Fifo.FullTooEarly` | hw/src/cmn/fifo/fifo.v:102-103 | from reset, writes up to one free place and then a read and a write together leave the full flag up with one place free |
| `Fifo.EarlyEmptyEnds` | hw/src/cmn/fifo/fifo.v:96-97 | a byte hidden by an early empty flag comes out after the next accepted write, not before |
| `Fifo.Buffer.Clock` | hw/src/cmn/fifo/fifo.v:60-108 | one clock in place: front, contents and flags |
| `Packets.SizeIsLength` | sw/src/dbgpacket.cpp:166-479 | the host sends exactly the bytes of each packet |
| `Packets.BuildMemWr` | sw/src/dbgpacket.cpp:219-234 | the buffer of a memory write packet |
| `Packets.BuildEcho` | sw/src/dbgpacket.cpp:146-160 | the buffer of an echo packet |
| `HciFraming.PacketServed` | hw/src/hci/hci.v:210-645 | every well-formed packet is consumed to its last byte and no further, has its effect with 16-bit address wrap, and is answered; only then is the unit between packets again |
| `HciFraming.SessionCompletes` | hw/src/hci/hci.v:187-645 | any sequence of packets with any gaps ends between packets with all effects and replies in order |
| `HciFraming.GapsDoNotMatter` | hw/src/hci/hci.v:161-645 | at every clock the unit is somewhere on its run without gaps |
| `HciFraming.ExpectedIsReply` | sw/src/dbgpacket.cpp:176-443 | the host waits for exactly as many bytes as the reply has |
| `HciBuffer.ReadsDeliver` | hw/src/hci/hci.v:326-515 | a CPU or PPU memory read hands over exactly its bytes in address order and each gets into the transmit buffer, however slowly it drains and whatever else the host has sent |
| `HciBuffer.SessionDelivers` | hw/src/hci/hci.v:187-645 | over a whole session what has been drained, is buffered and is on its way is a prefix of the replies, and all of them at the end, as long as blind replies find room |
| `HciBuffer.StepKeeps` | hw/src/hci/hci.v:273-349 | after a clock every reply byte is accounted for if and only if a reply that ignores the full flag finds room |
| `HciBuffer.UnheardIsLost` | hw/src/hci/hci.v:273-288 | otherwise that reply is offered to a buffer that does not take it |
| `HciBuffer.ThreePlacesAreEnough` | hw/src/hci/hci.v:273-288 | three free places are enough for such a reply |
| `HciBuffer.NoReplyLost` | hw/src/hci/hci.v:317-515 | over a run in which blind replies find room no reply byte is offered to a full buffer |
| `HciUnit.DebugUnit.Clock` | hw/src/hci/hci.v:118-648 | one clock of the debug unit in place |
| `DebugPort.PcWritten` | hw/src/cpu/cpu.v:489-527 | after both halves of PC are written the stopped core is about to fetch there, in whatever state it was stopped |
| `DebugPort.WriteThenRead` | hw/src/cpu/cpu.v:477-497 | what reads back after a register write; the stack pointer keeps its value |
| `RomLoad.RomLoads` | sw/src/nesdbg.cpp:263-335 | loading a ROM over the link from the running or stopped state leaves the program and character bytes where CPU and PPU read them, PC at the word at FFFC, and the CPU running |
| `RomLoad.StartsRom` | hw/src/cpu/cpu.v:489-527 | with a memory that shows what its bus does, the core is one cycle later at the start of the instruction at the reset vector of the file |
| `RomLoad.ProgramCell` | hw/src/cart/cart.v:70-72 | the program memory address: one bank appears twice, two banks once |
| `RomSender.SendRom` | sw/src/nesdbg.cpp:215-335 | the host's checks, and the bytes it sends for an accepted file |
| `RomSender.SendPrg` | sw/src/nesdbg.cpp:285-301 | the loop over program blocks |
| `RomSender.SendChr` | sw/src/nesdbg.cpp:303-319 | the loop over character blocks |
| `HexText.Print` | sw/src/nesdbg.cpp:425-440 | the printed text of a byte sequence |
| `HexText.Parse` | sw/src/dbgpacket.cpp:58-106 | a text is accepted exactly if it is blanks and an even number of hexadecimal digits, and gives the bytes they pack to; a digit is stored behind the raw buffer if and only if the text is an odd number of digits and nothing else |
| `HexText.OneDigitOverruns` | sw/src/dbgpacket.cpp:62 | the text A is such a text |
| `HexText.PrintedNibbles` | sw/src/nesdbg.cpp:425-440 | the digits of printed bytes are two to a byte and pack back to the bytes |
| `HexText.RoundTrip` | sw/src/dbgpacket.cpp:58-101 | parsing what was printed gives the bytes back |
| `DebugLink.StepKeeps` | hw/src/cmn/uart/uart.v:74-152 | one clock of host port, wires, receive buffer, debug unit and transmit buffer loses, repeats and reorders nothing unless a buffer has to refuse a byte |
| `DebugLink.LinkFollows` | hw/src/hci/hci.v:139-645 | from any state at rest (idle ports, empty buffers, the unit between packets or the CPU running), for any ticks and any spacing, as long as neither buffer refuses a byte, the unit is on the run it would make with all the host's bytes at hand, what the host has received is a prefix of its replies, and no parity error is seen |
| `LinkProgress.SettlesAgain` | hw/src/cmn/uart/uart.v:74-152 | when everything sent has been taken and everything owed has been received, the link is at rest again |
| `LinkRoom.LateFits` | hw/src/hci/hci.v:187-645 | if the unit says nothing before it has taken the host's last byte, neither buffer has to refuse a byte in any run |
| `LinkProgress.LinkDelivers` | hw/src/cmn/uart/uart.v:74-152 | while the buffers refuse and hide nothing, 178 ticks for each byte of the host and then time for the unit's work and 178 ticks for each reply byte bring the unit to the end of its run without gaps, the host has exactly its replies, and the link is at rest again if the unit is between packets |
| `LinkPace.LateVisible` | hw/src/hci/hci.v:317-515 | if the replies come after the host's last byte and are one byte at most or all from a memory read, no buffer refuses or hides a byte in any run |
| `LinkSessions.AnswersInOrder` | sw/src/dbgpacket.cpp:146-479 | while no buffer refuses a byte, what the host has received is at any time a prefix of the replies to its packets |
| `LinkSessions.AnswersArrive` | hw/src/cmn/uart/uart.v:74-152 | with ticks enough, the host has received exactly all replies and every packet has had its effect, if no buffer refuses a byte and none enters a buffer in the clock in which its only byte leaves |
| `BaudLink.BaudVisible` | hw/src/cmn/uart/uart_baud_clk.v:41-57 | on the ticks of the baud generator, one for both directions every 162 clocks, no buffer refuses or hides a byte in any run in which the unit reads no memory, however many echoes and queries it answers |
| `BaudLink.LoadStays` | hw/src/cmn/uart/uart.v:74-152 | at every clock of such a run the replies still to be sent fit into the time the host's frame leaves |
| `LinkSessions.AnswersOnTheBeat` | hw/src/hci/hci.v:187-349 | on the baud generator's ticks all replies of a session without memory reads arrive, with ticks enough and no condition on the signals; an echo of any length comes back whole |
| `Requests.RequestEnds` | hw/src/hci/hci.v:187-260 | where a request ends, with the CPU running (only a halt packet or a halt query is heard) or stopped: all bytes taken, the effects of its packets, its answer, and whether the CPU runs |
| `Conversation.RequestServed` | hw/src/hci/hci.v:187-645 | one request from any state at rest, running or stopped, with ticks enough: its whole answer and nothing else arrives, its effects are done, and the link is at rest again; either its answer comes last or, on the baud generator's ticks, it reads no memory |
| `Conversation.Converses` | sw/src/nesdbg.cpp:414-421 | a host that waits for each answer before the next request gets every answer whole over any number of requests, whatever the CPU does while it runs in between, and all their effects are done |
| `LinkSessions.ConnectsAndLoads` | sw/src/serialcomm.cpp:135-151 | the connection echo comes back whole on the baud generator's ticks, and the ROM loaded after it is in place and runs |
| `LinkSessions.AnswerArrives` | hw/src/hci/hci.v:187-645 | after any packets without a reply, the whole answer to one memory read, register read or halt query arrives, whatever the tick streams of the two directions, with ticks enough and no condition on the buffers |
| `HiddenReply.LastReplyHidden` | hw/src/cmn/fifo/fifo.v:96-97 | among all tick streams there is a run of two halt queries in which no buffer refuses a byte and the host gets one answer and, however long it waits, never the other |
| `LinkSessions.AnswerMeansDone` | hw/src/hci/hci.v:187-645 | while no buffer refuses a byte: once the host has a byte of the answer to the last packet, every packet before it has had its effect and nothing else has |
| `LinkSessions.WrittenComesBack` | hw/src/hci/hci.v:317-389 | a block outside the PPU registers written and read back over the wire, with ticks enough and no condition on the buffers: the host receives as many bytes as it wrote, and the same if and only if the bytes for unmapped addresses are zero and those for addresses of one cell agree |
| `LinkSessions.UnmappedComesBackZero` | hw/src/nes_top.v:241-247 | a byte written to 0x5000 over the wire comes back as zero |
| `LinkSessions.RomOverTheWire` | sw/src/nesdbg.cpp:263-335 | the loader's packets over the wire to the running or stopped CPU, after any other traffic: after ticks enough and the clocks of the unit's work the CPU runs, with the ROM in place and PC at its reset vector, and the link is at rest; no condition on the buffers |
| `BlockMemory.ReadsBackIf` | hw/src/nes_top.v:125-142 | a block outside the PPU registers written and read by the debug unit reads back if and only if the bytes for unmapped addresses are zero and those for addresses of one cell agree |
| `BlockMemory.UnmappedIsLost` | hw/src/nes_top.v:241-247 | 0xFF written at 0x5000 reads back as zero |
| `SpriteDma.PageCopied` | hw/src/cpu/sprdma.v:71-128 | one held write of a page outside the register port causes one transfer of 768 active clocks: 256 bytes from the sprite pointer on, the pointer back where it was, ready again when the write ends |
| `SpriteDma.CopiesOne` | hw/src/cpu/sprdma.v:92-121 | three clocks copy one byte through the register port |
| `SpriteDma.Unit.Clock` | hw/src/cpu/sprdma.v:50-128 | one clock of the DMA unit in place, with the bus it drives |
| `PpuPort.AccessActsOnce` | hw/src/ppu/ppu_ri.v:218-219 | an access acts once however long the port stays selected, and only the first two clocks of the sprite unit's bus use matter |
| `PpuPort.AccessesAct` | hw/src/ppu/ppu_ri.v:170-320 | a program of accesses has their effects one after the other, whatever the lengths and gaps, with the sprite unit off the bus in the clock a data access begins in and, for reads, the next |
| `PpuPort.WriteReaches` | hw/src/ppu/ppu.v:259 | a data write goes to the cell of the port's address if and only if the sprite unit is off the bus in that clock or fetches from that address |
| `StrayAccess.BusInLine` | hw/src/ppu/ppu_spr.v:248-310 | pixels 256 to 319 of an evaluated line are eight for each of eight entries; the sprite unit is on the video bus in the first four of an entry if and only if an object was chosen for it, with that object's pattern address |
| `StrayAccess.WriteGoesAstray` | hw/src/ppu/ppu.v:259 | on a line before one that an object crosses, a data write to the name tables that begins in pixel 256 changes the first chosen object's pattern byte and not its own cell |
| `StrayAccess.ReadGoesAstray` | hw/src/ppu/ppu.v:259 | a data read from the name tables in that pixel fetches the first chosen object's pattern byte and not its own cell |
| `PpuPort.ReadReaches` | hw/src/ppu/ppu.v:259 | a data read fetches the cell of the port's address if and only if the bus had an address of the same cell and is in the same memory one clock later |
| `PpuPort.AddressSet` | hw/src/ppu/ppu_ri.v:289-307 | two writes set the 14-bit address |
| `PpuPort.WritesLand` | hw/src/ppu/ppu_ri.v:308-317 | data write k goes to the cell of start + k*step, step 1 or 32; of several writes to one cell the last stays, and other cells keep their bytes |
| `PpuPort.ReadsFollow` | hw/src/ppu/ppu_ri.v:234-239 | every read gives what the one before fetched |
| `PpuPort.ReadsHomeUnlessCrossing` | hw/src/cart/cart.v:87-90 | a read fetches the byte at its address if and only if the address does not step into the other memory behind it |
| `PpuPort.RoundTrip` | hw/src/ppu/ppu_bg.v:125-139 | written data reads back in order after one stale byte, below the palette, unless a later write went to a mirror of the address or the address steps from pattern memory into the name tables |
| `PpuPort.LastPatternByte` | hw/src/cart/cart.v:87-90 | the byte written at 0x1FFF does not read back: a name table byte does |
| `PpuPort.RoundTripInClocks` | hw/src/ppu/ppu_ri.v:170-320 | the round trip clock by clock |
| `PpuPortUnit.RegisterPort.Clock` | hw/src/ppu/ppu_ri.v:112-320 | one clock of the port in place |

## Left out

- CpuCore: clock-phase behaviour while `rdy` is low, and the debugger's writes in the middle of a cycle, beyond what `DebugPort` says about the stopped core.
- CpuCore: the IRQ line is not masked by the I flag in the source (it is tied off), and is not masked here.
- CpuCore: reset brings the core up in T1 of a NOP; the model has that state but no property of the reset sequence beyond the interrupt it services.
- Emulator: the random code generators and the Lua bindings; any straight-line code with operands in RAM is covered.
- bubble8.asm and jp.asm: bubble8 is the easier relative of bubble16; jp reads the joypad.
- Bubble16.Sorts: the program is given as a listing of decoded instructions at 0x8000; the list has an even byte count of at least 4 and overlaps nothing the program uses.
- Sprites: clocks within a pixel, and register or memory changes in the middle of a line.
- Background: register accesses that move the scroll counters while the picture is drawn, and control changes in the middle of a line.
- The final multiplexer of sprite and background pixels, sprite-0 hit, palette RAM colours, VGA timing and colours: small tables and counters.
- UartLink: no parity, even parity and two stop bits; the debug link uses odd parity and one stop bit.
- DebugLink.LinkFollows: how a host that sends on before it has its answers keeps the buffers from refusing a byte; with all replies after its last byte they never do (`LinkRoom.LateFits`).
- LinkSessions.AnswersArrive: a session that has several answers and reads memory needs its condition on the signals; with the requests sent one by one it needs none (`Conversation.Converses`), and without memory reads none on the baud generator's ticks (`LinkSessions.AnswersOnTheBeat`).
- UartLink: a sender whose ticks drift against the receiver's.
- Fifo: what simulation does with the array before the first write; the array starts with any contents.
- Hci: the PPU registers at 0x2000 to 0x3FFF behave as plain memory cells, so reads with side effects are not modelled; results about memory that reads back exclude these addresses.
- Hci: the break request from the CPU, and what the CPU does to memory while the unit is disabled; the results hold for any memory at the time the unit is active.
- DebugPort: register selectors above 6 read as zero, where the source leaves them undefined.
- HexText.Parse: the outcome ends at a store behind the buffer, whose effect is undefined; building packet objects from the raw bytes is not modelled.
- RomSender: file access, message boxes and the progress bar; a file is the whole 1 MB buffer it is read into.
- SpriteDma.PageCopied: pages 0x20 to 0x3F are the register port itself, and pages 0x40 to 0x7F are not memory.
- SpriteDma: the part of the register port that does not touch sprite memory.
- PpuPort: palette RAM reads and writes are in the model but no result is stated about them; what the status flags and sprite memory read as is an input.
- PpuPort.RoundTrip: the background is off; when the sprite unit takes the bus is an input; `StrayAccess` derives it from `Sprites` pixel by pixel, not clock by clock.
- APU, joypad shifter, mixer tables, Win32 dialogs and serial calls.
