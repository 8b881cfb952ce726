# Camera, PCIe DMA and plate reader: a Dafny model

This project models the parts of the repository that move one video frame from an FPGA into host
memory and read a number plate from it, and proves what they promise. `dafny verify dfyconfig.toml`
checks everything.

Three parts, each built from the source's own state:

* **The FPGA DMA engine**, `pcie_dma_ctrl.v`. One synchronous step (`DmaEngine`), the clocked object
  with one method per always block (`DmaController`), the inductive invariant of all blocks
  (`DmaInvariant`), the history of accepted beats and write TLPs (`DmaHistory`), the results over all
  runs (`DmaTheorems`), register reads and their completions (`DmaReads`), the engine in front of its
  FIFO (`DmaFifo`), the way of a frame's bytes from there into memory (`DmaDelivery`), runs from reset
  to a START or to a frame under way (`DmaScenario`, `FifoScenario`), how many cycles a TLP and a frame
  take from there to DONE (`DmaProgress`), and runs in which the engine misbehaves (`DmaExamples`,
  `DmaStall`).
* **The Linux drivers.** The single-buffer driver (protocol 0x0A) runs on the modelled engine: every
  register access is a stretch of engine cycles under arbitrary inputs (`Board`, `SingleDriver`). The
  four-buffer ring driver (protocol 0x0B) runs on an FPGA of which only what the driver relies on is
  fixed (`RingFpga`, `RingDriver`), and the user program's `read_full` runs on the ring driver with
  other callers interleaved (`FrameReader`). `DriverLog` holds the discipline of register writes that
  both drivers keep, as a property of the log of what they did.
* **The plate reader**, `test/infer_rknn_plate.py`: grammar and CTC collapse (`PlateGrammar`, `Ctc`),
  the constrained beam search (`BeamSearch`, `Solvability`), province trial, type fallback, selection
  and correction (`PlateDecode`, `PlateSelect`), suppression (`Nms`), letterbox and DFL geometry
  (`Letterbox`) and the whole of `postprocess_yolo` (`Detect`).

`Words`, `Runs`, `Ranking`, `Reals` and `HostMemory` hold byte reversal and status bits, induction over
runs of a deterministic machine, ordering by score, the smaller and larger of two reals, and host
memory as a map from bus addresses to bytes.

## What the environment is assumed to do

* `pcie_dma_enable` implies link up (ddr_test_top.v:1070-1071). Commands are decoded at least two
  cycles apart; this is proved (the invariant's `Decoder` part), not assumed.
* The single-buffer driver's board keeps TREADY high in the first cycle of the HEADER state, holds no
  reset after power-up, loses no posted register write, even while the link is down, and answers a
  register read either with the captured value or with all ones, as `Probe.came` says; whether a
  completion leaves the engine whole is `DmaReads.CompletionWhole`.
* The FIFO results assume that TREADY is high when the engine needs it, from the HEADER state to the
  fourth payload word; `DmaFifo.InStepExactly` shows that nothing less would do.
* The ring FPGA writes memory only while a START it took is running with Bus Master on, and only in
  the frame at its active address; it never shows DONE or STOP_ACK over a running transfer; a status
  word of the right version shows its next buffer index; its length register holds 0 or the frame
  size. `dma_alloc_coherent` never returns a block that overlaps an outstanding one.
* Scores and coordinates are real numbers. `exp` and `log` are parameters: DFL needs `exp` positive,
  and two results (`SoftmaxMean`, `CombinedRanks`) name the laws of the exponential that they use;
  nothing else is assumed of either.

## Where the code does not do what one would expect

Each of these has its exact condition; those of the engine and of the selection also come with a
concrete input at which they happen.

* **Race at the rise of `rc_cfg_ep_flag`** (pcie_dma_ctrl.v:434-490 with 577-587). An ARM, or a START
  for another address, accepted at the very edge at which the flag rises for an earlier START breaks
  the address invariant. `InvariantBreaksExactlyOnRace` shows this is the only edge that does.
  `RaceIsReachable` reaches it from reset with ordinary writes, and five legal edges later a request
  header for the old address is on offer while the active address is 0; with the active length 0
  the last TLP is never recognised. `HeldRunsAreLegal` and `OrderlyHostIsLegal` give two checkable
  conditions that exclude it: DMA enable held from START on, or no ARM and START while a START is
  pending. The single-buffer driver meets the second.
* **A header can be accepted twice** (pcie_dma_ctrl.v:761-784): exactly when TREADY is low in the first
  HEADER cycle (`BeatsOfFrameTlp`). `ReadyEntriesNeverStall` shows that otherwise it never happens,
  `StallGarbles` that it does happen.
* **BYTES_SENT misses a TLP** exactly when a STOP, an ARM, an address 0, or a non-zero START of an armed
  engine is decoded in its TLAST cycle (`PreemptedExactly`). `BytesTrueExactly` says so over whole runs,
  and `TlpIsMissed` gives a run.
* **A stalled link skips FIFO words** (pcie_dma_ctrl.v:786-826): TREADY low in the HEADER state, or in
  DATA before the fourth word is loaded. Over every run that no reset or loss of DMA enable cuts short,
  each payload beat was loaded from its own place and the FIFO never read empty exactly when there was
  no such cycle (`InStepExactly`); stalls between TLPs and with TLAST on offer are harmless. In
  `StallGarbles` a single stalled cycle makes the first TLP carry words 1 to 4.
* **DONE waits for a word beyond the frame** (pcie_dma_ctrl.v:612-616). The first word is fetched ahead,
  and a TLP waits for four words in the FIFO although it needs three more: at DONE exactly 259201
  words have been read (`DoneNeedsNextWord`), so a FIFO that gets only the frame's 259200 stops before
  the last TLP. Given that word, the frame is finished (`FrameTakes`, `DoneIsReachable`).
* **A completion can lose or repeat a beat** (pcie_dma_ctrl.v:655-735): the machine does not wait for its
  beats to be taken. The host gets one header and one data beat exactly when TREADY is the same in
  the first cycle of the HEADER state, the first of the DATA state and the first after it
  (`CompletionWhole`).
* **Letterbox fails for very elongated images**: the short side rounds to zero exactly when the long
  side is at least 1280 times as long (`LetterboxExactly`).
* **Attempt order can decide the result**, though the comment at test/infer_rknn_plate.py:893-901 says
  that it affects only the debug output. It is without influence exactly when no other candidate of
  the pool in use reaches the top selection score (`OrderMattersExactly`). In `OrderCanDecide` the same
  reading as blue and as yellow ties, and the one tried first is returned.
* **`readback_byteswap=1` can never see a frame**: a frame is accepted exactly when the poll saw it done
  and the three progress registers were answered, with the swap off, while the engine still showed it
  done at the buffer's address (`SingleDriver.Device.WaitFrame`); the frame size is no byte palindrome
  (`LengthReadBack`).

## Model

| member | source | states |
|---|---|---|
| Words.SwabInvolution | camara_host_computer/Colorbar_image/driver/colorbar_pcie_driver.c:330-349 | swapping the bytes of a 32-bit word twice gives the word back |
| Words.SwabReversesBytes | pcie_dma_ctrl.v:151-152 | byte k of the swapped word is byte 3-k |
| Words.PackBit | pcie_dma_ctrl.v:849-866 | bit k of the concatenated status word is the k-th flag |
| DmaController.PcieDmaCtrl.Clock | pcie_dma_ctrl.v:187-912 | one edge of all always blocks, each with its own assignments, is the synchronous step; a legal edge keeps the object valid, so that any header on offer lies in its slot of the active range and DONE means the whole frame, each byte written once, and a resting engine |
| DmaController.PcieDmaCtrl.HostDecoder | pcie_dma_ctrl.v:389-518 | the decoder block's assignments in priority order give the decoder's next-state equation |
| DmaController.PcieDmaCtrl.TransferControl | pcie_dma_ctrl.v:577-618 | last assignment wins gives the transfer flags' equations; that they make every TLP of a frame start is DmaProgress.FrameTakes |
| DmaController.PcieDmaCtrl.OutputRegisters | pcie_dma_ctrl.v:685-842 | the output block's branches give the output registers' equations |
| DmaInvariant.RegsOkStep | pcie_dma_ctrl.v:389-912 | every edge without the race keeps the invariant of all five blocks |
| DmaInvariant.PositionStep | pcie_dma_ctrl.v:707-816 | during a frame the running address stays active address + 64 * TLP count, count below 64800 |
| DmaInvariant.StopFlagsStep | pcie_dma_ctrl.v:415-433 | stop acknowledgement excludes arm, start, done and a pending stop, and no payload is on offer |
| DmaHistory.HistoryOkStep | pcie_dma_ctrl.v:742-912 | every edge keeps the history's agreement with the registers: beats under way, frame so far, counts |
| DmaHistory.RunIsGood | pcie_dma_ctrl.v:187-912 | after every legal run from reset the invariant and the agreement with the history hold |
| DmaTheorems.HeadersStayInside | pcie_dma_ctrl.v:742-784 | every header ever offered is a well-formed 32-bit write of 64 aligned bytes, all of them enabled, at active address + 64n, n below 64800, inside the validated range, below 4 GB and within one 4 KB page |
| DmaTheorems.TilesWriteOnce | pcie_dma_ctrl.v:811-817 | a list of TLPs that tiles from a base writes each byte of its range exactly once and no other byte |
| DmaTheorems.DoneMeansWholeFrame | pcie_dma_ctrl.v:491-499 | DONE: since rc_cfg_ep_flag last rose exactly 64800 TLPs tiled the frame in order, each byte once, and the engine is quiescent |
| DmaTheorems.BytesSentExactly | pcie_dma_ctrl.v:457-499 | BYTES_SENT is 64 times the TLPs accepted since it was cleared less those missed, in 32-bit arithmetic, and never more than was sent |
| DmaTheorems.PreemptedExactly | pcie_dma_ctrl.v:415-499 | in a TLAST cycle the TLP goes uncounted if and only if a STOP, an ARM, an address 0, or a non-zero START of an armed engine is being decoded |
| DmaTheorems.BytesTrueExactly | pcie_dma_ctrl.v:491-499 | over every legal run from reset, BYTES_SENT equals the bytes accepted after every edge if and only if no TLAST cycle was so preempted; then a finished frame under held DMA enable reports 4147200 |
| DmaExamples.TlpIsMissed | pcie_dma_ctrl.v:428-433 | for every address at which a frame fits, a run from reset: STOP is decoded in the TLAST cycle of the first TLP, 64 bytes are accepted and BYTES_SENT stays 0 |
| DmaTheorems.ReadsChangeNothing | pcie_dma_ctrl.v:621-653 | decoding a register read changes neither the command decoder nor transfer control |
| DmaTheorems.BeatsOfFrameTlp | pcie_dma_ctrl.v:761-834 | whatever the stalls, a TLP is its header, once or exactly if stalled on entry twice, then four payload beats with TLAST on the fourth only |
| DmaTheorems.ReadyEntriesNeverStall | pcie_dma_ctrl.v:761-784 | with TREADY high on entry to HEADER no TLP ever has its header twice |
| DmaTheorems.OnlyBusMasterLossCuts | pcie_dma_ctrl.v:870-912 | an offered TLP stays on offer until its TLAST exactly as long as DMA enable and reset hold; STOP never cuts it |
| DmaTheorems.StopAckMeansStopped | pcie_dma_ctrl.v:415-433 | STOP_ACK implies not armed, not started, not done, address and length cleared, and no write beat on offer |
| DmaTheorems.QuietAfterStopAck | pcie_dma_ctrl.v:415-490 | after STOP_ACK a write beat is offered again only after an ARM with the magic to an idle engine and then a non-zero START to an armed idle engine with a range that fits, both accepted |
| DmaTheorems.ArmBefore | pcie_dma_ctrl.v:434-490 | an accepted START after an unarmed state has an accepted ARM with the magic before it |
| DmaTheorems.ParkedRun | pcie_dma_ctrl.v:577-587 | without an accepted START a parked engine stays parked |
| DmaTheorems.UnarmedRun | pcie_dma_ctrl.v:434-456 | without an accepted ARM an unarmed engine stays unarmed |
| DmaTheorems.RefusedArmDisarms | pcie_dma_ctrl.v:451-455 | after an ARM write that is not taken no START is accepted before an ARM with the magic is |
| DmaTheorems.FaultsSinceClear | pcie_dma_ctrl.v:520-531 | from an edge that clears them on, the sticky bits say exactly whether the FIFO was read while empty, and whether FULL met a frame being captured |
| DmaTheorems.CaptureExactly | pcie_dma_ctrl.v:589-607 | while a frame is under way it is being captured exactly until the vertical sync next rises |
| DmaTheorems.FullIsSeen | pcie_dma_ctrl.v:225-233 | FULL reaches the fault logic two edges after the FIFO showed it |
| DmaTheorems.MachinesExclude | pcie_dma_ctrl.v:655-682 | the MWr and CplD machines are never both busy, and a completion's TLAST is never counted as a write's |
| DmaTheorems.InvariantBreaksExactlyOnRace | pcie_dma_ctrl.v:434-490 | an edge breaks the register invariant if and only if an ARM, or a START for another address, meets the rise of rc_cfg_ep_flag |
| DmaTheorems.HeldRunsAreLegal | pcie_dma_ctrl.v:577-587 | holding DMA enable from START on excludes that edge in every run |
| DmaTheorems.OrderlyHostIsLegal | pcie_dma_ctrl.v:434-490 | so does writing ARM and START only while no START is pending |
| DmaExamples.RaceIsReachable | pcie_dma_ctrl.v:434-587 | for every address at which a frame fits, a run of legal edges from reset to the excluded edge, and legal edges after it to a request header on offer outside the active range in a transfer whose last TLP is never recognised |
| DmaScenario.StartedExactly | pcie_dma_ctrl.v:457-490 | after ARM, address, length and START from reset, for every address and length: started, for exactly these, if and only if the address is non-zero and 64-byte aligned, the length is the frame's and the frame ends below 4 GB; otherwise the two error bits say which was wrong |
| DmaProgress.TlpTakes | pcie_dma_ctrl.v:600-616 | from any point of a frame, whatever the count: after the stated number of edges, at most 8, with TREADY high and four words in the FIFO (five for the first TLP) that TLP has been accepted, and the count is one higher or the frame is done |
| DmaProgress.FrameTakes | pcie_dma_ctrl.v:577-618 | so a frame is done after exactly the stated number of such edges, and not before |
| DmaProgress.DelayedFrame | pcie_dma_ctrl.v:577-618 | low TREADY and an empty FIFO only delay: a run with that many such edges among others has shown DONE by then |
| DmaProgress.DoneIsReachable | pcie_dma_ctrl.v:389-912 | for every address at which a frame fits, a run from reset with ordinary writes, TREADY high and at most one FIFO word a cycle shows DONE for that address |
| DmaProgress.StopTakes | pcie_dma_ctrl.v:428-433 | a STOP that meets a TLP is due after exactly the rest of that TLP |
| DmaProgress.DueStopIsAcknowledged | pcie_dma_ctrl.v:415-427 | a due STOP is acknowledged at the next edge, whatever else is decoded there |
| DmaReads.ReadIsAnswered | pcie_dma_ctrl.v:621-653 | however long a decoded read is kept waiting, it is answered with the value that its register had when it was decoded, and the completion machine is free again |
| DmaReads.CompletionWhole | pcie_dma_ctrl.v:655-735 | one header and one data beat are accepted if and only if TREADY is the same in the first HEADER cycle, the first DATA cycle and the first cycle after them |
| DmaFifo.StreamStep | pcie_dma_ctrl.v:742-834 | every edge with TREADY high when needed keeps the agreement between FIFO reads, prefetch, output register and the words of the frame |
| DmaFifo.InStepExactly | pcie_dma_ctrl.v:742-834 | over every run that no reset or loss of DMA enable cuts and that ends between TLPs: every payload beat was loaded from its place in the frame and the FIFO never read empty, if and only if TREADY was high in every HEADER cycle and in every DATA cycle before the fourth word |
| DmaFifo.StallSkipsWord | pcie_dma_ctrl.v:761-826 | one such cycle with TREADY low leaves the FIFO ahead of the frame, or reads it empty |
| DmaStall.StallGarbles | pcie_dma_ctrl.v:761-806 | for every address at which a frame fits and any six FIFO words, a run from reset: one stalled HEADER cycle, and the first TLP is accepted with two headers and words 1 to 4 in place of 0 to 3 |
| DmaFifo.NeverReadsEmpty | pcie_dma_ctrl.v:609-616 | with TREADY high when needed, no run reads the FIFO while it is empty |
| DmaFifo.FrameCarriesFifoWords | pcie_dma_ctrl.v:786-806 | in every such run TLP k of a frame is one header and FIFO words 4k to 4k+3, each dword byte-reversed, across the prefetch, harmless stalls and completions in between |
| DmaFifo.DoneNeedsNextWord | pcie_dma_ctrl.v:612-616 | at DONE exactly one 16-byte word more than the frame has been read from the FIFO |
| DmaFifo.NeverUnderflows | pcie_dma_ctrl.v:521-531 | so the sticky underflow flag is never raised |
| DmaDelivery.DeliveredInFifoOrder | pcie_dma_ctrl.v:786-799 | byte j that TLP k writes to host memory is byte 64k + j of the FIFO words read for the frame: the bytes arrive in FIFO order |
| DmaDelivery.DoneMeansFifoInMemory | pcie_dma_ctrl.v:491-834 | over every run from reset, whatever the host writes to memory between frames: at DONE memory at the active address holds the bytes of the frame's FIFO words in order, and no other byte has changed since its first TLP |
| DmaDelivery.FlightDeliversFifo | pcie_dma_ctrl.v:491-834 | the same for the driver's board, against memory as it was filled before START |
| DriverLog.DecodedExactly | camara_host_computer/Colorbar_image/driver/colorbar_pcie_driver.c:230-240 | whatever a read of the status register gives decodes to itself: the other byte order never shows the version, and all ones never do |
| DriverLog.LengthReadBack | camara_host_computer/Colorbar_image/driver/colorbar_pcie_driver.c:489-497 | reading ACTIVE_LEN back as the frame size settles that bytes are not swapped and the register holds it |
| DriverLog.LogIsDisciplined | camara_host_computer/Colorbar_image/driver/colorbar_pcie_driver.c:535-581 | in an unviolated log each ARM follows an acknowledged STOP of its call, and each START follows the pre-start status, the echo of every buffer address as its call announced them, and the Bus Master check, with no other write in between |
| DriverLog.WatchTells | camara_host_computer/Colorbar_image_bak/driver/colorbar_pcie_driver.c:566-625 | the monitor of register writes reports nothing that the log does not contain |
| Board.StatusBitsAgree | camara_host_computer/Colorbar_image/driver/colorbar_pcie_driver.h:33-52 | the driver's names for the status bits are the flags the engine puts there (pcie_dma_ctrl.v:849-866) |
| Board.TiledContents | pcie_dma_ctrl.v:786-817 | memory after tiling TLPs holds, at each byte of the range, that TLP's byte, and elsewhere what it held |
| Board.QuietlyInFlight | pcie_dma_ctrl.v:457-499 | while the host only reads, a started transfer stays this START's transfer; done and the active address last unless the link is lost |
| Board.QuietlyParked | pcie_dma_ctrl.v:577-587 | while the host only reads, a parked engine changes no memory |
| Board.DoneInFlight | pcie_dma_ctrl.v:491-499 | done in flight: all that was sent since memory was filled is one whole frame at the active address |
| Board.DeliveredIsReceived | pcie_dma_ctrl.v:786-817 | then each frame byte is the byte of its one TLP and every other byte is as the host left it |
| Board.StartWrite | pcie_dma_ctrl.v:472-490 | a START on a stopped engine with memory freshly filled puts exactly that frame in flight |
| SingleDriver.Device.IoWrite | camara_host_computer/Colorbar_image/driver/colorbar_pcie_driver.c:202-205 | a register write takes effect once, amid any engine cycles, and is logged |
| SingleDriver.Device.IoRead | camara_host_computer/Colorbar_image/driver/colorbar_pcie_driver.c:207-210 | a register read returns the register as the engine held it when it decoded the read, or all ones exactly when an earlier read was pending or no completion came, and disturbs nothing |
| SingleDriver.Device.WaitStatus | camara_host_computer/Colorbar_image/driver/colorbar_pcie_driver.c:295-328 | the words polled are in the log; the poll ends at the first that shows an error it must fail on (EIO) or meets the masks (0), or after the last with ETIMEDOUT; success means the word was the register's value at some cycle |
| SingleDriver.Device.StopWait | camara_host_computer/Colorbar_image/driver/colorbar_pcie_driver.c:400-422 | returns what the poll for the acknowledgement comes to; success means the engine is stopped with nothing to deliver; a delivered frame is left alone |
| SingleDriver.Device.Configure | camara_host_computer/Colorbar_image/driver/colorbar_pcie_driver.c:537-570 | success leaves a stopped engine, Bus Master off, buffer filled and every pre-start check seen |
| SingleDriver.Device.VerifyReadback | camara_host_computer/Colorbar_image/driver/colorbar_pcie_driver.c:351-398 | returns 0 exactly when the echo read as the buffer's address, if asked for, and the status as ready; the engine then holds that address, in the byte order the parameters agree on |
| SingleDriver.Device.Start | camara_host_computer/Colorbar_image/driver/colorbar_pcie_driver.c:505-591 | refuses without touching anything; else its return code and every value written, in order, are decided by the polls and the two reads, an echo that differs gives EIO; success with read-back on means the engine was programmed with the buffer's address; keeps the invariant |
| SingleDriver.Device.FinishFrame | camara_host_computer/Colorbar_image/driver/colorbar_pcie_driver.c:460-503 | returns the poll's code if it failed; else 0 if and only if the three progress registers were answered, unswapped, while the engine still showed DONE at this buffer's address, and EIO otherwise; on 0 the frame is delivered and the guard, always, intact |
| SingleDriver.Device.WaitFrame | camara_host_computer/Colorbar_image/driver/colorbar_pcie_driver.c:642-665 | returns what FinishFrame does, or EFAULT in place of 0, and a frame is ready exactly when it was accepted; returning 0, for every setting of the three byte-swap parameters: the FPGA's active address and length are the buffer's, each frame byte was written by exactly one TLP, all guard bytes hold 0xA5 and no other memory changed since the prefill |
| SingleDriver.Device.Alloc | camara_host_computer/Colorbar_image/driver/colorbar_pcie_driver.c:145-200 | the return code follows from what the allocator gave; success gives an aligned buffer whose frame ends below 4 GB, filled, with no byte beside it touched, failure none; the reallocation branch is unreachable |
| SingleDriver.Device.Free | camara_host_computer/Colorbar_image/driver/colorbar_pcie_driver.c:667-672 | the buffer goes with Bus Master off |
| SingleDriver.Device.Read | camara_host_computer/Colorbar_image/driver/colorbar_pcie_driver.c:697-735 | copies the buffer bytes from the position, at most to the frame's end, and only when a frame is ready |
| SingleDriver.Device.EveryStartIsChecked | camara_host_computer/Colorbar_image/driver/colorbar_pcie_driver.c:505-591 | in every state between calls, every ARM and START in the log so far was justified |
| RingDriver.LedgerAlloc | camara_host_computer/Colorbar_image_bak/driver/colorbar_pcie_driver.c:172-185 | recording a fresh block keeps: outstanding blocks are exactly the mapped buffers, of one size, none overlapping |
| RingDriver.LedgerFree | camara_host_computer/Colorbar_image_bak/driver/colorbar_pcie_driver.c:130-138 | so does returning one |
| RingDriver.InOrderSnoc | camara_host_computer/Colorbar_image_bak/driver/colorbar_pcie_driver.c:696-706 | handing over the next buffer keeps: frame k came from buffer k mod 4 and was counted one up |
| RingDriver.RingDevice.DmaFree | camara_host_computer/Colorbar_image_bak/driver/colorbar_pcie_driver.c:130-138 | demands of every call that the block is outstanding and of that size, so none is freed twice or with another size |
| RingDriver.RingDevice.FreeBuffers | camara_host_computer/Colorbar_image_bak/driver/colorbar_pcie_driver.c:122-149 | from any partly allocated state, returns every block and resets the fields |
| RingDriver.RingDevice.Alloc | camara_host_computer/Colorbar_image_bak/driver/colorbar_pcie_driver.c:151-206 | succeeds exactly when the allocator gave four usable buffers one after the other, which are then the ring's and filled; else none is outstanding; existing buffers are kept untouched; the reallocation branch is unreachable |
| RingDriver.RingDevice.VerifyReadback | camara_host_computer/Colorbar_image_bak/driver/colorbar_pcie_driver.c:360-421 | returns 0 exactly when, with read-back on, all four echo registers read as the buffers' addresses, and the status as ready with the driver's next index; the FPGA's slots then hold those addresses unless it was cleared since |
| RingDriver.RingDevice.Start | camara_host_computer/Colorbar_image_bak/driver/colorbar_pcie_driver.c:529-635 | refuses untouched while started or a frame waits; else its return code and writes are decided by the polls, the four echoes and the status as read; success starts exactly the next buffer with one START write, after STOP, magic, four addresses in order and length on a fresh ring, which begins at 0; with read-back on the FPGA is sent to that buffer's address unless it was cleared; a configured ring has only the next buffer cleared; any failure leaves ring, start and Bus Master off |
| RingDriver.RingDevice.FinishFrame | camara_host_computer/Colorbar_image_bak/driver/colorbar_pcie_driver.c:483-527 | returns the poll's code if it failed; else 0 if and only if the three progress registers read as this buffer's frame and the guard is intact, and EIO otherwise; on 0 nothing in memory but that frame has changed since START |
| RingDriver.RingDevice.WaitFrame | camara_host_computer/Colorbar_image_bak/driver/colorbar_pcie_driver.c:691-718 | returns what FinishFrame does, or EFAULT in place of 0; success hands over the next buffer in ring order with the counter one up, its guard intact and nothing else in memory changed since START; failure stops the ring |
| RingDriver.RingDevice.Read | camara_host_computer/Colorbar_image_bak/driver/colorbar_pcie_driver.c:750-790 | copies the frame as it was handed over, and gives it back exactly on reaching the last byte |
| RingDriver.RingDevice.Free | camara_host_computer/Colorbar_image_bak/driver/colorbar_pcie_driver.c:720-725 | nothing stays allocated, after Bus Master is off |
| RingDriver.RingDevice.Stop | camara_host_computer/Colorbar_image_bak/driver/colorbar_pcie_driver.c:637-649 | ring, start, ready and Bus Master are off, and the write discipline is kept |
| RingDriver.RingDevice.GetStatus | camara_host_computer/Colorbar_image_bak/driver/colorbar_pcie_driver.c:277-297 | reports the status word, decoded as read, the address of the active, last or next buffer as the state demands and the three transfer registers, as the FPGA held them one after the other, or all ones; changes no driver state |
| RingDriver.RingDevice.EveryStartIsChecked | camara_host_computer/Colorbar_image_bak/driver/colorbar_pcie_driver.c:529-635 | in every state between calls, every ARM and START in the log so far was justified, with all four echoes read as the addresses of its call when asked for |
| FrameReader.OthersMeanwhile | camara_host_computer/Colorbar_image_bak/driver/colorbar_pcie_driver.c:556-557 | any START, WAIT_FRAME, ALLOC and GET_STATUS calls of others, with any parameters, leave a waiting frame as it is |
| FrameReader.ReadFull | camara_host_computer/Colorbar_image_bak/src/pcie_color_rx.c:184-202 | under every schedule of short reads, interruptions and other callers: ends at the first reply that fills the buffer, gives nothing or fails, with that outcome; what was collected is a prefix of the waiting frame; success collects exactly that frame and gives its buffer back, failure leaves it waiting |
| FrameReader.CaptureOnce | camara_host_computer/Colorbar_image_bak/src/pcie_color_rx.c:204-292 | the first step that fails decides the outcome; on success the collected bytes are the frame that WAIT_FRAME handed over last, from buffer 0 on a fresh ring; once ALLOC succeeded, every way out ends with all buffers returned and Bus Master off |
| PlateGrammar.FitsPrefix | test/infer_rknn_plate.py:578-587 | length, grammar and forced-prefix checks are prefix-closed |
| PlateGrammar.ForcedKept | test/infer_rknn_plate.py:634-639 | a fitting word keeps the forced prefix, a forced province already from one character on |
| Ctc.CtcCollapse | test/infer_rknn_plate.py:597-608 | the one-pass collapse equals merging repeats and then removing blanks |
| Ctc.CollapseSnoc | test/infer_rknn_plate.py:597-608 | one more symbol appends itself or changes nothing |
| Ctc.SpreadIsShortest | test/infer_rknn_plate.py:597-608 | a path for a word is at least as long as the word with a blank between equal neighbours |
| BeamSearch.AdmitsPrefix | test/infer_rknn_plate.py:665-672 | pruning is sound: a refused path has no admitted extension |
| BeamSearch.BlankAdmitted | test/infer_rknn_plate.py:657-658 | a blank can always follow an admitted path |
| BeamSearch.TopClassesAreBest | test/infer_rknn_plate.py:656 | the top-k classes score at least as high as any left out, and all are taken for k = 0 or k at least 74 |
| BeamSearch.ExtendAll | test/infer_rknn_plate.py:663-676 | the dictionary of one step holds exactly the admitted extensions of the beams by a class tried, each once with its true score |
| BeamSearch.Prune | test/infer_rknn_plate.py:679-680 | exactly as many beams as the slice says survive, each of them one there was, and none cut scores above one kept; with nothing left the old beams stay |
| BeamSearch.TimeStep | test/infer_rknn_plate.py:655-680 | one step keeps exactly that: the best of all admitted extensions by the top-k classes, the blank and the forced ones; beams stay true and non-empty for every width of at least one and every top-k |
| BeamSearch.Decode | test/infer_rknn_plate.py:642-702 | for every width and top-k: no answer for a prefix refused up front; else each set of beams is one such step from the last, and the answer is the best-scored beam of the last that spells a whole plate, else the best-scored with any fitting text, and none exactly when there is neither; untruncated, it beats every whole path that spells a plate with the forced prefix and is one when there is one |
| BeamSearch.ClearReadingIsFound | test/infer_rknn_plate.py:642-702 | if at every step one class scores strictly best and these spell a plate with the forced prefix, that plate is the answer for every width of at least one and every top-k above -74 |
| BeamSearch.RefusedPrefix | test/infer_rknn_plate.py:649-651 | no path spells a plate with a prefix that is refused up front |
| Solvability.SolvableExactly | test/infer_rknn_plate.py:642-702 | a plate can be found if and only if the forced prefix is valid and there are enough time steps for it |
| Solvability.FindsPlateExactly | test/infer_rknn_plate.py:682-702 | so an untruncated search returns a whole plate exactly then |
| PlateDecode.TopProvincesAreBest | test/infer_rknn_plate.py:774-775 | no province left out of the trial list scores higher than one taken |
| PlateDecode.ProvinceAware | test/infer_rknn_plate.py:768-829 | a locked province is kept; otherwise exactly one decode without and one for each likely province but the one it shows are made, and the first of highest combined score with text wins; each is what the search with that prefix finds |
| PlateDecode.CombinedRanks | test/infer_rknn_plate.py:761-765 | ranking by the combined score is ranking by probability, not below 1e-12, times the exponential of the weighted province score |
| PlateSelect.PlausibleExactly | test/infer_rknn_plate.py:836-847 | after the grammar, a readable candidate is plausible exactly when it has at most one special character, none on a tractor plate |
| PlateSelect.Attempts | test/infer_rknn_plate.py:904-925 | the whole order of attempts for each estimate: the estimated type first when it is known, its tractor variant second for green, the rest in list order, each once |
| PlateSelect.Select | test/infer_rknn_plate.py:966-987 | prefers plausible, then whole, then any text, and takes the first of the best-scored there |
| PlateSelect.OrderMattersExactly | test/infer_rknn_plate.py:893-901 | every reordering of the candidates chooses the same one, number and mark aside, if and only if no other candidate of the pool in use has the top selection score |
| PlateSelect.OrderCanDecide | test/infer_rknn_plate.py:893-901 | a concrete pair: one reading, possible as blue and as yellow with green estimated; whichever is tried first is chosen |
| PlateSelect.ChoiceIsDetermined | test/infer_rknn_plate.py:982-987 | in one list only one candidate qualifies: ties go to the earliest attempt |
| PlateSelect.DecodeWithTypeFallback | test/infer_rknn_plate.py:887-997 | one candidate per attempt in the order of the attempts; a text comes with exactly one marked candidate, the one selected, whose text, score and type are returned; no text exactly when no attempt found any; a locked province is kept, and each candidate is then what the search finds under it |
| PlateSelect.VerifyOrCorrect | test/infer_rknn_plate.py:1043-1105 | the classifier's province is its first best; without text, on agreement, on agreement within the top list and below the confidence bound it says so and changes nothing; else it decodes again under that province, and corrects if and only if that reading is a whole plate with the demanded score ratio; then the reading and its candidates, renumbered, replace the old; one marked candidate remains |
| PlateSelect.BaseValid | test/infer_rknn_plate.py:1346-1347 | a reading is valid exactly when its text is a word of the selected type's grammar |
| Nms.NmsXyxy | test/infer_rknn_plate.py:313-331 | terminates; for whichever order by score the sort gave, equal scores in any order, it is greedy suppression; kept boxes are distinct, by score and pairwise at most at the threshold; a dropped one exceeds it with a kept one of at least its score |
| Nms.SurvivorsExactly | test/infer_rknn_plate.py:320-330 | a box is kept if and only if it is compatible with every kept box before it |
| Nms.NmsIdempotent | test/infer_rknn_plate.py:313-331 | run on what it kept, it keeps everything, however either run orders equal scores |
| Nms.OverlapIsCommon | test/infer_rknn_plate.py:322-326 | the intersection is the area of exactly the points that both boxes hold |
| Nms.IouRange | test/infer_rknn_plate.py:326-328 | IoU lies between 0 and 1 and is 0 exactly without overlap |
| Nms.IouNested | test/infer_rknn_plate.py:326-328 | a box inside another has the ratio of their areas, itself 1 |
| Nms.IouSideBySide | test/infer_rknn_plate.py:326-328 | boxes of one height that overlap side by side have the overlap's share of the box around both |
| Nms.NothingInCommon | test/infer_rknn_plate.py:322-326 | there is no overlap exactly when no point lies in both |
| Letterbox.LetterboxExactly | test/infer_rknn_plate.py:233-247 | exactly 640 by 640 for every positive size, the longer side filling it and an odd border pixel going right or below, unless one side is at least 1280 times the other, when the resize is refused |
| Letterbox.MapBackError | test/infer_rknn_plate.py:365-367 | mapping a shown point back errs by at most 1/ratio before clipping |
| Letterbox.DflInRange | test/infer_rknn_plate.py:304-310 | every decoded distance lies strictly between 0 and 15 |
| Letterbox.SoftmaxMean | test/infer_rknn_plate.py:304-310 | with exp of a sum the product, subtracting the largest logit changes nothing: the distance is the mean of the bins weighed by the exponentials of the logits as they are, so adding a constant to all of them changes nothing |
| Letterbox.TwoBins | test/infer_rknn_plate.py:304-310 | two equal bins with a share of at most eps beside them: within 15 eps of their middle |
| Letterbox.OnePeak | test/infer_rknn_plate.py:304-310 | one bin with a share of at most eps beside it: within 15 eps of that bin |
| Detect.BoxInImage | test/infer_rknn_plate.py:352-369 | every decoded box is ordered and inside the image after clipping |
| Detect.ColumnsComeBack | test/infer_rknn_plate.py:357-369 | a left or right side that lies, in letterbox pixels, where the letterboxed picture shows column u comes out within 1/ratio of u |
| Detect.RowsComeBack | test/infer_rknn_plate.py:357-369 | so do the upper and the lower one for rows |
| Detect.Postprocess | test/infer_rknn_plate.py:334-385 | every detection truly reports one confident cell with its first best class, no cell is reported twice, each lies inside the image and clashes with no other of its class; every confident cell is represented; sorted by score, then class |

## Left out

- The commented-out legacy blocks of pcie_dma_ctrl.v, its video-enhance registers and its constant test modes: dead or without effect on the transfer.
- Completion header fields (requester, tag, lower address), and completions cut short by STOP or a reset.
- Clock-domain crossing and the FIFO's insides: the FIFO is a queue with one cycle of read latency and a two-edge read-side reset; the write-side reset delay is not modelled.
- That the link, the FIFO and the host ever do their part: progress is proved from what they do (`DmaProgress`, `DmaReads`), and how many status reads fit into a poll's timeout is arbitrary.
- Kernel probe and removal, file operations other than read and the ioctls, timing, memory barriers: a failed copy to user space is a nondeterministic error. GET_INFO, and GET_STATUS of the single-buffer driver, only report constants and registers.
- SingleDriver.Device.Read: does not claim that the bytes are still those of the last WAIT_FRAME, because a START that fails after its prefill leaves an older `frame_ready` set.
- RingDriver.RingDevice.WaitFrame: does not claim that every byte of the frame was written, because the RTL of the four-buffer FPGA is not part of this model.
- FrameReader.ReadFull: other users may START, WAIT, ALLOC and ask for the status, but not read, seek, STOP or FREE meanwhile; with those the source gives no guarantee.
- BeamSearch.Decode: `log_softmax_time` is not computed; the search is proved for any real scores per class and time step.
- Detect.Postprocess: starts from a flat list of grid cells; finding the nine output tensors and reshaping them (`group_yolo_outputs`, `to_nchw`) is not modelled.
- Early-step province scores, province-classifier probabilities and type estimation from colour: inputs.
- PlateSelect.VerifyOrCorrect: the debug fields of a candidate (confidence, rank label, classifier's top three) are not carried.
- The optional province quality checks after line 1347 of test/infer_rknn_plate.py, drawing, file handling, cropping and the command line.
- Floating-point rounding, NaN and infinities: real arithmetic throughout; "no answer" is its own case instead of minus infinity.
- GTK front ends, the `pango_pcie_dma_alloc` driver and application, neural network inference and OpenCV pixel operations.
