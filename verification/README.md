# A verified model of the independent PCI Express link partner

`tb/lr1` holds a complete, independent PCI Express 2.1 link partner for x1 at
2.5 GT/s: a receiver that delineates the Symbol stream, an LTSSM, a Data Link
Layer, a transmit scheduler, and monitors that judge the other side. This project
models that partner and proves what its protocol is for. Nothing was executed;
every statement below is a theorem checked by the Dafny verifier.

## How the project is laid out

Code that updates fields in place is a class here, and each of its methods is
proved to compute a function of the old state. The theorems about runs are about
those functions.

| files | what they hold |
|---|---|
| `Common`, `Bits`, `Fields` | options, folds over lists, bit strings, integer fields |
| `DllTypes`, `DllSpec`, `LinkLayer` | the Data Link Layer: values, one function per operation, the class `Dll` that refines them |
| `Link`, `LinkMoves` | two Data Link Layers joined by two channels that keep order but may lose or damage any packet; schedules |
| `LinkLocal`, `LinkSafety`, `LinkCredits` | exactly-once delivery with its exact condition, and credit safety, over schedules of any length |
| `LinkPrompt`, `LinkLate` | conditions that imply the exact one, one of them on the schedule alone; schedules from reset that violate it and what they lose |
| `LinkInit`, `LinkStuck`, `LinkRecovery` | the flow-control handshake, when it must complete, and recovery from any loss |
| `MonitorSpec`, `Monitor`, `MonitorLink`, `MonitorEpochs`, `MonitorAwait` | the sequence, replay, InitFC and Ack checks of the monitor, against any transmitter run and over any number of link losses |
| `CrcTheory`, `Crc` | both CRCs, burst detection, the second CRC-16 of the repository |
| `Symbols`, `Scrambler` | ordered sets, framing, DLLP encodings; serial and closed-form scrambler |
| `StreamSpec`, `Stream`, `StreamProofs`, `StreamTheorems` | the receiver, print-then-parse, self-stabilisation |
| `TlpFormat`, `Frames`, `DllRanges` | TLP headers and credits; packets as bytes and back |
| `LtssmSpec`, `Ltssm`, `LtssmProofs` | the LTSSM: history, numbers, entry to L0, termination |
| `FarSpec`, `FarEnd`, `FarProofs`, `FarTheorems`, `FarLink` | the transmit queue and the clock step: SKP spacing, COM lanes, LinkUp; what is sent is what is received; two far ends on damaged wires refine the two-ended link |

## What the two-ended model assumes

- One link-up epoch: neither end of a `Link` schedule goes down again.
  (`MonitorLink.Watch` lets a single end go down any number of times.)
- A packet is lost, damaged or delivered; channels neither reorder nor duplicate.
  A damaged TLP fails its LCRC and a damaged DLLP its CRC. `Crc` proves this for
  every burst of at most 32 (16) wire bits, and that 33 is not safe; `FarLink`
  carries such bursts in the bytes of two far ends over to damaged packets here. An
  error pattern the CRC misses is outside the protocol model.
- Each accepted TLP is released at once, as `FarEnd._on_rc_event` does.
- Credit theorems take advertisements of at most 127 header and 2047 data credits
  (section 2.6.1 of the PCI Express Base Specification 2.1).

## When delivery is exactly once

The window test of `_acknak` cannot tell a number from the same number 4096 TLPs
later. Naks are pushed on the left of the queue, so a newer one can overtake an older
one and nothing bounds how long that one waits. Exactly-once delivery is therefore
false of the code on some schedules: `LinkLate.PromptNeeded` gives one from reset,
with losses and damage only, on which the receiver takes TLP number 8194 for number
4098, and `LinkLate.KeptNakLosesTlps` one on which 2047 TLPs vanish although the
sender believes them delivered.

The exact condition is the guard of that test. `LinkSafety.Names(num, got, sent)`
says that `num` is the number of a TLP sent but not yet accepted, and `Reads` that an
ACTIVE sender never reads an Ack or Nak with such a number.
`LinkSafety.ExactlyOnceInOrder` proves, for each direction by itself, that no TLP
leaves the retry buffer before it was accepted if and only if `Reads` holds of the
schedule, and that what was accepted is then a prefix of what was sent, and that of
what was offered. `LinkSafety.StepInv` is the same for one step. `LinkPrompt` gives
conditions that imply `Reads`, each simpler than the one before: every Nak leaves
before 2048 further TLPs are accepted; no Nak is queued while another waits, and an
end transmits at least once in 2048 receptions; an end transmits at least once in two
receptions.

Where code and documentation differ, the code is modelled: a Completion built with
an empty but present data list announces 4096 bytes (`TlpFormat.CompletionRoundTrip`
says exactly when it reads back).

## Model

| member | source | states |
|---|---|---|
| LinkSafety.ExactlyOnceInOrder | tb/lr1/lr1_dll.py:160-211 | For each direction of every schedule from reset, through any number of wraps of the 12-bit numbers: no TLP ever leaves the retry buffer before it was accepted if and only if the sender, while ACTIVE, never reads an Ack or Nak naming a TLP still to be accepted; and then what was accepted is a prefix of what was taken from tlp_q, that is a prefix of what was offered, and nothing is forgotten. |
| LinkSafety.SeqDecides | tb/lr1/lr1_dll.py:198-211 | The modular accept, duplicate or Nak decision is the one absolute numbers would give, also for stale replays. |
| LinkSafety.RunSound | tb/lr1/lr1_dll.py:306-356 | On every schedule whatever, misread numbers included, both retry buffers and replay queues, receive counters and queued Naks agree with the absolute counts, and every Ack and Nak under way names the last TLP accepted when it was made. |
| LinkSafety.AckExact | tb/lr1/lr1_dll.py:160-174 | An Ack or Nak read against what the peer has accepted so far purges only accepted TLPs exactly unless its number is that of a TLP sent and not accepted. |
| LinkPrompt.PromptReads | tb/lr1/lr1_dll.py:219-223 | On a schedule from reset on which every queued Nak leaves before 2048 further TLPs are accepted, no number is ever misread at either end. |
| LinkPrompt.PacedIsPrompt | tb/lr1/lr1_dll.py:219-223 | A schedule on which no reception queues a Nak while another waits, and no end receives more than 2048 packets between its transmissions, is one. |
| LinkPrompt.TwoPerTurnIsPaced | tb/lr1/lr1_dll.py:219-223 | A schedule on which each end transmits at least once in two receptions is paced, whatever is lost or damaged: NAK_SCHEDULED keeps the second of two receptions from queueing another Nak. |
| LinkPrompt.PacedDelivers | tb/lr1/lr1_dll.py:183-211 | So on every paced schedule delivery is exactly once and in order, with nothing forgotten, in both directions. |
| LinkPrompt.PacedCredits | tb/lr1/lr1_dll.py:226-279 | And credit safety holds on it. |
| LinkLate.PromptNeeded | tb/lr1/lr1_dll.py:219-223 | A schedule from reset, with losses and damage only, that misreads a number and after which, both ends ACTIVE, what was accepted is no prefix of what was sent. |
| LinkLate.KeptNakLosesTlps | tb/lr1/lr1_dll.py:219-223 | One Nak kept too long, then misread: empty retry buffer and channels, 4096 TLPs sent, 2049 accepted. |
| LinkSafety.StepInv | tb/lr1/lr1_dll.py:160-356 | From a state in which retry buffers, packets under way and the absolute counters of both directions agree, every offer, tick, transmission, reception, loss and damage leads to such a state, exactly unless it is a reception that misreads a number. |
| LinkSafety.AckWindow | tb/lr1/lr1_dll.py:160-174 | An Ack number under way, however stale within 2048, is taken or rejected as its absolute number demands. |
| LinkLocal.UnackedIsRetry | tb/lr1/lr1_dll.py:157-158 | The modular count of unacknowledged TLPs is the length of the retry buffer. |
| LinkLocal.TakeAckRun | tb/lr1/lr1_dll.py:160-174 | An Ack in the window pops exactly the entries up to its number and leaves a contiguous run. |
| LinkCredits.CreditSafety | tb/lr1/lr1_dll.py:226-279 | On every schedule from reset that misreads no number, the 8- and 12-bit counters are the residues of absolute ones; absolute received credits are at most those of the distinct TLPs sent, these fit the limit the sender holds, that limit fits what the receiver has granted, and no Receiver Overflow is ever recorded. |
| LinkCredits.CanSendExact | tb/lr1/lr1_dll.py:259-272 | can_send is true exactly when unbounded spent credits plus the TLP fit the unbounded limit, across counter wraps and with infinite types. |
| LinkCredits.FitsOnArrival | tb/lr1/lr1_dll.py:226-240 | A TLP the gate let through never exceeds the data advertised. |
| LinkInit.HandshakeSafety | tb/lr1/lr1_dll.py:120-154 | On every schedule an ACTIVE end has a peer past FC_INIT1, and an end is past FC_INIT1 exactly when it has recorded the peer's own advertisement for all three types. |
| LinkInit.HandshakeCompletes | tb/lr1/lr1_dll.py:284-304 | From every reachable state with the link up at both ends, some loss-free continuation makes both ACTIVE when each advertises a finite type. |
| LinkStuck.NeedsFinite | tb/lr1/lr1_dll.py:145-154 | An end that advertises only infinite credits can, with nothing lost, leave its peer in FC_INIT2 for ever unless a TLP is offered. |
| LinkStuck.CompletesExactly | tb/lr1/lr1_dll.py:120-154 | The handshake can always complete if and only if each end advertises some finite type. |
| LinkRecovery.RecoveryFromAnyLoss | tb/lr1/lr1_dll.py:160-181 | From every state with both ends ACTIVE that a schedule reaches without the sender of a direction misreading a number, after everything under way is lost as well, at most one REPLAY_TIMER expiry, the replay, whatever old Naks the receiver still has queued and one Ack leave the retry buffer empty, NRS equal to NTS and every TLP delivered, NAK_SCHEDULED stuck or not, and that sender misreads nothing meanwhile. |
| LinkRecovery.BothRecover | tb/lr1/lr1_dll.py:160-181 | Both directions recover in one loss-free continuation, nothing misread, if nothing was so far and no Nak queued at one end names a TLP that end still misses. |
| LinkRecovery.TimerReplays | tb/lr1/lr1_dll.py:303-304 | In every state of every schedule the timer of an end with unacknowledged TLPs runs, and its expiry queues every one of them for replay, numbered and unchanged. |
| LinkLayer.Dll.OnDllp | tb/lr1/lr1_dll.py:120-143 | The class method computes the specified step for InitFC, UpdateFC, Ack and Nak in each of the four states. |
| LinkLayer.Dll.AckNak | tb/lr1/lr1_dll.py:160-174 | In place: rejects a number outside the window with a record and nothing else, else purges, moves ACKD_SEQ, restarts the timer and replays for a Nak. |
| LinkLayer.Dll.OnTlp | tb/lr1/lr1_dll.py:183-211 | In place: discards, silently drops nullified, Naks, accepts or acknowledges a duplicate as specified, returning the TLP exactly when accepted. |
| LinkLayer.Dll.Release | tb/lr1/lr1_dll.py:242-257 | In place: returns credits of finite types and schedules an UpdateFC when one is needed. |
| LinkLayer.Dll.Tick | tb/lr1/lr1_dll.py:284-304 | In place: InitFC sets, periodic UpdateFCs and the REPLAY_TIMER. |
| LinkLayer.Dll.NextPacket | tb/lr1/lr1_dll.py:306-356 | In place: Nak, Ack, DLLPs, UpdateFC, replay, nullified or new TLP, in this order, with all it updates. |
| LinkLayer.Dll.LinkDown | tb/lr1/lr1_dll.py:107-114 | Going down resets everything but the record of errors. |
| MonitorLink.RetryBufferAlways | tb/lr1/lr1_dll.py:333-356 | After any history with any peer, link losses included, the retry buffer is, for the present epoch, exactly ACKD+1..NTS-1 in order with the original TLPs, at most 2047, and replay_q a run ending at NTS-1. |
| LinkLocal.AckWindowExact | tb/lr1/lr1_dll.py:160-174 | The Ack j past ACKD_SEQ purges j entries if at most that many are outstanding, and otherwise only leaves a record, for all 4096 values. |
| MonitorLink.StaleAckRejected | tb/lr1/lr1_dll.py:160-166 | A number that lags ACKD_SEQ is rejected without change exactly when the lag and the outstanding TLPs stay below 4096, so always for lags up to 2048. |
| MonitorLink.LateNakPurges | tb/lr1/lr1_dll.py:160-174 | A Nak that lags by 2049 with 2047 outstanding purges everything. |
| MonitorLink.MonitorClearsPurged | tb/lr1/lr1_checks.py:350-366 | The monitor's half-range test covers a number exactly when the Ack purges the TLP under it. |
| MonitorLink.MonitorFollows | tb/lr1/lr1_checks.py:350-366 | A monitor that awaits exactly the outstanding TLPs awaits exactly the outstanding ones after an Ack or Nak of any of the 4096 numbers, unless the number is outside the far end's window and less than 2048 past its newest TLP. |
| MonitorAwait.AwaitedExactly | tb/lr1/lr1_checks.py:446-449 | Over every history, link losses included, the monitor awaits every outstanding TLP at every moment if and only if the far end, while ACTIVE, is sent no such number. |
| MonitorEpochs.FlaggedExactly | tb/lr1/lr1_checks.py:328-402 | Over every history with any number of link losses, a Data Link Layer that nullifies nothing, whatever it receives, makes the monitor flag LCRC, SEQ, differing replays or InitFC order if and only if at some moment the TLPs of the epoch do not begin what the monitor remembers, or an epoch begins with an InitFC of a phase in which an earlier one stopped within a set. |
| MonitorEpochs.NeverFlagged | tb/lr1/lr1_checks.py:328-402 | So within the first link epoch it is never flagged, across wraps and state changes. |
| MonitorEpochs.RestartExact | tb/lr1/lr1_checks.py:381-402 | With one link loss between two epochs: no LCRC, SEQ or content flag in the whole run exactly when the first TLPs of the new epoch, as many as the number that was due, repeat the last ones of the old epoch as far as they are sent. |
| MonitorEpochs.RestartFlagged | tb/lr1/lr1_checks.py:381-402 | The shortest false alarm, as a run: one TLP, a link loss, one TLP; flagged exactly when the two differ. |
| MonitorEpochs.InitsFlagged | tb/lr1/lr1_checks.py:328-338 | Over every history no InitFC is flagged exactly when no epoch begins within a set of the same phase that was left unfinished. |
| MonitorEpochs.RestartInit | tb/lr1/lr1_checks.py:328-338 | The first InitFC after the first epoch, of either phase, passes exactly unless that epoch ended within a set of its phase. |
| Monitor.Checks.Tlp | tb/lr1/lr1_checks.py:369-402 | In place: next number, known number with the same or other content, or a wrong number. |
| Monitor.Checks.Ack | tb/lr1/lr1_checks.py:350-366 | In place, by a loop: keeps exactly the numbers not covered. |
| Monitor.Checks.FeTlp | tb/lr1/lr1_checks.py:446-449 | In place: a TLP the far end sent is awaited once. |
| Monitor.Checks.FcInit | tb/lr1/lr1_checks.py:328-339 | In place: P, NP, Cpl in turn within a phase. |
| Crc.SerialLoop | tb/lr1/lr1_crc.py:26-36 | The bit loop computes the register as a fold over the message bits. |
| Crc.MapFieldLoop | tb/lr1/lr1_crc.py:39-46 | The field loop sends register bits through the permutation. |
| Crc.FieldOnWire | tb/lr1/lr1_crc.py:39-46 | The permutation puts the register on the wire most significant bit first. |
| Crc.LcrcResidue | tb/lr1/lr1_crc.py:85-88 | lcrc_ok holds exactly when the register over message and field is one constant. |
| Crc.LcrcDetectsBursts | tb/lr1/lr1_crc.py:85-88 | No codeword of any length damaged by a nonzero burst of at most 32 wire bits, over data and field alike, passes lcrc_ok. |
| Crc.LongerBurstEscapes | tb/lr1/lr1_crc.py:85-88 | Every good TLP has a copy damaged by a 33-bit burst that passes: 32 is the best bound. |
| Crc.DllpDetectsBursts | tb/lr1/lr1_crc.py:81-82 | The same for dllp_ok and bursts of at most 16 bits. |
| Crc.FramesCheck | tb/lr1/lr1_crc.py:66-94 | What lcrc appends passes; what nullified_lcrc appends never passes and is recognised as nullified. |
| Crc.CalculateDllpCrc | tb/dllp/test_dll_comprehensive.py:383-392 | The reflected byte-at-a-time loop computes its fold. |
| Crc.CrcsAgree | tb/dllp/test_dll_comprehensive.py:383-392 | For every message both CRC-16 implementations give the same two bytes, the reflected one low byte first. |
| Scrambler.LfsrByte | tb/lr1/lr1_scrambler.py:37-52 | The loop of eight shifts returns the mask and the register of the serial definition. |
| Scrambler.SerialIsClosed | tb/phy_receive/rx_golden.py:48-86 | Eight serial shifts and their mask equal the closed forms for all 65536 registers. |
| Scrambler.SameStreams | tb/phy_receive/rx_golden.py:89-116 | Both scramblers give equal output and end in equal registers on every Symbol stream. |
| Scrambler.Undoes | tb/lr1/lr1_scrambler.py:59-69 | Descrambling a scrambled stream under the same training-set marks restores every byte. |
| Scrambler.RxDescrambler.Feed | tb/lr1/lr1_scrambler.py:86-98 | In place: finds training-set bodies after COM and descrambles. |
| Symbols.ParseTsBuilt | tb/lr1/lr1_symbols.py:32-84 | A built training set parses back to its fields. |
| Symbols.ParseAckNak | tb/lr1/lr1_symbols.py:100-167 | Ack and Nak DLLPs parse back, Reserved bits noticed exactly when set. |
| Symbols.ParseFc | tb/lr1/lr1_symbols.py:113-167 | Flow-control DLLPs of all nine types parse back field by field. |
| Stream.RcStream.Feed | tb/lr1/lr1_rx.py:55-65 | In place: descramble, lock on COM, delineate; exactly the specified events are emitted. |
| Stream.RcStream.OsStep | tb/lr1/lr1_rx.py:133-177 | In place: SKP, EIOS, FTS and training sets, with each way they can break. |
| StreamProofs.UnitHeard | tb/lr1/lr1_rx.py:74-177 | From any unit boundary any legal unit, scrambled, produces exactly its own events after those of what was pending. |
| StreamTheorems.PrintThenParse | tb/lr1/lr1_rx.py:55-177 | Any list of units led by an ordered set, scrambled from any register and fed to a receiver in any state garbage can leave, is reported unit for unit with contents, idle runs joined, no error, and only a trailing SKP or idle run held back. |
| StreamTheorems.Stabilises | tb/lr1/lr1_rx.py:74-177 | After any garbage one COM puts the receiver in the state of a fresh one that saw its first COM; all later events agree. |
| StreamTheorems.BoundedAlways | tb/lr1/lr1_rx.py:91-110 | The buffers never exceed one training set and one longest TLP. |
| TlpFormat.CompletionRoundTrip | tb/lr1/lr1_tlp.py:48-61 | A Completion reads back field by field with its data and credits, exactly unless an empty data list is present. |
| TlpFormat.MemRoundTrip | tb/lr1/lr1_tlp.py:64-117 | A Memory Request of either address size reads back, address aligned; size_ok holds exactly when data and Length agree. |
| TlpFormat.BodyReads | tb/lr1/lr1_tlp.py:79-96 | Payload and digest are found exactly when the header announces as much data as there is. |
| TlpFormat.Parse | tb/lr1/lr1_tlp.py:79-117 | The payload parse finds in any byte list is at most 4096 bytes, so that tlp_credits is at most 256 units. |
| Frames.PacketRoundTrip | tb/lr1/lr1_symbols.py:88-96 | Every packet the layer sends is one legal unit of the stream, and its event is read as the same packet. |
| Frames.DamagedTlpShows | tb/lr1/lr1_farend.py:153-164 | A TLP event damaged in one burst is never read as good. |
| Frames.DamagedDllpShows | tb/lr1/lr1_farend.py:153-156 | A DLLP event damaged in one burst is never handed to the layer. |
| DllRanges.NextFits | tb/lr1/lr1_dll.py:306-356 | Whatever next_packet returns fits its fields and can be framed. |
| Ltssm.Machine.OnEvent | tb/lr1/lr1_ltssm.py:117-204 | In place: what every event does in every state, with the history cut at 32. |
| Ltssm.Machine.Tick | tb/lr1/lr1_ltssm.py:235-270 | In place: detection, lane wait, two-condition exits, timeouts. |
| Ltssm.Machine.NextUnit | tb/lr1/lr1_ltssm.py:283-303 | In place: the training set of each state and its counters. |
| LtssmProofs.BoundedHistory | tb/lr1/lr1_ltssm.py:127-136 | On every run the cut history takes the same decisions and sends the same units as one that keeps everything. |
| LtssmProofs.NumbersAlways | tb/lr1/lr1_ltssm.py:93-114 | On every run CFG_IDLE, L0 and Recovery imply LinkUp and adopted Link and Lane numbers, Polling implies neither. |
| LtssmProofs.EntryToL0 | tb/lr1/lr1_ltssm.py:221-259 | On every run L0 is entered exactly on a cycle of an idle state by which eight consecutive idles were seen in this visit and idle_after_rx queued since the first. |
| LtssmProofs.OneDetour | tb/lr1/lr1_ltssm.py:261-266 | The idle timeout leads to Recovery at most once in a whole run. |
| LtssmProofs.Terminates | tb/lr1/lr1_ltssm.py:62-64 | From every state 100 ms of cycles without event, idle or direction reach DETECT or L0, whatever is sent meanwhile. |
| FarEnd.Transmitter.Fill | tb/lr1/lr1_farend.py:171-213 | In place, by the loop of the source: SKP, training set, packet or idle until two Symbols are queued. |
| FarEnd.Transmitter.Step | tb/lr1/lr1_farend.py:303-329 | In place: LTSSM, Data Link Layer, then one word. |
| FarEnd.Transmitter.OnEvent | tb/lr1/lr1_farend.py:147-164 | In place: the LTSSM hears every event, the Data Link Layer its packets, released when accepted. |
| FarProofs.SkpSpacing | tb/lr1/lr1_farend.py:171-229 | In an uninterrupted transmission, whatever LTSSM and Data Link Layer hand over, a SKP set starts within skp_interval + the longest unit of the first Symbol and of every SKP set, and neighbouring ones are at least skp_interval - 1 apart. |
| FarProofs.ComLane | tb/lr1/lr1_farend.py:310-320 | With odd SKP counts and TLPs of even length, as whole Dwords are, every COM leaves on byte lane com_lane. |
| FarProofs.BeatIsTransmit | tb/lr1/lr1_farend.py:310-329 | The run those two theorems speak of is the scheduler's own, Symbol for Symbol. |
| FarProofs.StepLinked | tb/lr1/lr1_farend.py:303-306 | After every clock step the Data Link Layer is INACTIVE exactly while LinkUp is false, and outside L0 nothing was taken from it. |
| FarTheorems.SendingFaithful | tb/lr1/lr1_farend.py:171-229 | Everything a transmission sends and queues is the com_lane Symbol and then the printed units of its turns, all legal, and what has left is its scrambling. |
| FarTheorems.WireIsParsed | tb/lr1/lr1_rx.py:55-177 | A fresh receiver fed a transmission that starts in training reports without error, at every moment, a beginning of what the queued units amount to, and all of it once the queue is drained. |
| FarProofs.FarRun | tb/lr1/lr1_farend.py:272-329 | In every run of events, clocks, offers and directions the numbers stay proper and every field in range. |
| FarProofs.RunBeats | tb/lr1/lr1_farend.py:303-329 | So every transmitting clock of every run meets what the theorems about transmissions ask. |
| FarProofs.StepSane | tb/lr1/lr1_farend.py:303-329 | Every clock step keeps numbers and ranges sane. |
| FarProofs.HearsPacket | tb/lr1/lr1_farend.py:147-164 | Hearing the event of a packet's frame does to the Data Link Layer what receiving that packet does in the two-ended model. |
| FarLink.PacketsOnWire | tb/lr1/lr1_farend.py:171-229 | Through queue, scrambler, wire and a fresh receiver: the packets reported are at every moment a beginning of those taken from next_packet, and all of them once the queue is drained. |
| FarLink.PairRefines | tb/lr1/lr1_farend.py:303-329 | Every run of two far ends exchanging frames that are lost or suffer one burst of at most 32 (16) bits in a TLP (DLLP) is, in one link-up epoch, a schedule of the two-ended model with the same Data Link Layers, TLPs offered and TLPs accepted. |
| FarLink.EndToEnd | tb/lr1/lr1_farend.py:147-213 | So in each direction in which that schedule misreads no number, the TLPs accepted are a prefix of those offered. |

## Left out

- Pin access, clocks, coroutines, AXI drivers and test benches: simulator I/O. Electrical Idle at P1 and the cycle number are parameters.
- Variation knobs of the Data Link Layer: redundant Acks, the periodic Cpl UpdateFC, Reserved bits in sent DLLPs, dropping or stopping InitFC sets.
- Symbol indices and times of events, statistics, logs, histories of states, recorded requests for unimplemented LTSSM states.
- Timing checks of the monitor (Ack latency, UpdateFC and InitFC periods, when a replay may start) and its framing and training-set checks; SKP spacing is proved of the transmitter instead.
- `lr1_inject.py`: scripted violations that bypass the window and credit checks.
- `lr1_cfg.py`: configuration space and request handling; Completions it makes enter as offered TLPs.
- LTSSM events carry whatever the receiver reports; a training set without a rate or control byte, which the receiver never emits, reads as no bit set.
- `dw0`, `cfg_req`, I/O and message builders beyond the fields Completions and Memory Requests use: the same packing again.
- LinkCredits.CreditSafety: for schedules that misread no number at either end, because the counters of the two ends are compared through what was accepted being a prefix of what was sent.
- LinkRecovery.RecoveryFromAnyLoss: after a past in which the sender has misread nothing, because what a misread number purges is no longer there to be replayed; credits are not needed since replays are not gated.
- LinkRecovery.BothRecover: if Naks that name missing TLPs wait at both ends, the first one to leave may be misread, and only one direction is promised.
- LinkLayer.Dll.OnDllp: does not model the knobs that purge queued InitFC1s on FI1 and stop InitFC2s on FI2, because they are variations a test switches on.
- LinkLayer.Dll.Tick: does not model the knob for periodic Cpl 0/0 UpdateFCs, for the same reason.
- LinkLayer.Dll.NextPacket: does not model redundant Acks nor Reserved bits in Acks, for the same reason.
- MonitorLink.LateNakPurges: speaks of one step from any state with 2047 outstanding TLPs; LinkLate has the schedules that reach such states.
- MonitorEpochs.NeverFlagged: is about the first epoch; MonitorEpochs.FlaggedExactly is about all of them.
- MonitorEpochs.RestartInit: is about one InitFC; MonitorEpochs.InitsFlagged is about whole histories.
- MonitorAwait.AwaitedExactly: says nothing of numbers awaited beyond the outstanding ones, which a replay of a TLP acknowledged meanwhile puts back.
- MonitorLink.RetryBufferAlways: counts what was sent from the last time the link went down on.
- Monitor.Checks.Tlp: leaves out when a replay may start, the Reserved bits of the number and the TLP format checks, because they judge timing and fields, not the protocol's order.
- Monitor.Checks.Ack: leaves out the Ack latency flag, which judges time.
- Monitor.Checks.FeTlp: leaves out the end time of the TLP, which only the latency flag reads.
- Monitor.Checks.FcInit: leaves out the InitFC period flag, which judges time.
- Stream.RcStream.Feed: leaves out Symbol indices and times of events.
- Stream.RcStream.OsStep: leaves out Symbol indices and times of events.
- TlpFormat.Parse: gives kind, payload, digest and size only; the fields of Completions and Memory Requests are read by ReadCpl and ReadMem, those of the other kinds are left out.
- FarEnd.Transmitter.Step: leaves out pins, the Symbols fed to the receiver in the same step, whose events and idle run are parameters, and Completions falling due, which enter as offered TLPs.
- FarEnd.Transmitter.OnEvent: leaves out the Completions the Transaction Layer makes of an accepted TLP; they enter as offered TLPs.
- FarProofs.StepSane: is one step; FarProofs.FarRun composes steps into runs.
- FarProofs.SkpSpacing: for one transmission between two visits to DETECT; skp_interval is at least 2 (the specification asks for at least 1180).
- FarLink.PairRefines: bursts stay within the bytes of one frame, whose K codes arrive; a frame that loses them is a lost packet. What happens to the Symbols between frames enters as events of the receiver.
- FarLink.EndToEnd: the condition is one on the schedule the run refines to; LinkPrompt says which schedules meet it.
