# VRCStreamer in Dafny

A model of the streaming server (Rust, `server/src`) and of the parts of its browser client
(JavaScript, `client/scripts`) that the server relies on, with proofs over all inputs, all runs
and, for the concurrent parts, all interleavings.  `dafny verify dfyconfig.toml` checks everything.

## Overview

| file | component |
|---|---|
| `BanTable.dfy` | IP bans: the bounded table, in place, against the unbounded relation of all bans |
| `Registry.dfy`, `RegistrySafety.dfy`, `KickSafety.dfy`, `AdmissionSafety.dfy` | channel registry, guards, counters, admission and blacklist reload as one transition system |
| `VideoGate.dfy`, `VideoGateSafety.dfy`, `VideoPlaceholders.dfy`, `VideoWakeups.dfy` | which video frames and placeholder pictures a listener is sent, and that it is woken |
| `AnnexB.dfy`, `AccessUnit.dfy` | the H.264 start-code scanner, its inverse, and the access-unit check |
| `Rtp.dfy`, `H264Rtp.dfy`, `RtpWriter.dfy`, `RtpRoundTrip.dfy`, `RtpSession.dfy` | RTP packets on an RTSP connection: the writer, and a receiver that inverts it, over whole sessions |
| `MediaTime.dfy` | 32-bit timestamps unwrapped, rescaled, and mapped to RTP time |
| `TokenBuckets.dfy`, `AudioBudget.dfy` | the server's token bucket and the sender's budget |
| `IpLimits.dfy`, `HttpWindows.dfy` | the per-IP table |
| `Pacing.dfy`, `PacingHistory.dfy`, `RateControl.dfy`, `QuantizerHistory.dfy`, `RateRecovery.dfy` | the video worker's pacing and quantizer control |
| `AvcRecord.dfy` | parameter sets from the encoder's record to the server's scanner |
| `AudioCapture.dfy` | capture blocks in the audio worklet |
| `Arithmetic.dfy`, `Common.dfy`, `Options.dfy` | helpers |

Code that updates fields in place is a class whose methods are proved against functions on values;
what the program promises is then proved about those functions, over whole runs.

**Concurrency.**  In `Registry.dfy` every thread (publisher session, RTSP listener, reloader) has a
program counter.  One step is one atomic operation, one lock acquisition, or one section under an
exclusive lock; any thread may step at any time, and threads are spawned without bound.  Memory is
sequentially consistent.  `VideoGate.dfy` treats the publisher's atomic operations one by one
against a listener loop that reads shared state one load at a time, on a broadcast log with a
bounded ring.

**Parameters.**  Clocks, timers, the network, the encoder's verdicts and the file with the
blacklist are parameters of the operations or free choices of the environment.  A socket is the
list of the writes made to it.  A negative integer stands for a clock value that is not a safe
non-negative integer.  Token counts, budgets and millisecond clocks are reals.

**Claims that do not hold as they stand.**  A listener's stream stays decodable (every live frame
sent is a keyframe or directly follows the one sent before) only if two things are atomic that are
not.  If a new session claims the channel while an earlier session's guard is still being dropped
(`server/src/websocket.rs:107-109`: `streamer` is cleared before `video_active`), or if a publisher
runs between the loads at the head of a listener's loop (`server/src/rtsp.rs:867-887`: the epoch,
then the two flags of `sync_state`), a frame can be skipped without the listener noticing.
`VideoGateSafety.OverlapFails`, `VideoGateSafety.SplitHeadFails` and `VideoGateSafety.SplitLoadsFails`
are such runs.  `VideoGateSafety.ForwardsIffAtomic` shows that nothing else is needed: publishers may
run between the receive of a frame, the two loads that judge it, and its handling.
`VideoGateSafety.UndisturbedRunsForward` says the same of a single run: if neither interleaving
happens in it, its stream is decodable.

A session refused at the streamer limit clears the channel's streamer flag and wakes nobody
(`server/src/websocket.rs:203-213`).  A listener that has read the flag since the session claimed it
waits on, with the wrong picture, until some other event comes: `VideoWakeups.RefusalLeavesAsleep`.
`VideoWakeups.AwakeIffNoneRefused` shows that refusals are the only cause.

When the video worker has no new source frame it encodes the canvas again, which should hold the
last source frame.  Reconfiguration assigns the canvas its size (`client/scripts/video-worker.js:606-607`),
which erases it, while `renderedSourceFrame` stays set.  `Pacing.BlankIsRepeated` is a run that encodes
the blank canvas; `Pacing.ReconfigureHarmlessIff` shows that a reconfiguration does no harm exactly if
no source frame has been rendered when it ends, or the worker is closed.

An address gets at most twice its maximum of HTTP requests in any one window length (for a maximum
of three or more) only if clock readings reach the table in order, to within one tick, and they need
not: `server/src/limits.rs:132-136` reads the clock before it locks the table.  `HttpWindows.AtMost`
bounds the requests for readings at most `d` out of order, and `HttpWindows.AtMostIff` shows that
the bound is exact.

The code at `server/src/rtsp.rs:1850-1855` re-anchors the timeline after 30 minutes;
`MediaTime.OneOffset` shows that this never changes an output while no bound is reached.

## Model

| member | source | states |
|---|---|---|
| BanTable.StreamerIpBans.constructor | server/src/main.rs:189-193 | no bans at the start |
| BanTable.StreamerIpBans.StreamerIpIsBlocked | server/src/main.rs:512-519 | blocked iff the IP has a recorded ban or some ID overflowed |
| BanTable.StreamerIpBans.BlockStreamerIpIfBlacklisted | server/src/main.rs:521-547 | answers whether the ID is listed, and adds one ban, an overflowed ID, or nothing |
| BanTable.StreamerIpBans.ReplaceStreamBlacklist | server/src/main.rs:549-576 | keeps exactly the bans and overflowed IDs still listed and recounts the pairs; nothing if the list is unchanged |
| BanTable.BlockKeeps | server/src/main.rs:537-546 | a new ban keeps the count equal to the number of pairs, the cap, and every stored ID listed |
| BanTable.BlockRemembers | server/src/main.rs:534-546 | a ban of a listed ID is remembered as a pair or by its ID, and no ban is forgotten |
| BanTable.RetainKeeps | server/src/main.rs:559-574 | a reload keeps exactly the bans whose ID is still listed, and the table well formed |
| BanTable.RunRefines | README.md:94-98 | in every run the bounded table refines the unbounded relation of all standing bans, within the cap |
| BanTable.BlockedMeans | README.md:94-98 | an IP is reported blocked iff one of its bans stands or some ID overflowed |
| BanTable.ExactIffNoOverflow | README.md:98 | the answer is right for every IP iff no ID overflowed |
| BanTable.EmptyListReleasesAll | README.md:94 | an empty list releases every IP |
| BanTable.OverflowsIffFull | server/src/main.rs:537-546 | after any run an attempt makes an ID overflow iff the ID is listed, its ban is new and 65,536 bans are recorded |
| BanTable.ExactWhileRoom | README.md:98 | in every run with fewer than 65,536 bans standing at each attempt no ID overflows, and the answer is right for every IP |
| RegistrySafety.RemovalIsSafe | server/src/main.rs:772-788 | when cleanup removes a channel no other thread relies on it |
| RegistrySafety.StepKeeps | server/src/main.rs:745-788 | every step of every thread keeps the registry invariant |
| RegistrySafety.UsedIsMapped | server/src/main.rs:745-788 | in every run a channel object with a streamer or listeners is the one mapped under its key |
| RegistrySafety.NoLeak | server/src/main.rs:772-788 | a mapped channel with neither is still owed a cleanup; with no guard or operation left the map is empty |
| RegistrySafety.OneStreamerPerKey | server/src/websocket.rs:191-213 | at most one session per key lies between its compare-exchange and its store(false) |
| RegistrySafety.TotalCounts | server/src/rtsp.rs:1939-1945 | the channels' listener counts add up to the number of listening threads |
| RegistrySafety.CountersAreSafe | server/src/rtsp.rs:430-454 | no counter underflows, every non-zero limit holds (connections, streamers, listeners in all and per stream), and the channels' listeners never exceed the global count |
| KickSafety.NoKickedSessionEscapes | server/src/websocket.rs:105-117 | a session the reload found streaming, torn down while its ID is still listed, leaves its IP blocked |
| KickSafety.ListedSessionsAreNotified | server/src/main.rs:582-601 | with no reload under way every streaming session with a listed ID has a notification waiting |
| KickSafety.WakesHaveCause | server/src/main.rs:582-601 | in every run each wake of a session answers a notification of its channel that no other wake has answered |
| KickSafety.PassEnds | server/src/main.rs:582-601 | whatever the threads do meanwhile, a pass over a list of n IDs ends after at most 2n + 2 steps of the reloader |
| AdmissionSafety.BannedStaysOut | server/src/websocket.rs:168-176 | in every run: while an IP stays banned, none of its threads that is outside gets in, and none that is not streaming goes on air |
| AdmissionSafety.KickedStaysOut | server/src/websocket.rs:244-248 | a publisher the reload found streaming and that has been torn down: while its ID stays listed, no thread of its IP gets in or on air again, under whatever ID |
| AdmissionSafety.FoundStaysOut | server/src/main.rs:582-601 | the same from the reloader's load that finds the session streaming, once the session has left its channel |
| AdmissionSafety.DecidedRightly | server/src/websocket.rs:159-213 | in every run each admission and each refusal has its cause in the state where it is decided: the list, a ban, a limit reached by that many threads, another session of the key; a listed ID is remembered |
| VideoGate.VideoRtpTrack.Resync | server/src/rtsp.rs:695-699 | starts again at the end of the log, keyframe and state forgotten |
| VideoGate.VideoRtpTrack.SyncState | server/src/rtsp.rs:701-742 | a state read that differs from the last one makes the track wait for a keyframe, and sends the placeholder picture configured for it unless those are suppressed |
| VideoGate.VideoRtpTrack.Receive | server/src/rtsp.rs:837-846 | the next message, or that the ring has lapped the receiver |
| VideoGate.VideoRtpTrack.HandleEvent | server/src/rtsp.rs:744-830 | lag, wake, expired backlog, a state read as not live, and frames before the keyframe are not forwarded; everything else is |
| VideoGateSafety.AtomicRunsForward | server/src/rtsp.rs:866-898 | without overlap and with an undivided loop head every run forwards a decodable stream, for any ring size and however the handling of events is interleaved |
| VideoGateSafety.LiveIsComplete | server/src/rtsp.rs:755-806 | over any continuation of a run in which the listener keeps up, the epoch stands and every flag is read as set, publishers running between any two loads, exactly the frames handled are sent, and none is missed |
| VideoGateSafety.JumpsToLive | server/src/rtsp.rs:755-773 | after a new epoch, a lag, or a frame judged late with others waiting, nothing is sent by that step and nothing older ever after |
| VideoPlaceholders.PictureStands | server/src/rtsp.rs:701-742 | in every run a listener that has been told of a state with a configured picture was sent that picture last |
| VideoPlaceholders.PictureIffNews | server/src/rtsp.rs:710-724 | a picture is sent exactly where the state is read, if it is news to the listener since the last wake-up, new epoch or live frame, and configured and not suppressed; it is the picture of the state read |
| VideoPlaceholders.LiveIsSent | server/src/rtsp.rs:774-806 | pictures aside, the output is the live frames sent, in order |
| VideoWakeups.RestShowsState | server/src/websocket.rs:105-117 | in every run without a refused session, a listener with nothing to receive and no message on its way has been told the state the channel is in, and was sent its picture last |
| VideoWakeups.RefusalLeavesAsleep | server/src/websocket.rs:203-213 | a run in which a refused session leaves a listener waiting with an outdated state |
| VideoWakeups.AwakeIffNoneRefused | server/src/main.rs:732-743 | whatever is interleaved, no listener ever sleeps on an outdated state iff no session is refused after its claim |
| VideoGateSafety.KeyframeStarts | server/src/rtsp.rs:755-806 | handling a keyframe read as live, and not late with more queued, starts such a continuation |
| VideoGateSafety.OverlapFails | server/src/websocket.rs:105-117 | a run in which a session overlaps an earlier guard's drop and a frame is lost |
| VideoGateSafety.SplitHeadFails | server/src/rtsp.rs:866-898 | a run in which a publisher runs between the epoch read and the state check and a frame is lost |
| VideoGateSafety.SplitLoadsFails | server/src/rtsp.rs:1676-1684 | a run in which a publisher runs only between the two loads of the state check and a frame is lost |
| VideoGateSafety.ForwardsIffAtomic | server/src/rtsp.rs:695-830 | every run is decodable iff none of the three can happen |
| VideoGateSafety.UndisturbedRunsForward | server/src/rtsp.rs:866-898 | any single run in which no claim meets an unfinished drop and no publisher acts inside the loop head is decodable |
| AnnexB.FindH264StartCode | server/src/media.rs:231-245 | finds the first three- or four-byte start code, with its length |
| AnnexB.NextStartMeans | server/src/media.rs:231-245 | it is the least one; none found means there is none |
| AnnexB.NalsAreNonEmpty | server/src/media.rs:204-210 | an empty NAL unit is never reported |
| AnnexB.JoinSplit | server/src/media.rs:193-223 | joining what the scanner splits off gives back every byte |
| AnnexB.PartsAreSeparable | server/src/media.rs:193-223 | what it splits off holds no start code and can be told apart again |
| AnnexB.SplitJoin | server/src/media.rs:193-223 | it finds exactly the parts of any separable joining |
| AnnexB.ScanJoined | server/src/media.rs:193-223 | and hence exactly their non-empty NAL units |
| AnnexB.ScanIsUnique | server/src/media.rs:193-223 | its split is the only separable one |
| AccessUnit.ForEachH264Nal | server/src/media.rs:193-223 | calls any visitor on exactly the NAL units in order, up to the first failure |
| AccessUnit.InspectH264AccessUnit | server/src/media.rs:115-155 | the verdict, with the reason that comes first |
| AccessUnit.VerdictMeans | server/src/media.rs:115-155 | what each verdict says of the bytes: every reason holds of the unit it is given for, and an accepted unit has none of the defects |
| AccessUnit.AcceptedMeans | server/src/media.rs:115-155 | exactly which access units are accepted, and when the single-NAL mark is set |
| Rtp.ParseEncodedAll | server/src/rtsp.rs:1458-1478 | every packet sequence parses back from its interleaved bytes |
| H264Rtp.AccessUnitReceived | server/src/rtsp.rs:1345-1405 | depacketising gives back exactly the NAL units |
| H264Rtp.MarkerOnLastOnly | server/src/rtsp.rs:1316-1342 | the marker is on the last packet of an access unit and on no other |
| H264Rtp.AccessUnitFits | server/src/rtsp.rs:1345-1405 | payloads have 1 to 1200 bytes, and no fragment is both first and last |
| H264Rtp.FewestPackets | server/src/rtsp.rs:1345-1405 | a NAL unit of up to 1200 bytes is one packet; a longer one is cut behind its header into pieces of 1198 bytes, of which only the last may be shorter |
| RtpWriter.RtpState.RecordPacket | server/src/rtsp.rs:1808-1812 | sequence number and both counters advance, modulo their widths |
| RtpWriter.RtpState.AdvanceBy | server/src/rtsp.rs:1803-1806 | the timestamp advances as well |
| RtpWriter.RtpPacketWriter.PushRtpInterleavedHeader | server/src/rtsp.rs:1458-1478 | appends the sixteen header bytes |
| RtpWriter.RtpPacketWriter.FlushH264Packets | server/src/rtsp.rs:1424-1430 | writes the buffer whole, if there is anything in it |
| RtpWriter.RtpPacketWriter.FlushH264BatchIfFull | server/src/rtsp.rs:1407-1417 | flushes iff the next packet would not fit; the output stays the same |
| RtpWriter.RtpPacketWriter.AppendVideoPacket | server/src/rtsp.rs:1378-1400 | exactly one packet is added, and every write holds whole packets within the limit |
| RtpWriter.RtpPacketWriter.FuPayload | server/src/rtsp.rs:1369-1385 | a fragment: the type in the FU header, start and end marked, the indicator's type 28 |
| RtpWriter.RtpPacketWriter.SendH264Nal | server/src/rtsp.rs:1345-1405 | one packet, or FU-A fragments of at most 1200 bytes |
| RtpWriter.RtpPacketWriter.TakeNal | server/src/rtsp.rs:1321-1334 | one turn of the loop: a waiting NAL unit is sent when another one takes its place |
| RtpWriter.RtpPacketWriter.SendAllButLast | server/src/rtsp.rs:1319-1335 | the loop leaves exactly the last NAL unit waiting |
| RtpWriter.RtpPacketWriter.SendEachNal | server/src/rtsp.rs:1319-1342 | all NAL units found, the marker on the last |
| RtpWriter.RtpPacketWriter.SendPayload | server/src/rtsp.rs:1309-1342 | the single-NAL path and the loop send the same |
| RtpWriter.RtpPacketWriter.SendH264AccessUnit | server/src/rtsp.rs:1294-1343 | bytes and sender state depend on the NAL units alone, not on batching or the fast path; each write holds whole packets within the limit; an access unit without NAL units is an error |
| RtpWriter.RtpPacketWriter.SendAac | server/src/rtsp.rs:1261-1292 | one packet, or an error if the length field cannot hold it |
| RtpRoundTrip.AccessUnitRoundTrip | server/src/rtsp.rs:1294-1405 | every accepted access unit comes back from the wire as exactly its NAL units |
| RtpRoundTrip.FastPathIsSound | server/src/media.rs:154 | the single-NAL mark meets what the fast path relies on |
| RtpRoundTrip.PacketsNumbered | server/src/rtsp.rs:1808-1812 | every field of every packet: consecutive sequence numbers modulo 2^16, the sender's timestamp, payload type 96, the video source, and the payload |
| RtpRoundTrip.AfterMeans | server/src/rtsp.rs:1802-1813 | packet and octet counts grow by exactly what was sent |
| RtpRoundTrip.SentAllIs | server/src/rtsp.rs:1294-1430 | packet by packet or all at once, the same bytes and state |
| RtpRoundTrip.AacRoundTrip | server/src/rtsp.rs:1261-1292 | an AAC unit is one packet with the sender's numbers, type 97 and the audio source, and survives iff its size fits 13 bits; the ingest bound of 4096 bytes is below that |
| RtpSession.SessionOnWire | server/src/rtsp.rs:1294-1405 | over any run of accepted access units: the bytes parse to packets numbered on from the sender's sequence number, a receiver gets back every access unit with its timestamp, and the sender's counters have grown by the packets and payload bytes parsed |
| RtpSession.AacSessionOnWire | server/src/rtsp.rs:1261-1292 | the same for any run of AAC units and silences: one packet each, with its own timestamp or 1024 samples after the one before |
| MediaTime.MediaTimestampNormalizer.Normalize | server/src/websocket.rs:76-87 | unwraps, saturating, and rescales to 48 kHz |
| MediaTime.UnwrapsIffLegible | server/src/websocket.rs:77-86 | unwrapping is exact over a run iff every step is one the 32-bit comparison reads correctly |
| MediaTime.NormalizesForward | server/src/websocket.rs:76-87 | for forward steps of at most 2^31 the outputs are floor(true * 48000 / rate) across any number of wraps |
| MediaTime.NormalizesAlways | server/src/websocket.rs:76-87 | the same without any bound at a rate of 48 kHz or more: past 64 bits the true time stands still, and no output wraps |
| MediaTime.ForwardIsMonotone | server/src/websocket.rs:85-86 | and they never decrease |
| MediaTime.BackwardFails | server/src/websocket.rs:77-81 | a step back across a wrap is read as a step forward |
| MediaTime.RtpMediaTimeline.Map | server/src/rtsp.rs:1834-1857 | epoch change, anchoring, saturation, re-anchoring |
| MediaTime.OneOffset | server/src/rtsp.rs:1834-1857 | within an epoch every output is that of source + K for one K, whichever track calls and however often it re-anchors |
| MediaTime.VideoError | server/src/rtsp.rs:1879-1883 | the error of the way through 48 kHz depends on the offset alone, within two ticks |
| MediaTime.VideoStep | server/src/rtsp.rs:1879-1883 | two video outputs differ as the 90 kHz times do, within two ticks (three if a play time is negative) |
| MediaTime.NoDrift | server/src/rtsp.rs:1833-1884 | over a run of both tracks audio differences are exact modulo 2^32 and video differences are within two ticks |
| MediaTime.ChainKeepsDistance | server/src/websocket.rs:76-87 | the same from the publisher's interleaved 32-bit timestamps on, through one normalizer a track and one timeline that hears any part of the frames |
| MediaTime.EpochStartsNow | server/src/rtsp.rs:1834-1857 | over runs of several epochs the first output of each is the listener's own play time, and every later one is as far from it as the sources are |
| MediaTime.TakesOver | server/src/rtsp.rs:1868-1884 | where live video takes over from a placeholder its timestamp is the listener's own, or one or two ticks behind; audio is exact |
| TokenBuckets.TokenBucket.AllowAt | server/src/limits.rs:93-120 | refills, admits iff the units fit, and charges only what it admits; no rate or no burst admits nothing |
| TokenBuckets.NewIsFresh | server/src/limits.rs:75-82 | whenever a bucket was made, its first request finds it full |
| TokenBuckets.TokensWithin | server/src/limits.rs:93-120 | no window of a run leaves less than the tokens |
| TokenBuckets.TightWindow | server/src/limits.rs:93-120 | some window leaves exactly the tokens |
| TokenBuckets.AdmittedIff | server/src/limits.rs:93-120 | the tokens are the minimum over all windows; a request is admitted iff every window has room |
| TokenBuckets.AllAdmittedIff | server/src/limits.rs:93-120 | all requests are admitted iff every window of requests fits capacity plus rate times its length |
| TokenBuckets.NoTrace | server/src/limits.rs:115-119 | rejected requests leave no trace: without them the same ones are admitted |
| AudioBudget.AudioSendBudget.ConsumeAudioSendBudget | client/scripts/streamer.js:436-447 | the sender's budget is a token bucket of 48000 bytes per second and 48000 bytes |
| AudioBudget.Conforms | client/scripts/streamer.js:436-447 | traffic shaped by one bucket is admitted by another with room for the delay variation |
| AudioBudget.SenderConforms | server/src/websocket.rs:361-407 | what the client's budget admits, delivered in order with up to four seconds of delay variation, passes the soft and the hard AAC byte bucket |
| AudioBudget.ConformsIff | server/src/main.rs:62-66 | four seconds is exact: audio messages of the sizes the server accepts all pass the soft bucket iff their delay varies by at most that |
| AudioBudget.LateTrafficFails | server/src/media.rs:46-52 | with any more variation, sixty messages of 4000 bytes and one of 9 that the client's budget admits are not all admitted |
| IpLimits.IpLimitTable.PruneIfDue | server/src/limits.rs:33-44 | once a window, drops the entries that are idle and hold no guard |
| IpLimits.IpLimitTable.FindEntry | server/src/limits.rs:46-54 | finds or inserts an entry, unless the table is full |
| IpLimits.IpLimitTable.AllowHttpRequest | server/src/limits.rs:127-152 | fixed windows per address |
| IpLimits.IpLimitTable.TryAcquireIp | server/src/limits.rs:223-255 | a guard, no limit, a full table, or the limit reached |
| IpLimits.IpLimitTable.DropGuard | server/src/limits.rs:263-276 | one guard less, saturating |
| IpLimits.DropAgrees | server/src/limits.rs:270-273 | the saturating subtraction never clips |
| IpLimits.GuardedIff | server/src/limits.rs:237-255 | a guard is granted iff the address has an entry and holds fewer live guards than the limit; no live guard is ever without an entry |
| IpLimits.CountsAreLiveGuards | server/src/limits.rs:223-276 | over every run each entry counts exactly the live guards of its address, within the limits, in at most 8192 entries |
| HttpWindows.AtMost | server/src/limits.rs:127-152 | with clock readings at most d out of order at the lock, at most n times the maximum in any half-open interval too short to meet n + 1 windows, pruning and eviction notwithstanding |
| HttpWindows.AtMostTwice | server/src/limits.rs:127-152 | at most twice the maximum in any half-open interval of one window length less d; with readings in order, of one window length |
| HttpWindows.AtMostIff | server/src/limits.rs:127-152 | for a maximum of three or more that bound is exact: it holds over all runs for an interval length iff length + d is at most (n - 1) windows and one tick |
| HttpWindows.DenialHasCause | server/src/limits.rs:127-152 | after any run, with readings at most d out of order, a request is denied only if the table is full or the address has had its maximum within the last window length, give or take d |
| HttpWindows.IdleEntriesLeave | server/src/limits.rs:33-44 | after every look-up of a run, an entry without a guard belongs to an address with an event less than three window lengths ago, give or take d |
| HttpWindows.RecentEntriesStay | server/src/limits.rs:33-44 | an entry outlasts all events of the two window lengths after it was last seen |
| Pacing.VideoWorker.ScheduleNextFrame | client/scripts/video-worker.js:327-334 | the next index, after the last one and not before the media time |
| Pacing.VideoWorker.SyncAudioClock | client/scripts/video-worker.js:268-281 | the audio clock only moves forward |
| Pacing.VideoWorker.RepairTimestamp | client/scripts/video-worker.js:351-355 | the repair loop ends after at most one step, with an increasing timestamp |
| Pacing.VideoWorker.SubmitFrame | client/scripts/video-worker.js:287-320 | a keyframe iff one is forced or due; only an encoded frame settles that and is drawn on the canvas, a dropped or failed one changes nothing |
| Pacing.VideoWorker.DrawFrame | client/scripts/video-worker.js:359-373 | chooses a buffered source frame, the placeholder or the last picture, and takes a source frame off the buffer even if it is then dropped |
| Pacing.VideoWorker.RunPacing | client/scripts/video-worker.js:336-378 | offers a frame iff one is due: its timestamp, what it shows, whether it is a keyframe, and whether it was encoded; an encoder that throws closes the worker |
| Pacing.VideoWorker.OnSourceFrame | client/scripts/video-worker.js:399-413 | keeps the last two source frames; the first one after a placeholder forces a keyframe |
| Pacing.VideoWorker.EnterPlaceholder | client/scripts/video-worker.js:391-397 | empties the source buffer, shows the placeholder, forces a keyframe |
| Pacing.VideoWorker.Resume | client/scripts/video-worker.js:715-718 | output starts again with a forced keyframe |
| Pacing.VideoWorker.TransportPause | client/scripts/video-worker.js:719-721 | stops the timer and holds output |
| Pacing.VideoWorker.TransportResume | client/scripts/video-worker.js:722-725 | releases it with a forced keyframe |
| Pacing.VideoWorker.PauseForReconfigure | client/scripts/video-worker.js:589-590 | output is paused and the timer cleared while the previous encoder is flushed |
| Pacing.VideoWorker.FailReconfigure | client/scripts/video-worker.js:612-617 | a failed reconfiguration resumes the current output |
| Pacing.VideoWorker.FinishReconfigure | client/scripts/video-worker.js:597-610 | the last index is recomputed for the new frame rate, the canvas is erased, and a keyframe is forced |
| Pacing.RepairOnce | client/scripts/video-worker.js:346-355 | past the last frame a timestamp is at least the last one, and the next is greater |
| Pacing.NextKeeps | client/scripts/video-worker.js:257-378 | every event keeps the pacing invariant |
| Pacing.NeverStalls | client/scripts/video-worker.js:268-389 | at the end of any run whose clock readings are in order, and at any time after it, the timer is set unless output is stopped, there is nothing to show, or the clock is not fresh |
| Pacing.StartsTicking | client/scripts/video-worker.js:620-648 | so it is at the start |
| Pacing.ForcedIsNext | client/scripts/video-worker.js:300-320 | over every run a forced keyframe is not lost: the first frame encoded after it is a keyframe, however many are dropped before |
| Pacing.BlankIsRepeated | client/scripts/video-worker.js:606-607 | a run of the worker that encodes the canvas again, as a repeat of source frame 7, after a reconfiguration has erased it |
| Pacing.ReconfigureHarmlessIff | client/scripts/video-worker.js:597-610 | over all runs that go on from a reconfiguration every repeat encoded holds the last source frame encoded, iff no source frame has been rendered when it ends or the worker is closed |
| Pacing.KeptIsRepeated | client/scripts/video-worker.js:287-298 | over every run in which each reconfiguration meets that condition, a repeat encoded holds the last source frame encoded |
| Pacing.OfferIsNear | client/scripts/video-worker.js:346-358 | an offered timestamp is within 100 ms, one frame period and half a microsecond of the audio clock |
| Pacing.PacingIsSafe | client/scripts/video-worker.js:257-378 | over every run offered timestamps strictly increase and stay near the clock |
| PacingHistory.HistoryDecides | client/scripts/video-worker.js:257-425 | over every run each offer is what the events so far demand: the frame that is due, the source frames in order and each at most once, the oldest not pushed out, a placeholder or a repeat only without one, a keyframe iff forced or its interval is over |
| PacingHistory.HistoryKeepsTime | client/scripts/video-worker.js:268-389 | over every run with clock readings in order the timer is set while nothing stops output, something can be shown and the clock has moved within 100 ms; no event but the timer's own sets it otherwise |
| PacingHistory.StartAgrees | client/scripts/video-worker.js:620-648 | so it is from the start |
| RateControl.VideoRateControl.BlockedMinimum | client/scripts/video-worker.js:38-44 | the block ends when its time is over |
| RateControl.VideoRateControl.ResetTo | client/scripts/video-worker.js:22-36 | full allowance, empty history, initial quantizer or the kept block |
| RateControl.VideoRateControl.Submit | client/scripts/video-worker.js:46-51 | remembers the quantizer of the frame |
| RateControl.VideoRateControl.SetQuantizer | client/scripts/video-worker.js:53-59 | clamps to 18..51 and to the block |
| RateControl.VideoRateControl.FindSlot | client/scripts/video-worker.js:62 | the first slot that holds the timestamp |
| RateControl.VideoRateControl.Record | client/scripts/video-worker.js:61-78 | charges the frame and blocks its quantizer on overflow |
| RateControl.VideoRateControl.Update | client/scripts/video-worker.js:80-91 | recovers by two steps when the rate has been low for a second |
| RateControl.ResetInRange | client/scripts/video-worker.js:22-36 | a reset starts in 18..51 and at or above the block |
| RateControl.NextInRange | client/scripts/video-worker.js:16-92 | the quantizer stays in 18..51 and at or above the block |
| RateControl.OverflowHolds | client/scripts/video-worker.js:69-77 | for 15 s after a frame of quantizer q overflows, every submitted frame uses a quantizer above q, or 51, unless a reset drops the block |
| RateRecovery.OverflowsIffWindow | client/scripts/video-worker.js:61-77 | after a reset no frame overflows iff every window of frames fits the burst and the budget times its length |
| RateRecovery.OverflowsAgainIff | client/scripts/video-worker.js:61-77 | after an overflow none follows iff every window fits and all frames since fit what the budget has added since |
| RateRecovery.BlockEnds | client/scripts/video-worker.js:38-44 | 15 s after the last overflow no quantizer is blocked any more |
| RateRecovery.SmoothedBetween | client/scripts/video-worker.js:80-83 | the smoothed rate moves towards the measured one and not past it |
| RateRecovery.SmoothedIsAverage | client/scripts/video-worker.js:80-83 | it is the average of itself over two seconds and the measured rate over the time elapsed |
| RateRecovery.Recovers | client/scripts/video-worker.js:80-91 | over a run of low rates the quantizer comes down by two a second to 18 or 19, and no further |
| RateRecovery.QuantizerDecides | client/scripts/video-worker.js:22-91 | over every run each event makes of the quantizer what the past overflows, the measured rates and the last change demand: raised just above the blocked ones, lowered by two only under a low rate, a second after the last change and never into the block, else left alone |
| RateRecovery.ResetAgrees | client/scripts/video-worker.js:22-36 | so it is from the first reset on |
| QuantizerHistory.ResetStarts | client/scripts/video-worker.js:34-35 | a reset starts an empty history |
| QuantizerHistory.OwnQuantizer | client/scripts/video-worker.js:61-64 | a frame among the last 64 submitted, not yet recorded, is charged to its own quantizer |
| QuantizerHistory.OtherQuantizer | client/scripts/video-worker.js:61-64 | any other timestamp is charged to the current quantizer |
| QuantizerHistory.HistoryIsRight | client/scripts/video-worker.js:46-64 | over every run with strictly increasing timestamps |
| QuantizerHistory.OwnOverflowHolds | client/scripts/video-worker.js:61-77 | after any run, for 15 s after one of the last 64 frames overflows every submitted frame uses a quantizer above the one that frame was submitted with, or 51, unless a reset drops the block |
| AvcRecord.ReadParameterSets | client/scripts/video-worker.js:165-172 | reads the counted entries, never out of range |
| AvcRecord.Assemble | client/scripts/video-worker.js:183-193 | fills a buffer of the exact size with four-byte start codes and parameter sets |
| AvcRecord.AvcDescriptionToAnnexB | client/scripts/video-worker.js:158-194 | the converted parameter sets, or nothing |
| AvcRecord.RecordRead | client/scripts/video-worker.js:158-182 | every well-formed record gives back its SPS and PPS in order |
| AvcRecord.AcceptedIsRecord | client/scripts/video-worker.js:158-182 | whatever is accepted is the bytes of a well-formed record |
| AvcRecord.ConvertsIffRecord | client/scripts/video-worker.js:158-182 | parameter sets are found exactly in well-formed records |
| AvcRecord.ScansBackIffClean | server/src/media.rs:193-245 | the server's scanner gives back exactly the non-empty parameter sets iff none contains 00 00 01 |
| AvcRecord.ParameterSetsArrive | client/scripts/video-worker.js:158-194 | from the encoder's record to the server in one statement |
| AudioCapture.CaptureProcessor.CopyFrames | client/scripts/audio-worklet.js:95-107 | clamped, interleaved frames go behind what is there |
| AudioCapture.CaptureProcessor.FillBlock | client/scripts/audio-worklet.js:93-119 | fills as far as the quantum goes and posts a full block |
| AudioCapture.CaptureProcessor.Process | client/scripts/audio-worklet.js:83-122 | the same as feeding the quantum frame by frame |
| AudioCapture.FillIsFeeding | client/scripts/audio-worklet.js:92-110 | filling many frames at once is feeding them one by one |
| AudioCapture.NothingIsLost | client/scripts/audio-worklet.js:83-122 | posted blocks and the partial one are exactly the clamped, interleaved input, for any quantum and block sizes |
| AudioCapture.CapturesInput | client/scripts/audio-worklet.js:83-122 | sample by sample: each input sample is in its place, cut off at -1 and 1; a missing second channel repeats the first |
| AudioCapture.BlocksOnTime | client/scripts/audio-worklet.js:93-119 | over contiguous quanta consecutive block timestamps differ by exactly the block size |
| AudioCapture.BlocksStamped | client/scripts/audio-worklet.js:93-119 | whatever quanta come, contiguous or not, each block carries the time of its own first frame |

## Left out

- Weak memory: atomics with acquire and release ordering are sequentially consistent steps.
- `usize` wrap-around of the epoch and of the counters; `saturating_add` at `usize::MAX`.
- Floating point: token counts, bit budgets and clocks are reals; `Math.round` is floor(x + 1/2).
- Write errors and cancellation inside a write: a failed write ends a listener's run.
- The IP guards, password, origin and HTTP checks of a new session, in `Registry.dfy`; the guards are in `IpLimits.dfy`.
- VideoGate.VideoRtpTrack.HandleEvent: the expiry of a backlog is a free choice; once a frame has been judged it is handled in one step, as the epoch is read and the receiver moved to the live edge in one.
- VideoGateSafety.UndisturbedRunsForward: the greeting of a session after it is counted is one step.
- VideoWakeups.AwakeIffNoneRefused: audio events, silence and reports, which also lead a listener back to the head of its loop, may come at any time but need not.
- VideoGateSafety.ForwardsIffAtomic: the failing runs need a ring of at least two messages; for a ring of one only the positive half is stated.
- The packets of a placeholder picture, which go out as any access unit does, and sender reports.
- RtpWriter.RtpPacketWriter.SendAac: of the AAC checks only the size bound of `server/src/media.rs:51` is used; the ADTS and signature checks are not.
- RtpRoundTrip.AccessUnitRoundTrip: the receiver rejects lost or reordered packets; the connection is reliable and ordered.
- MediaTime.NoDrift: play times and their products stay within the 64-bit bounds; where the code saturates, `Map` says what it does.
- MediaTime.ChainKeepsDistance: within the same bounds, for tracks that start below 2^32 and step forward by at most 2^31, the steps that `NormalizesForward` is about.
- AudioBudget.SenderConforms: about the byte buckets; the frame-rate buckets, which the client does not shape for, may still reject.
- PacingHistory.HistoryDecides: says what an offer must be; that offers keep coming is Pacing.NeverStalls.
- RateRecovery.OverflowsIffWindow: from a reset to the first overflow; `RateRecovery.OverflowsAgainIff` goes on from there.
- Pacing.PacingIsSafe: one session of the worker; whether the encoder takes, drops or fails a frame is a free choice.
- Pacing.VideoWorker.DrawFrame: the drawing itself, the frame's duration, and the counters shown to the user.
- Pacing.KeptIsRepeated: a source frame that the encoder fails on closes the worker, so what it leaves on the canvas does not matter.
- Pacing.VideoWorker.FinishReconfigure: the exchange of the encoder and the new bit rate; `RateControl.VideoRateControl.ResetTo` is the reset of the quantizer control.
- HttpWindows.AtMostIff: for a maximum of one or two, and for a disorder of more than half a window, only the bound of AtMost is stated.
- Pacing.VideoWorker.RunPacing: the frame rate is at most one million, far above the 65535 that can be configured.
- RateControl.VideoRateControl.ResetTo: the fields that JavaScript leaves undefined before the first reset have arbitrary values.
- AudioCapture.CaptureProcessor.Process: two channels, as the client configures; the monitor output is not modelled.
- RTSP text parsing, SDP, URIs, CORS, the encoder, the audio codec, the user interface, storage.
