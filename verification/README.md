# Two-way radio: a verified model of the radio engine

The repository is a push-to-talk radio server in Go with a browser client. This project models its radio engine and the
browser code that shares its protocol, and proves what the parts promise together.

The model has four parts.

- **Hub and floor control** (`Hub*.dfy`, `Floor.dfy`, `Roles.dfy`, `Recorder.dfy`, `Archive.dfy`, `FileNames.dfy`,
  `Clients.dfy`). Every hub handler is one atomic step on channels, clients, floors, recorder, video presence and chat
  history. `HubCore` says what a handler changes, `HubMail` what it sends, `HubLog` what an observer of the broadcasts
  can conclude. `HubRuns` and `HubSystem` put the steps into one state machine, and `HubArchive` adds what is on disk.
  `HubNews` tells from the states alone what a step announces, `HubOffers` and `HubInbox` what every client is sent.
  `HubGrants`, `HubVideo` and `HubRoster` tell from the events whose keying is recorded, which video is on, and who is
  there under what name.
  The class `Hub.Hub` computes each step, with the source's loops where it broadcasts, searches a free number or builds
  the channel list, and keeps all invariants. Its recorder is an `AudioRecorder` object; floors and clients are values
  in its maps, updated by the functions that the classes `Floor.Channel` and `Clients.Client` are proved to compute.
- **Lock-level interleavings** (`Timing.dfy`, `Pumps.dfy`). Timers are armed, in flight (fired, waiting for the lock) or
  done, and there is a clock. `HubTiming.dfy` shows that every hub handler takes at most one lock section of each
  channel and carries the time-out bound over to timed runs of the whole hub. The two outgoing queues run with any
  number of producers, one consumer and `Close`, one channel operation at a time.
- **Codecs and a keying in the browser** (`Protocol.dfy`, `Wav.dfy`, `AudioSession.dfy`, `AudioEngine.dfy`, `Roip.dfy`).
  The Go packet encoder and parsers, the JavaScript builder in 32-bit arithmetic, the WAV writer against a RIFF reader
  written from the format, the pre-buffer/live/stop machine over one reused PCM buffer, and the UDP gateway.
  `EndToEnd.dfy` joins them: what the browser captures is what the WAV file holds.
- **Video calls** (`Glare.dfy`, `VideoCall.dfy`). Offer collisions between two browsers: the offer, rollback and answer
  handlers over the signalling states of RFC 8829, section 3.2. One browser's handlers for all six video messages, and
  what becomes of its ICE candidates.

Conventions. The clock is an argument, read once per handler, in nanoseconds for the recorder. The result of a disk
write, the rollback's success and the first key of a range over a map are arguments or nondeterministic choices. Go maps
and sets are iterated in any order. Strings are sequences of characters, where Go measures bytes. Identifiers of
clients are unique: `HubRuns.Enabled` asks it of a new connection. `totDuration <= 0` means no time-out timer. The
browser's `sendPacket` callback is set.

## What turned out false, and exactly when the code is right

- A timer that has fired is not stopped by `cancelTOT`. `Timing.StaleTimerIffStopLoses` says that a stale callback stays
  behind exactly when `Stop` loses the race, `Timing.LostRaceExpelsNextSpeaker` lets it expel the next speaker at once,
  and `Timing.LostRaceHappens` is a run of six steps in which it does. The upper bound on holding the floor holds
  regardless.
- With an empty channel configuration, placement breaks at the first channel created (`HubRuns.EmptyHubLosesPlacement`).
  Clients stay subscribed where they are in all runs exactly if a channel is configured
  (`HubRuns.SubscriptionHoldsIffConfigured`). The shipped configuration hard-codes eight channels
  (`internal/config/config.go:44`, taken at `cmd/server/main.go:65`); only another caller of `NewHub` can pass none.
- Files on disk and recordings in the list can part, in two ways. A callsign with a separator, which the hub accepts
  (`internal/radio/hub.go:195-200`), can take its file out of the storage directory
  (`FileNames.OneSeparatorLandsElsewhere`), and evicting a recording deletes the file of every recording of the same
  name. One ending keeps disk and list in step exactly when its file lands in the directory and no recording it evicts
  shares its name with one that stays (`Recorder.RecordingKeepsArchiveIff`); in all runs they match exactly as long as
  every file landed there and no listed recording has lost its file that way (`HubArchive.RunKeepsArchiveIff`). For
  callsigns without a separator, names agree exactly when channel, callsign and second do (`FileNames.NamesCollideIff`),
  so these conditions are about keyings (`Archive.RecordingKeepsArchiveIffNoNamesakeEvicted`,
  `HubArchive.RunLosesFileIffNamesakeEvicted`), and distinct keyings are enough (`HubArchive.RunKeepsArchive`).
  `Archive.SecondTakeLosesItsFile` is an input where a file is lost.
- A full queue is no guarantee that the newest frame gets in. Between a call's eviction and its retry other calls can
  fill the gap; the call then drops its own frame after an older one was thrown away for it
  (`Pumps.RetryCanLoseBothFrames`). `Pumps.RetryQueuesIffGapRemains` says exactly when the frame is queued.
- `switchStream` may replace an unanswered offer on a connected connection. Renegotiating is safe on a stable
  connection; on the higher peer only then (`Glare.RenegotiationIsSafeIffStable`), on the lower one also if the next
  message to it is the higher peer's own offer (`Glare.LowerRenegotiationIsSafeIff`).
- ICE candidates that arrive ahead of a connection are all dropped when it is set up, by an offer, a join or the start
  of a call (`VideoCall.CandidatesAheadOfTheConnectionAreDropped`). Whatever the six video messages, the user and the
  connection do in whatever order, candidates are dropped exactly if a connection is set up, or the call ended from
  afar, while some wait (`VideoCall.CandidatesAreDroppedIffQueueIsCleared`).
- A WAV file can be read back exactly when its payload is even and the RIFF size fits (`Wav.WavRoundTrip`).
- The browser writes its channel number modulo 256: its packets are accepted exactly when the number fits in one byte
  (`HubDelivery.BrowserIsHeardIffChannelFits`).

Where code and documentation differ the model follows the code: the framing comment in `audio.js` speaks of 80 ms where
packets hold 640 samples (40 ms); the comment on `RequestFloor` omits the reason `preempted`; the repository's README
speaks of Opus audio where the payload is PCM; `getPriority` ranks the default role "Operator" with the dispatchers.

## Model

| member | source | states |
|---|---|---|
| Floor.RequestGrantedIff | internal/radio/channel.go:84-128 | The floor is granted exactly if it is idle, already held by the requester, or the requester outranks the speaker; who is displaced, and that a denial or a repeated request changes nothing |
| Floor.Channel.RequestFloor | internal/radio/channel.go:90-128 | The method computes the specified arbitration, timers included |
| Floor.Channel.RemoveSubscriber | internal/radio/channel.go:46-59 | Leaving releases the floor exactly if the leaver held it |
| Floor.Channel.ReleaseFloor | internal/radio/channel.go:132-143 | Only the speaker can release |
| Floor.Channel.HandleTOT | internal/radio/channel.go:251-257 | The callback clears whoever speaks and forgets the current timer without stopping it |
| Floor.Channel.CancelTOT | internal/radio/channel.go:244-249 | An armed timer is stopped, one in flight stays in flight |
| Floor.Channel.BroadcastAudio | internal/radio/channel.go:233-242 | Every subscriber but the sender gets the frame once |
| Roles.Ranks | internal/radio/channel.go:69-82 | The rank of every role, in any case and with any white space around it: six names rank higher, everything else ranks lowest |
| Roles.HigherRanks | internal/radio/channel.go:74-79 | Corollary: the six names have rank 3 or 2 however they are written |
| Roles.PaddingAndCaseDoNotMatter | internal/radio/channel.go:73 | Neither surrounding white space nor case changes a rank |
| Timing.RunKeepsInv | internal/radio/channel.go:90-128 | In every interleaving of lock sections, firing timers and stale callbacks, a busy channel with a time-out has a live timer of its own |
| Timing.AcquisitionArmsTimer | internal/radio/channel.go:115-125 | Whoever acquires the floor gets a timer armed at that moment |
| Timing.SameSpeakerSameTimer | internal/radio/channel.go:94-97 | While the speaker stays its timer stays, repeated requests included |
| Timing.HoldTimeIsBounded | internal/radio/channel.go:90-128 | Nobody holds the floor longer than the time-out (plus the scheduling latency), however often it presses again |
| Timing.StaleTimerIffStopLoses | internal/radio/channel.go:244-249 | A stale timer is left behind exactly by a cancellation that loses the race to the callback |
| Timing.TimeoutsHitTheirOwnGrant | internal/radio/channel.go:251-265 | If Stop always wins, a time-out expels exactly the speaker whose grant armed it, and an earlier loss has one of the four other causes |
| Timing.RunKeepsOneTimer | internal/radio/channel.go:99-125 | If Stop always wins, at most one timer per channel is live |
| Timing.LostRaceExpelsNextSpeaker | internal/radio/channel.go:244-257 | After one lost race the next speaker can be expelled at the instant of its grant |
| Timing.LostRaceHappens | internal/radio/channel.go:244-265 | A run from a new channel, for every time-out and latency, that loses the race and expels the next speaker |
| Timing.HandoverRaisesRank | internal/radio/channel.go:99-110 | The holder's rank strictly rises whenever the floor passes from one client to another |
| Timing.PreemptionChain | internal/radio/channel.go:94-113 | Between two idle moments the floor changes hands at most twice |
| HubTiming.EventIsOneSection | internal/radio/hub.go:190-823 | Every hub handler moves the floor of every channel by one lock section or not at all |
| HubTiming.NobodySpeaksTooLong | internal/radio/channel.go:90-128 | In every timed run of the hub nobody speaks longer than the time-out plus the latency after the press that got it the floor |
| HubTiming.HubPreemptionChain | internal/radio/channel.go:94-113 | In every run of the hub, while a channel stays busy and no identification changes a role, its floor changes hands at most twice |
| Clients.QueueHoldsLastFrames | internal/radio/client.go:107-128 | With one producer and no consumer a queue holds exactly the last 64 frames |
| Clients.Client.Enqueue | internal/radio/client.go:107-128 | A frame is appended, the oldest making room; nothing happens on a closed client |
| Clients.Client.EnqueuePriority | internal/radio/client.go:64-85 | The same for the priority queue |
| Clients.FramesAreTypedCorrectly | internal/radio/client.go:225-229 | Corollary of the parsers: a packet leaves as binary exactly when the server's parser accepts it, JSON always as text |
| Pumps.RunKeepsInv | internal/radio/client.go:64-143 | In every interleaving neither queue exceeds 64, nothing is sent on a closed queue, no queue is closed twice, and every frame that was put in is still queued or was removed in its turn |
| Pumps.RetryQueuesIffGapRemains | internal/radio/client.go:118-127 | In every run the frame of a call that evicted is queued at its retry if and only if the queue after the eviction, plus what was put in since, less what left since, is below its capacity |
| Pumps.UndisturbedCallIsQueued | internal/radio/client.go:118-127 | If nothing else was put in between, the frame is queued, whatever the pump does |
| Pumps.HistoryTellsThePump | internal/radio/client.go:184-241 | In every run the frames marked as consumed are exactly those the pump took, in this order |
| Pumps.RetryCanLoseBothFrames | internal/radio/client.go:118-127 | A run of two calls on a full queue that throws away the oldest frame for a frame it then drops |
| Pumps.PumpPreservesOrder | internal/radio/client.go:184-241 | What the pump takes is an in-order subsequence of what was put in |
| Pumps.PriorityInversionIsBounded | internal/radio/client.go:191-241 | While a queued priority frame waits, the pump serves something else at most once, whatever the frame's position |
| Pumps.SoloCallIsPush | internal/radio/client.go:107-128 | The fine-grained enqueue, run alone, is the specified push |
| HubRuns.RunKeepsPlacement | internal/radio/hub.go:441-527 | In every reachable state of a hub with a configured channel, subscriptions, CurrentChannelID, floors, client index and video presence agree |
| HubRuns.PlacementOfClient | internal/radio/hub.go:61-79 | A registered client is on exactly one channel and holds at most that floor; any other is on none and not indexed |
| HubRuns.EmptyHubLosesPlacement | internal/radio/hub.go:456-458 | Without configured channels the creator of channel 1 is never subscribed to it |
| HubRuns.SubscriptionHoldsIffConfigured | internal/radio/hub.go:61-79 | In all runs from a new hub every client whose channel exists subscribes to it, if and only if a channel is configured |
| HubRuns.VideoNeverDangles | internal/radio/hub.go:343-384 | A recorded video's sender is registered and subscribed to that channel, in every run; which video is recorded, and when, is HubVideo.EventsTellTheVideo |
| HubVideo.EventsTellTheVideo | internal/radio/hub.go:343-384 | In every run a channel records a video if and only if a client on it has started one and, since the latest such start, has neither stopped it nor left nor disconnected; it is recorded under that client's identifier and the callsign of that moment, and with what the client said about its screen |
| HubVideo.NewcomersSeeTheVideo | internal/radio/hub.go:103-123 | In every run a client that connects or enters a channel is shown exactly that video, and none if there is none |
| HubRoster.EventsTellNames | internal/radio/hub.go:190-216 | In every run a client is registered exactly if it has connected and not disconnected since, with the identifier it came with, the callsign it asked for last, and the last role it asked for together with a callsign |
| HubRoster.EventsTellPlaces | internal/radio/hub.go:61-79 | In every run a client that connects is on the channel of its profile, or on some channel if there is no such one; it goes to another one exactly when it asks for one that is open to it or creates one |
| HubRoster.ListAgreesWithLog | internal/radio/hub.go:927-956 | In every run an entry of the channel list is busy exactly if the latest channel_activity said so, names the user of the latest user_talking under its present callsign, and counts the registered clients on the channel |
| HubRuns.UnregisterKeepsPlacement | internal/radio/hub.go:126-154 | Disconnecting removes every trace of the client |
| HubRuns.SwitchKeepsPlacement | internal/radio/hub.go:441-527 | Switching keeps every client placed |
| HubSystem.LogTellsTheHub | internal/radio/hub.go:570-749 | After every step of every run the log alone gives busy flags, speakers, recorder buffers, the recordings list and the chat histories |
| HubSystem.StopsNameLatestTalker | internal/radio/hub.go:166-174 | Every user_stopped names the user of the latest user_talking on its channel |
| HubSystem.RecordingsAreFaithful | internal/radio/hub.go:584-730 | Every recording announced is made of its speaker's audio since the latest grant, packets past the cap skipped, complete exactly when it fits; the log keeps these payloads as the take of the recording; stale buffers are never announced |
| HubSystem.EveryStepIsSeen | internal/radio/hub.go:156-183 | What each handler logs is what the observer is told to expect |
| HubNews.EveryStepIsNews | internal/radio/hub.go:61-823 | What each step broadcasts and writes down, in order, told from the states before and after it and not from its handler: who came or went, who talks, who has stopped talking, which video has ended, which keying is recorded |
| HubInbox.EveryClientIsTold | internal/radio/hub.go:61-909 | Each step offers each client exactly its inbox: every broadcast logged for its channel or for everyone once and in the order of the log, and beyond them only what is addressed to it alone, which is spelled out from the states, and accepted audio |
| HubInbox.RunTellsEveryone | internal/radio/channel.go:211-242 | The same in every run, down to the queues: of what is offered the last 64 frames stay, and a client that its pump has closed gets nothing |
| HubInbox.RunAnswersPresses | internal/radio/hub.go:570-672 | In every run the client that pressed is sent exactly one floor status: granted if and only if it speaks then, otherwise denied with the callsign of whoever does; a displaced speaker is told once, and by whom; no other client and no other step gets a priority frame |
| HubGrants.BufferIsTheGrantees | internal/radio/recorder.go:75-90 | In every run the speaker of a busy channel is the client the latest grant went to, and the recorder's buffer carries the channel and that client's identifier, callsign and role at the time of the grant |
| HubGrants.RecordingsNameTheGrantee | internal/radio/recorder.go:143-155 | In every run a recording carries channel, callsign and role of the member the latest grant went to, as they were then |
| HubArchive.LogTellsTheDisk | internal/radio/recorder.go:117-172 | In every run, as long as all files land in the storage directory, the log tells the disk: exactly the recordings that survive have a file, and it is the WAV file of what was heard for them |
| HubArchive.SurvivesOneMore | internal/radio/recorder.go:160-169 | One more recording costs exactly those files whose recording is named like the new one or like the one it evicts |
| HubArchive.RecordsTellTheirFiles | internal/radio/recorder.go:136-155 | In every run each record gives the size of its file and, in whole tenths, the time that the sound a reader finds in it lasts |
| HubArchive.RunKeepsArchiveIff | internal/radio/recorder.go:139-169 | In every run, whatever the callsigns, disk and list match if and only if every file landed in the storage directory and no listed recording has lost its file to an evicted one of the same name |
| HubArchive.RunLosesFileIffNamesakeEvicted | internal/radio/recorder.go:139-169 | Without separators a recording has lost its file exactly if it is the latest of its channel, callsign and second and an earlier one, listed when it was made, has been evicted since |
| HubArchive.RunKeepsArchive | internal/radio/recorder.go:139-169 | If all keyings differ in channel, callsign or second, the files on disk are always exactly those listed, each holds what was heard for its recording, and it reads back if that is even |
| HubSystem.RunKeepsBoxes | internal/radio/hub.go:61-64 | Exactly the registered clients have queues, in every run |
| HubDelivery.AllCallReachesEveryoneOnce | internal/radio/hub.go:870-876 | An accepted packet with bit 2 of its flags byte set, an All-Call, is enqueued once to every registered client but the sender |
| HubDelivery.PacketReachesChannelOnce | internal/radio/hub.go:876-879 | An accepted packet without that bit is enqueued once to every other client of the channel and to nobody else |
| HubDelivery.RunDeliversOnce | internal/radio/hub.go:841-888 | Both, in every run: the packet is appended once to the queue of each receiver, the oldest frame making room; a client that its pump has closed gets nothing |
| HubDelivery.RejectedPacketChangesNothing | internal/radio/hub.go:841-859 | Corollary: a rejected packet changes no queue, buffer or log |
| HubDelivery.PacketsStayOnOwnChannel | internal/radio/hub.go:847-859 | A packet is accepted exactly if it parses, names the sender's own channel and the sender speaks there |
| HubDelivery.BrowserIsHeardIffChannelFits | internal/web/static/js/audio.js:265-279 | A speaker's browser packets are accepted exactly when its channel number fits in one byte |
| HubDelivery.GatewayReachesChannelOnce | internal/radio/hub.go:898-909 | Gateway audio reaches each client of the channel once, the speaker included |
| HubTyping.RunKeepsTyping | internal/radio/client.go:191-241 | In every run all queued audio parses and the priority queue holds only messages |
| HubTyping.QueuedFramesLeaveTyped | internal/radio/client.go:225-229 | Whatever such a queue holds leaves with its right message type |
| HubChannels.SwitchSucceedsIffAllowed | internal/radio/hub.go:441-470 | Corollary: a switch succeeds exactly if the channel exists and is open to the client; nobody else moves and a refusal changes nothing |
| HubChannels.CreatorEndsOnNewChannel | internal/radio/hub.go:218-248 | The new number was free, the creator ends alone on the new channel, all other channels keep their state |
| HubChannels.ListIsCompleteIffContiguous | internal/radio/hub.go:927-956 | The channel list shows every channel exactly when the numbers are 1..n |
| HubChannels.ListIsAlwaysComplete | internal/radio/hub.go:222-247 | From channels 1..n, in every run, the list shows every channel once, in increasing order |
| HubCore.FirstFree | internal/radio/hub.go:223-226 | The search ends on any finite map with the first free number |
| Hub.Hub.constructor | internal/radio/hub.go:40-58 | The new hub is the initial state of the state machine |
| Hub.Hub.Handle | internal/radio/hub.go:190-438 | On every event of the state machine the hub takes its step and keeps placement, the observer's picture and the queues |
| Hub.Hub.RegisterClient | internal/radio/hub.go:61-123 | The method computes the specified state and queues |
| Hub.Hub.UnregisterClient | internal/radio/hub.go:126-187 | The same for disconnecting |
| Hub.Hub.SwitchChannel | internal/radio/hub.go:441-568 | The same for switching |
| Hub.Hub.HandleCreateChannel | internal/radio/hub.go:218-248 | The same for creating a channel |
| Hub.Hub.HandlePTTDown | internal/radio/hub.go:570-672 | The same for pressing PTT |
| Hub.Hub.HandlePTTUp | internal/radio/hub.go:674-749 | The same for releasing PTT |
| Hub.Hub.HandleTOTExpired | internal/radio/hub.go:770-823 | The same for a time-out |
| Hub.Hub.HandleBinaryAudio | internal/radio/hub.go:841-879 | The same for an audio packet |
| Hub.Hub.BroadcastAllCall | internal/radio/hub.go:870-876 | The loop over channels enqueues a packet once per channel a client subscribes to |
| Hub.Hub.HandleChatMessage | internal/radio/hub.go:305-341 | The same for a chat message |
| Hub.Hub.ChannelSnapshot | internal/radio/hub.go:927-956 | The loop computes the specified list |
| Recorder.KeepsEverythingIffItFits | internal/radio/recorder.go:94-113 | A buffer is the whole transmission exactly when the whole fits under the cap |
| Recorder.RecordingKeepsArchiveIff | internal/radio/recorder.go:139-169 | For all callsigns, told from the state before: one ending keeps files and list in step if and only if its file lands in the storage directory and no recording about to be evicted shares its file name with one that stays |
| Archive.RecordingKeepsArchiveIffNoNamesakeEvicted | internal/radio/recorder.go:139-169 | For callsigns without a separator: if and only if no recording about to be evicted has channel, callsign and second of one that stays |
| Archive.NewFileStaysIffNoNamesakeEvicted | internal/radio/recorder.go:139-169 | The new recording ends the list, and its file is there, holding the buffer, if and only if the ending evicts none keyed alike |
| Archive.SecondTakeLosesItsFile | internal/radio/recorder.go:139-169 | With room for one recording, two takes of a callsign within a second leave the second one listed without its file |
| FileNames.NamesCollideIff | internal/radio/recorder.go:137-140 | Two file names are equal exactly if channel, callsign and second are, whatever the callsigns look like |
| FileNames.NameIsSeparatorFree | internal/radio/recorder.go:139-140 | A file name holds a separator exactly if the callsign does |
| FileNames.LandsInsideIffUnderItsName | internal/radio/recorder.go:139-155 | The joined and cleaned path stays in the storage directory exactly if it is the base name of the recording's URL |
| FileNames.OneSeparatorLandsElsewhere | internal/radio/recorder.go:139-140 | The file of a callsign with one separator never lands in the storage directory itself |
| Recorder.OnChannelKeepsOrder | internal/radio/recorder.go:185-191 | The channel filter keeps order and exactly the channel's recordings |
| Recorder.RecordedFilesAreReadable | internal/radio/recorder.go:131-146 | Every even buffer up to the cap is read back with 16 kHz, mono, 16 bits, byte rate 32000 and block align 2 |
| Recorder.EndingTellsLength | internal/radio/recorder.go:136-155 | Every completed ending stores the WAV file of the buffer under a record whose size is that of the file and whose duration, in whole tenths, is that of the sound read back at its own byte rate |
| Recorder.AudioRecorder.OnTransmissionEnd | internal/radio/recorder.go:117-172 | The method computes the specified ending: buffer removed, file and entry stored, oldest pruned |
| Recorder.AudioRecorder.AppendAudio | internal/radio/recorder.go:94-113 | A payload past the cap is skipped whole |
| Recorder.AudioRecorder.GetRecordings | internal/radio/recorder.go:175-192 | The loop computes the filter |
| Wav.EncodeWAV | internal/radio/recorder.go:195-223 | The file is 44 bytes longer than the payload, has the specified layout, and reads back whenever it is readable |
| Wav.WavRoundTrip | internal/radio/recorder.go:195-223 | A RIFF reader recovers rate, channels, bits and samples exactly when the payload is even and no size wraps |
| Wav.ByteRateIsFrameRate | internal/radio/recorder.go:199-200 | Byte rate equals sample rate times block align unless something wraps or is cut off |
| Protocol.EncodeAudioPacket | internal/radio/protocol.go:243-252 | The filled buffer is the packet, and parses back to its fields and payload |
| Protocol.ParsersAgree | internal/radio/protocol.go:218-241 | Corollary: the two parsers agree on every byte string |
| Protocol.ParseInvertsEncode | internal/radio/protocol.go:218-252 | Parsing inverts encoding |
| Protocol.EncodeInvertsParse | internal/radio/protocol.go:218-252 | A byte string parses exactly if it is a packet, and encoding gives it back |
| AudioSession.JsPacketIsGoPacket | internal/web/static/js/audio.js:265-279 | The browser's bytes are the Go encoder's with fields modulo 2^8, 2^8 and 2^32, for all integers |
| AudioSession.KeyingSends | internal/web/static/js/audio.js:282-344 | A confirmed keying sends its first 15 frames from before the grant, every frame after it, and the final packet; then the engine is idle |
| AudioSession.UnconfirmedKeyingSendsNothing | internal/web/static/js/audio.js:282-344 | A keying that is never granted sends nothing |
| AudioSession.LiveSessionSends | internal/web/static/js/audio.js:316-325 | A session without pre-buffering sends every frame |
| AudioSession.SessionHeaders | internal/web/static/js/audio.js:238-251 | Every packet parses on the server; First is on the first packet only, Last on the final one only, numbers as positions |
| AudioSession.NumbersRise | internal/web/static/js/audio.js:254-260 | Positions rise by one but for the jump over frames dropped by the pre-buffer |
| AudioSession.PayloadsAreTheCapture | internal/web/static/js/audio.js:208-263 | The payloads are the captured samples of exactly the frames not dropped |
| AudioSession.FinalPayload | internal/web/static/js/audio.js:328-344 | The final packet starts with the samples behind the last full frame |
| AudioSession.CallbacksDoNotMatter | internal/web/static/js/audio.js:193-229 | How the samples are cut into callbacks makes no difference |
| AudioEngine.RadioAudioEngine.BuildAudioPacket | internal/web/static/js/audio.js:265-279 | A new buffer holds the packet; the payload is copied |
| AudioEngine.RadioAudioEngine.OnAudioProcess | internal/web/static/js/audio.js:220-228 | For each 16-bit sample the framing fills the shared buffer and flushes a full packet; over a callback it computes the specified capture and leaves queued packets alone |
| AudioEngine.RadioAudioEngine.FlushPCMPacket | internal/web/static/js/audio.js:238-263 | The packet is sent, queued or dropped as specified |
| AudioEngine.RadioAudioEngine.ConfirmTransmission | internal/web/static/js/audio.js:299-313 | The queue is sent in order and emptied |
| AudioEngine.RadioAudioEngine.StopTransmission | internal/web/static/js/audio.js:328-344 | The last packet carries the residue or two zero bytes |
| EndToEnd.PressJustGrants | internal/radio/hub.go:581-623 | A granted press, first or repeated, leaves its speaker on the channel with an empty recording buffer |
| EndToEnd.KeyingIsBuffered | internal/radio/hub.go:841-867 | The packets of a keying, fed to the hub by their speaker, leave the whole capture in the recorder's buffer |
| EndToEnd.SessionStaysOnChannel | internal/radio/hub.go:869-888 | Every packet of a keying reaches each other client of the speaker's channel once and nobody else: the browser's First and Last flags are never taken for an All-Call |
| EndToEnd.KeyingCompletes | internal/radio/recorder.go:94-143 | A keying of under a minute granted within its first 15 frames is buffered whole: written as a file the buffer reads back as 16 kHz mono sound that starts with every captured sample and goes on for less than a frame |
| EndToEnd.KeyingReachesTheArchive | internal/radio/recorder.go:117-172 | When the speaker of such a keying lets go, it is the newest recording, and its file is on disk, holding the whole capture, if and only if the ending evicts no recording of the same channel, callsign and second; the announced duration is that of the captured samples, in tenths of a second, but for the end of its last frame |
| Roip.UDPServer.ListenLoop | internal/roip/udp_server.go:73-118 | The loop over the reused buffer computes the specified peers and deliveries |
| Roip.OnlyLongDatagramsAreCut | internal/roip/udp_server.go:73-86 | Datagrams of up to 4096 bytes are read whole |
| Roip.PeersAreTheIntroduced | internal/roip/udp_server.go:94-104 | A peer is known exactly if it sent at least eight bytes, valid header or not |
| Roip.GatewayDeliversInOrder | internal/roip/udp_server.go:106-116 | Each client is offered every valid packet for its own channel once, in order of arrival |
| Roip.GatewayKeepsTyping | internal/roip/udp_server.go:106-116 | Gateway packets keep every queue well typed |
| Glare.EveryAnswerMatches | internal/web/static/js/radio.js:3997-4020 | In every run an answer arrives only at a peer waiting for exactly that answer |
| Glare.HigherOfferIsAnswered | internal/web/static/js/radio.js:3957-3992 | The higher peer's offer is never discarded |
| Glare.LowerOfferIsDroppedIffHighWaits | internal/web/static/js/radio.js:3957-3963 | The lower peer's offer is discarded exactly when it meets an outstanding offer |
| Glare.NoDeadlock | internal/web/static/js/radio.js:3937-4020 | With no message in flight both peers have settled |
| Glare.SettlesInFourDeliveries | internal/web/static/js/radio.js:3937-4020 | Without new offers any schedule ends within four deliveries |
| Glare.RenegotiationIsSafeIffStable | internal/web/static/js/radio.js:3484-3503 | Renegotiating on the higher peer never leads to a mismatched answer, whatever is delivered next, if and only if its connection is stable |
| Glare.LowerRenegotiationIsSafeIff | internal/web/static/js/radio.js:3484-3503 | On the lower peer it is safe if and only if its connection is stable or the next message for it is the higher peer's offer |
| VideoCall.CandidatesAreDroppedIffQueueIsCleared | internal/web/static/js/radio.js:3781-4062 | In every sequence of the six video messages, renegotiations, hang-ups and connection losses no candidate is overtaken or forgotten, and some are dropped if and only if a connection is set up, or the call ended from afar, while they wait |
| VideoCall.CandidatesAheadOfTheConnectionAreDropped | internal/web/static/js/radio.js:3850-3857 | Candidates that arrive before there is a remote description are all dropped by whatever message sets up a connection |
| VideoCall.FirstContactSetsUpConnection | internal/web/static/js/radio.js:3795-3847 | Without a connection every offer sets one up, and a join or the start of a call does exactly in an active call |
| VideoCall.HigherOneOffers | internal/web/static/js/radio.js:3795-3848 | Of two browsers that see each other's start or join, and heed it, exactly one offers, the one with the higher identifier; that offer and the other's answer connect the two |
| VideoCall.NamedOneOffers | internal/web/static/js/radio.js:3830-3848 | A browser without a connection that a join asks for by name offers, whichever identifier is higher, and one that is not asked for does not |
| VideoCall.OnlySetupChangesThePeer | internal/web/static/js/radio.js:3850-3857 | A new connection is to the sender of the message that set it up; otherwise the peer changes only by losing it, hanging up or being hung up on |
| VideoCall.StartIsHeededIff | internal/web/static/js/radio.js:3795-3817 | Which starts of a call connect the browser to whoever started it; any other changes and sends nothing |
| VideoCall.OnlyThePeerIsConnectedAlready | internal/web/static/js/radio.js:3837-3840 | On a connected connection only a join of its own peer is ignored |
| VideoCall.OnlyThePeerHangsUp | internal/web/static/js/radio.js:4036-4063 | The end of a call hangs up if the current peer sent it, and not if anybody else did |
| VideoCall.LostPeerIsSetUpAnew | internal/web/static/js/radio.js:3905-3972 | An offer of the current peer is answered on the same connection, unless it was lost |
| VideoCall.StrayAnswerIsIgnored | internal/web/static/js/radio.js:3997-4005 | An answer nobody waits for changes nothing |
| VideoCall.InCallIff | internal/web/static/js/radio.js:3937-3945 | A browser is in a call since it entered the room or somebody else offered, until it leaves |
| VideoCall.RenegotiationKeepsPairing | internal/web/static/js/radio.js:3483-3503 | Another offer on the connection and its answer leave the two paired, without a new connection |
| VideoCall.UnansweredOfferIsReplacedIffConnected | internal/web/static/js/radio.js:3483-3503 | While its offer is outstanding a browser offers again exactly if the connection counts as connected |
| VideoCall.CandidatesAheadOfTheAnswerAreAdded | internal/web/static/js/radio.js:3997-4034 | What arrives at a waiting caller is added, in order, when the answer comes |
| VideoCall.VideoRoom.HandleVideoOffer | internal/web/static/js/radio.js:3937-3995 | The handler computes the specified reaction: what it answers, and which candidates it adds, keeps and drops |
| VideoCall.VideoRoom.HandleVideoAnswer | internal/web/static/js/radio.js:3997-4020 | An answer is applied only while an offer is outstanding, and then all waiting candidates are added in order |
| VideoCall.VideoRoom.SetupPeerConnection | internal/web/static/js/radio.js:3850-3935 | A new connection replaces the old one, waiting candidates are dropped, and an initiator offers |
| VideoCall.VideoRoom.HandleVideoCallStart | internal/web/static/js/radio.js:3795-3817 | A call on the browser's channel sets up a connection if the browser is in a call without a working one; the higher identifier offers |
| VideoCall.VideoRoom.HandleVideoJoin | internal/web/static/js/radio.js:3830-3848 | A join sets up a connection unless there is one to that peer; the higher identifier offers, or whoever was asked by name |
| VideoCall.VideoRoom.HandleVideoCallEnd | internal/web/static/js/radio.js:4036-4063 | The end of the current peer's call closes the connection and drops waiting candidates |
| VideoCall.VideoRoom.EndVideoCall | internal/web/static/js/radio.js:3681-3696 | Hanging up closes the connection and leaves waiting candidates in the queue |
| VideoCall.VideoRoom.Renegotiate | internal/web/static/js/radio.js:3483-3503 | An offer goes out exactly if the guard allows it |
| VideoCall.VideoRoom.HandleVideoICE | internal/web/static/js/radio.js:4022-4034 | A candidate waits until there is a remote description, and order is kept |

## Left out

- Hub.Hub: holds channels, clients and queues by value in its maps, so sharing of Channel and Client objects between maps is not captured; those classes are proved on their own, against the same specification functions. Its recorder is an object of its own.
- Hub.Hub.Handle: all_call, location, ping, alert_tone and the relayed video messages are no events of the state machine; handlers are atomic; interleavings of two handlers, and of a handler with a reader of CurrentChannelID, are not modelled.
- Timing.HoldTimeIsBounded: bounds the hold time by the time-out plus a parameter for how long a fired timer may wait, because the source gives no bound on scheduling.
- HubTiming.NobodySpeaksTooLong: the same latency parameter, for every channel.
- EndToEnd.KeyingReachesTheArchive: the packets arrive without other events in between; HubSystem.RecordingsAreFaithful covers runs in which they do not.
- Glare.EveryAnswerMatches: assumes that offers start only without an outstanding local offer, that the relay keeps order and that nobody hangs up; a hang-up or a new connection while an offer is outstanding is not a step.
- HubArchive.LogTellsTheDisk: the storage directory starts empty; files of an earlier process, which a new one neither lists nor prunes, are not modelled.
- FileNames.LandsInsideIffUnderItsName: paths are seen from the storage directory, so one that leaves it and comes back through the directory's own name counts as outside; a missing subdirectory is a failed write.
- VideoCall.CandidatesAreDroppedIffQueueIsCleared: a handler runs to its end before the next one starts, and adding a candidate, creating an offer or setting a description does not fail.
- Recorder.AudioRecorder.OnTransmissionEnd: DurationSeconds is an exact number of tenths instead of a float, random and time-based identifiers are dropped, and a failed write leaves the disk unchanged.
- HubSystem.LogTellsTheHub: user lists carry only their count, channel_activity no callsign of the speaker; timestamps and message identifiers are dropped.
- AudioSession.SessionHeaders: numbers are modulo 2^32 on the wire, so they rise strictly only in sessions below 2^32 packets.
- AudioEngine.RadioAudioEngine.OnAudioProcess: takes 16-bit samples; resampling, squelch and clamping are floating-point work on the way there.
- Alert tones, all_call text, locations, pings and the hub's relay of video messages: broadcasts without state.
- Relaying client audio to UDP peers, sockets, deadlines, pings and read limits.
- JSON: messages are typed values; of their bytes only the opening brace matters.
- Metrics, statistics, HTTP routes, uploads, static files, configuration parsing and password hashing.
- The buffer pool of protocol.go, which only recycles memory.
- SDP and ICE contents, media, DOM, maps, sounds and playback.
