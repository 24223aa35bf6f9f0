# Ground station and radio link: a verified model

This project models two modules of the flight and ground software and proves what they
promise. Verify it with `dafny verify dfyconfig.toml`.

**The protected radio link** (`radio-uhf/src/radio_crypto.c`). Two nodes share a 256-bit master
key. For each direction the sender asks with a HELLO and the receiver answers with a REPLY; both
then derive a one-way AES-GCM key from the sender's boot nonce, the request nonce and the
receiver's nonce, and data frames carry a 64-bit counter. Nodes may reset, change keys and
settings, and be rate limited; the link may lose, repeat, reorder, replay and reflect frames.

| module | holds |
|---|---|
| Prelude, ByteStrings, Buffers, Wire, Primitives | integers and results, byte layouts, the three cryptographic functions |
| Session | every call of radio_crypto.c as a function on a node's state |
| Radio | the same calls as methods that update fields and byte buffers in place, proved equal to Session |
| Link, Channel, LinkInvariant | two nodes, the link, and the invariant of each direction |
| Delivery, Handshake, Gates | the guarantees over whole runs, the handshake, the rate limits and restarts |
| Answers, Recovery, Layout | what every call answers and leaves, how lost frames and missing sessions are made good, the bytes |
| Exchange, Segments, Incidents | when both directions are up, when the two ends agree on a key, and two runs that show the limits |

The invariant ranks every receive key by the place at which the receiver made it. A sender moves
only forward through the ranks because `pending` uses up each request nonce once, a receiver
only holds the newest key, and counters rise within a key; so both what was sealed and what was
accepted are ordered the same way, across sessions and resets, and the delivery theorem follows.

**The settings** (`radio-uhf/src/radio_crypto_store.c` and the setters). Module Store has the record
and the write-then-rename sequence with failing operations and crashes; SettingsCalls has the
setters as they are written; Setters has every interleaving of setters, packets, reboots and
crashes, with the settings lock held across the file write and the packet lock only around
snapshot and commit; Hosts puts two such nodes on the link and shows that they go through runs
of module Link.

**The pass tracker** (`gpredict/src/gpredict.c`, `gpredict/src/gpredict_profiles.c`). PassTracker has
the state machine and every call as a function; PassTiming runs it under a virtual clock with a
delayable work item that may be waiting, queued and running at once; PassHistory relates the
counters to the history; Profiles has the profile layer and its runs; Gpredict has both units as
classes whose methods update fields, the timer and the slot array in place.

## Assumptions

- MAC, key derivation and AEAD are arbitrary functions. That a frame is not a forgery is a condition on
  what the link may deliver (`Link.Unforged`): a tag that verifies under the receiver's current key belongs
  to bytes signed or sealed under that key by one of the two nodes. The session key of a
  derivation is named by its inputs, and no two derivations with different inputs are confused.
  `AEAD` laws (`Primitives.Crypto.Lawful`) are decryption undoing encryption, and a ciphertext that opens being the
  encryption of what it opens to; only the byte-exact results use them.
- A successful random draw is a value never seen before; a failed one leaves the buffer as it was
  or fresh. A setter's boot nonce is still unused by others when it is committed.
- Every entry point is one step, because it holds `crypto_lock` throughout; the setters, which do
  not, are split into their real steps. `crypto_lock` and `settings_lock` work.
- `fs_rename` replaces the file as one step that survives a crash, and when it fails it did nothing.
  A file that was written but not synced may hold anything after a crash. An open that reports a
  missing file means that it is missing.
- The two addresses differ; no build assertion in the source says so. A node is initialised once between
  two power-ups, which in the source only the codec registration enforces.
- The work queue runs an item at most once at a time; a timer is never early; each handler gets the
  tracker lock at most `late` milliseconds after it was due.

## Where the code and its description part

- A pass that is left alone does not always stay in holding for a grace. A bearing that arrives while the
  handler is already waiting restarts the timer, but the waiting handler still runs; if the
  work queue is a whole grace late, two handlers run back to back and the antenna parks one grace
  early. `PassTiming.StalledPassParksEarly` is such a run, and `PassTiming.NeverParksEarlyIffPrompt` gives the
  exact condition: the lateness must stay below the grace. All upper bounds hold regardless.
- One completed exchange does not mean that both directions are up. When frames arrive in the order in
  which they were sent, the responder's first HELLO makes the initiator drop the send key its REPLY just brought
  (`Incidents.FirstHelloTakesKeyDown` is such a run, `Exchange.FirstExchange` the exact condition); one
  further exchange brings both up (`Exchange.TwoExchangesSuffice`).
- "A replayed handshake can interrupt a session": an old HELLO of the peer's present boot, replayed after a newer one,
  leaves the two ends with different keys for one and the same request
  (`Incidents.ReplayedHelloSplitsKeys`); `Segments.KeysAgree` gives the exact condition.

## Model

| member | source | states |
|---|---|---|
| `Delivery.InOrderDelivery` | radio-uhf/src/radio_crypto.c:287-385 | In every run of two nodes over a hostile link (loss, duplication, reordering, replay, resets, re-keys, settings changes) what a side authenticates is a subsequence of what its peer sealed, same key, counter, identifier and payload; nothing is accepted twice, before or after any reset |
| `Delivery.SessionAuthenticity` | radio-uhf/src/radio_crypto.c:216-285 | The send keys a side installs are, in order, a subsequence of the receive keys its peer made; no key is ever made twice; every key names the direction it is for; the key in use is one of them |
| `Delivery.NoncesNeverRepeat` | radio-uhf/src/radio_crypto.c:306-322 | Over both sides and a whole run, no two encryptions, failed ones included, share master key, key-derivation input and 12-byte nonce |
| `Delivery.SessionStateNamed` | radio-uhf/src/radio_crypto.c:160-169 | In every reachable state the receive key is the derivation of the loaded master key over the three stored nonces and the newest key made, and the send key is one over the present boot nonce; any session or pending request implies a loaded key and protection on |
| `Delivery.ReplyNamesSession` | radio-uhf/src/radio_crypto.c:243-250 | Every REPLY a node signs in any run, repeated or first, names the receive key it holds after the call |
| `Delivery.TransmitsOnlySealed` | radio-uhf/src/radio_crypto.c:293-330 | In every reachable state with protection and transmission on, success of encode means one fresh encryption of exactly this packet under the send key in use, with a counter above every earlier one under that key, and the packet is rewritten as that frame |
| `Delivery.ReceivesOnlyGenuine` | radio-uhf/src/radio_crypto.c:348-376 | In every reachable state with protection and reception on, success of decode means the packet is byte for byte a frame the peer sealed and this side never accepted, and its payload is returned |
| `Channel.ControlIsGenuine` | radio-uhf/src/radio_crypto.c:260-268 | A handshake frame that passes the checks was signed, exactly as it is read, under the master key in use |
| `LinkInvariant.PassesOnlyFromPeer` | radio-uhf/src/radio_crypto.c:260-268 | Such a frame comes from the peer and is never a reflected one: a HELLO under a request that exists, or a REPLY for a key the peer did make |
| `Channel.DataIsGenuine` | radio-uhf/src/radio_crypto.c:357-367 | A data frame that opens under the receive key is one of the peer's own encryptions, with the counter and identifier it shows |
| `LinkInvariant.EventKeepsWorld` | radio-uhf/src/radio_crypto.c:180-385 | Every call on either side, in any state that satisfies the invariant of both directions, keeps it |
| `LinkInvariant.RunKeepsWorld` | radio-uhf/src/radio_crypto.c:180-385 | The invariant of both directions holds after every run from power-up |
| `Handshake.HandshakeCompletes` | radio-uhf/src/radio_crypto.c:180-285 | A request, its answer and the REPLY, delivered undisturbed, leave the asker's send key equal to the answerer's receive key, both counters at zero, and nothing pending |
| `Handshake.SendKeySurvivesHello` | radio-uhf/src/radio_crypto.c:221-256 | A HELLO that makes a key keeps the send key if and only if the peer's boot nonce is the known one or a request of this node is pending |
| `Exchange.FirstExchange` | radio-uhf/src/radio_crypto.c:180-285 | Two nodes with cleared sessions, nothing lost and nothing failing: the direction from the answerer always comes up; both are up if and only if the answerer's HELLO overtakes the REPLY sent before it, for otherwise it takes down the key the REPLY brought |
| `Exchange.FurtherExchange` | radio-uhf/src/radio_crypto.c:180-285 | From any state with the other direction up and the asker's boot known, one exchange brings both directions up, under a new key for the asker |
| `Exchange.TwoExchangesSuffice` | radio-uhf/src/radio_crypto.c:180-285 | Whatever order the frames of the first exchange came in, one further exchange brings both directions up |
| `Incidents.FirstHelloTakesKeyDown` | radio-uhf/src/radio_crypto.c:251-256 | A run from power-up, in order and without loss or replay, in which the REPLY installs the send key and the answerer's first HELLO takes it down |
| `Segments.KeysAgree` | radio-uhf/src/radio_crypto.c:216-285 | In every run: when a side was cleared and is then left undisturbed, and its peer completed the request it last re-keyed on with a key made since, the keys agree unless an older HELLO came back after another one; and every key for that request is the one in use if and only if none came back |
| `Segments.SameRequestSameBoot` | radio-uhf/src/radio_crypto.c:192-203 | In every run, keys made for the same request were made for the same boot nonce and master key, because a request nonce is in one HELLO only |
| `Gates.RekeysAreNew` | radio-uhf/src/radio_crypto.c:221-242 | Between two clears every re-key answers a HELLO other than the last one answered, and the last key made is the one in use, named by the stored boot and request nonces |
| `Incidents.ReplayedHelloSplitsKeys` | radio-uhf/src/radio_crypto.c:221-242 | A run from power-up, undisturbed since both nodes were ready, in which a replayed HELLO leaves the two ends with different keys for the very same request |
| `Segments.StartsOverOnce` | radio-uhf/src/radio_crypto.c:251-256 | In every run: in a stretch without reset or settings change on either side, and with HELLOs only from the peer's present boot, each side drops its send key to start over at most once |
| `Handshake.FrameRoundTrip` | radio-uhf/src/radio_crypto.c:302-376 | With equal keys and a receive counter not past the send counter, decode after encode restores the payload for every permitted length; the frame is 28 bytes longer and with its CRC fits the buffer |
| `Handshake.SignedFramesDeliverable` | radio-uhf/src/radio_crypto.c:260-268 | The assumption about forgeries forbids no replay: every handshake frame signed for a node under the master key it holds may be delivered to it at any time, and again |
| `Handshake.SealedFramesDeliverable` | radio-uhf/src/radio_crypto.c:357-367 | Nor does it forbid the replay, at any time, of any data frame the peer sealed under the receive key in use, given the AEAD laws |
| `Recovery.RepeatedHelloAnswered` | radio-uhf/src/radio_crypto.c:221-250 | The HELLO a node last answered, delivered again at any time, is answered again with the REPLY for the key in use; no key is made and nothing of the session moves |
| `Recovery.LostReplyRecovered` | radio-uhf/src/radio_crypto.c:216-285 | When the REPLY was lost, the REPLY to the same HELLO delivered again brings the asker's direction up |
| `Recovery.EncodeAsks` | radio-uhf/src/radio_crypto.c:297-301 | Encode without a session refuses the packet for now, leaves it alone, and sends exactly one HELLO under the present boot and a new request that it then waits for |
| `Recovery.EncodeStartsSession` | radio-uhf/src/radio_crypto.c:287-376 | Encode without a session, its HELLO, the answer and the REPLY: the next encode succeeds and the peer decodes it to the packet sent |
| `Answers.ConnectAnswers` | radio-uhf/src/radio_crypto.c:180-205 | Which guard refuses an attempt to connect, and what the attempt leaves in every case |
| `Answers.GateClosesForASecond` | radio-uhf/src/radio_crypto.c:188-191 | After an attempt that passed the gate, failed or not, the next passes exactly when 1000 ms are over |
| `Answers.HelloAnswers` | radio-uhf/src/radio_crypto.c:216-258 | A HELLO not answered before: gate, nonce, key, REPLY, then the restart, in this order, with the outcome of the REPLY |
| `Answers.ReplyAnswers` | radio-uhf/src/radio_crypto.c:272-284 | A REPLY brings up exactly the key it names when it is the one awaited, and changes nothing otherwise |
| `Answers.ImproperHandshakeRefused` | radio-uhf/src/radio_crypto.c:260-268 | A handshake frame of the wrong length, identifier or MAC, or without key or protection, is refused and counted and does nothing else |
| `Answers.ProperHandshakeHandled` | radio-uhf/src/radio_crypto.c:269-284 | A proper one is handled by its fields, never reaches the application, and only a failure is counted |
| `Answers.DataAnswers` | radio-uhf/src/radio_crypto.c:348-382 | Every frame that is no handshake: what passes, what is refused, what counts as replay, and what is handed over |
| `Answers.EncodeAnswers` | radio-uhf/src/radio_crypto.c:293-330 | With a key or with protection off: which guard refuses, when a counter is used up, and when the packet changes |
| `Answers.InitAnswers` | radio-uhf/src/radio_crypto.c:389-408 | What initialisation leaves and answers for every failing step |
| `Answers.StatusAgreesWithHistory` | radio-uhf/src/radio_crypto.c:368-382 | In every run the status counts, modulo 2^32, the frames authenticated, the calls refused and the replays seen since the node was switched on, and shows the last error |
| `Layout.HandshakeLayout` | radio-uhf/src/radio_crypto.c:97-124 | Handshake frames byte by byte, and the bytes their MAC covers |
| `Layout.DerivationLayout` | radio-uhf/src/radio_crypto.c:129-146 | The 72 bytes a session key is derived from, byte by byte |
| `Layout.DataLayout` | radio-uhf/src/radio_crypto.c:311-325 | Data frames, nonce and additional data byte by byte, the counter most significant byte first |
| `Layout.RecordLayout` | radio-uhf/src/radio_crypto_store.c:50-58 | The settings record byte by byte |
| `Layout.LoadAnswers` | radio-uhf/src/radio_crypto_store.c:22-38 | What a load answers for every failing operation |
| `Layout.SaveAnswers` | radio-uhf/src/radio_crypto_store.c:60-76 | A save answers the error of the first operation that fails, and does nothing after it |
| `Gates.RequestRate` | radio-uhf/src/radio_crypto.c:188-191 | Between two session clears at most T/1000 + 1 connection attempts pass the gate in any window of T milliseconds, however the calls come |
| `Gates.RekeyRate` | radio-uhf/src/radio_crypto.c:225-242 | Between two session clears at most T/1000 + 1 HELLOs make a new receive key in any window of T milliseconds, however many arrive |
| `Gates.OnlyStartingOverDrops` | radio-uhf/src/radio_crypto.c:251-256 | Of all calls between two clears only the restart branch of hello_received drops a send key, and it always does |
| `Gates.RestartsOncePerBoot` | radio-uhf/src/radio_crypto.c:251-256 | The reconnect cascade ends: between clears and without HELLOs from an earlier boot, a node starts over at most once for each boot nonce of its peer |
| `Wire.MacInputsSeparate` | radio-uhf/src/radio_crypto.c:107-146 | Two inputs of the master key's MAC (HELLO 44 bytes, REPLY 60, key derivation 72) are the same bytes if and only if they are the same use: same kind, direction and nonces |
| `Wire.FrameBindingInjective` | radio-uhf/src/radio_crypto.c:313-316 | Nonce and additional data of a frame determine sender, packet identifier and counter |
| `Radio.Radio.ClearSessionState` | radio-uhf/src/radio_crypto.c:64-72 | Drops both keys, counters and the pending request and opens both gates; the rest of the state is untouched |
| `Radio.Radio.ImportMasterKey` | radio-uhf/src/radio_crypto.c:74-95 | Clears the sessions first; a failed import leaves no master key |
| `Radio.Radio.Sign` | radio-uhf/src/radio_crypto.c:107-124 | Writes, over the last 32 bytes of the frame in place, the MAC of the message under its own addresses; when it cannot be computed the frame stays as it was and the call fails |
| `Radio.Radio.Verify` | radio-uhf/src/radio_crypto.c:107-124 | Accepts exactly the frames whose MAC is that of the peer-to-local header and the body |
| `Radio.Radio.DeriveKey` | radio-uhf/src/radio_crypto.c:129-170 | On success replaces the key of one direction by the derivation over the three nonces and zeroes its counter, on failure changes nothing |
| `Radio.Radio.ConnectLocked` | radio-uhf/src/radio_crypto.c:180-205 | The in-place form refines the state function: gate, draw, signature, pending flag, and the one frame sent |
| `Radio.Radio.Connect` | radio-uhf/src/radio_crypto.c:207-214 | As ConnectLocked, and the result is remembered |
| `Radio.Radio.HelloReceived` | radio-uhf/src/radio_crypto.c:216-258 | Refines the state function in all branches: duplicate, gated, failed draw, failed derivation, re-key, restart of the outbound session; frames go out in this order |
| `Radio.Radio.ControlReceived` | radio-uhf/src/radio_crypto.c:260-285 | Refines the state function: nothing changes unless length, identifier, key, switch and MAC are right |
| `Radio.Radio.Protect` | radio-uhf/src/radio_crypto.c:287-325 | Refines the state function; a failed encryption still uses up its counter and leaves the packet as it was |
| `Radio.Radio.Encode` | radio-uhf/src/radio_crypto.c:287-330 | The packet in its buffer ends up as exactly the frame the specification gives, identifier kept |
| `Radio.Radio.DecodeData` | radio-uhf/src/radio_crypto.c:348-376 | Refines the state function; the packet is rewritten only when the frame is accepted |
| `Radio.Radio.Decode` | radio-uhf/src/radio_crypto.c:332-385 | The whole codec call on buffers refines the state function, and leaves the scratch buffer zeroed |
| `Radio.Radio.Initialise` | radio-uhf/src/radio_crypto.c:389-418 | Refines the state function in every failing branch; protection counts as initialised even when it failed to start |
| `Radio.Radio.CommitSettings` | radio-uhf/src/radio_crypto.c:466-477 | Installs settings and boot nonce, clears the sessions, and re-imports a changed key |
| `SettingsCalls.SaveSettings` | radio-uhf/src/radio_crypto.c:458-478 | Draw, save, then commit or remember the error: state and disk are those the specification gives |
| `SettingsCalls.Set` | radio-uhf/src/radio_crypto.c:480-523 | Both setters: nothing before initialisation or for a key that does not decode, otherwise the updated copy is saved |
| `SettingsCalls.SetterSetsItsField` | radio-uhf/src/radio_crypto.c:458-523 | A setter that succeeds gives its own field the value, in the node and in the file, and no other; a new key becomes the master key if imported; no session is left, the boot nonce is new and the gates are open |
| `SettingsCalls.FailedSetterReports` | radio-uhf/src/radio_crypto.c:458-478 | A setter that fails changes nothing but the last error, which is the first thing that went wrong; without a nonce no file is touched |
| `SettingsCalls.SetterIsAllOrNothing` | radio-uhf/src/radio_crypto.c:458-478 | A setter leaves the old settings, sessions and file, or the new settings in memory and in the file and no session; the latter exactly when draw and save succeeded |
| `Setters.SettersAreSerial` | radio-uhf/src/radio_crypto.c:458-523 | Under any interleaving of setters, packets, failures and crashes the settings are those of initialisation with the successful updates applied in lock order: no lost update |
| `Setters.SettingsAreLastGiven` | radio-uhf/src/radio_crypto.c:458-523 | In every run of a host the key and each switch are what the last successful update of that field gave, or what initialisation left; the file holds the same when no setter is under way, and a loaded master key is that key |
| `Setters.OnlyCommitsTouchTheNode` | radio-uhf/src/radio_crypto.c:458-523 | Of all steps of a setter only the commit touches what packets see, as one atomic call on the then current settings; a failed one only sets the last error |
| `Hosts.HostsRefineLink` | radio-uhf/src/radio_crypto.c:458-523 | Two nodes with disks, setters in all their steps, reboots and crashes go through a run of the two-node link, so every result about runs holds with setters that are not atomic |
| `Hosts.DeliveryUnderSetters` | radio-uhf/src/radio_crypto.c:287-523 | In every such run each side authenticates, in order and at most once, only what the other sealed, and every session is one of the key in the settings in force, with protection on in them |
| `Setters.FileAgrees` | radio-uhf/src/radio_crypto.c:389-408 | Once the file was read or replaced and no setter is under way, a load finds exactly the settings in memory; a loaded master key is the key among them |
| `Setters.CrashFindsOldOrNew` | radio-uhf/src/radio_crypto_store.c:50-77 | A crash anywhere, in the middle of a save too, leaves a file that loads as it did before the save or as what the setter was saving; once the file was read or replaced, what it did before are the settings in force |
| `Store.RecordRoundTrip` | radio-uhf/src/radio_crypto_store.c:22-58 | Load inverts save for every settings value |
| `Store.LoadsExactlyRecords` | radio-uhf/src/radio_crypto_store.c:33-45 | A file of any bytes loads as given settings if and only if it is their 44-byte record, up to three bytes only the checksum covers; any other file is a bad message |
| `Store.SaveIsAtomic` | radio-uhf/src/radio_crypto_store.c:50-77 | For every choice of failing operation and every point of a crash, the settings file holds the old record or the complete new one; the new one at the end exactly on success |
| `Store.CrashMidSave` | radio-uhf/src/radio_crypto_store.c:60-74 | After any number of operations of a save a crash leaves a file that loads as before or as the new settings |
| `Store.FillRecord` | radio-uhf/src/radio_crypto_store.c:53-58 | The in-place writes produce exactly the record |
| `Store.Save` | radio-uhf/src/radio_crypto_store.c:50-77 | The running result, and every state the disk goes through, are those of the specification |
| `Store.LoadSettings` | radio-uhf/src/radio_crypto_store.c:22-48 | Reading one byte more than a record finds exactly what the specification says, longer files included |
| `Buffers.Wipe` | radio-uhf/src/radio_crypto_store.c:13-20 | Every byte of the buffer is zero afterwards |
| `PassTiming.EveryRunKeepsTimer` | gpredict/src/gpredict.c:283-422 | In every run, whatever races whatever, a live pass has a timer running, an item queued or its handler about to run; nothing is overdue; a commanded position is inside the travel |
| `PassTiming.TimeCanPass` | gpredict/src/gpredict.c:402-422 | When time may not pass any further some step of the work item is possible, so the lateness bound never blocks a run |
| `PassTiming.HistoryInForce` | gpredict/src/gpredict.c:391-400 | In every run the grace in force is the last one set since the last reset, or the compiled one, and the last bearing is the last one taken |
| `PassTiming.GraceTakesHold` | gpredict/src/gpredict.c:391-400 | A new grace is in force at once, in every state; a live pass wakes up a whole new grace from now, and no other pass gets a timer |
| `PassTiming.SilenceOnlyAfterGrace` | gpredict/src/gpredict.c:402-410 | In every run the handler changes the state only when the last bearing is at least the grace in force old, and nothing else makes a tracking antenna hold |
| `PassTiming.PassEndsInTime` | gpredict/src/gpredict.c:307-319 | With g the last grace set: after a bearing at t, or a grace change at T, with nothing after it but refused calls, the antenna holds by T + g + d and parks by T + 2g + 2d, for any handler lateness d |
| `PassTiming.PassStepsInTime` | gpredict/src/gpredict.c:391-421 | With g the last grace set, the step to holding is taken in [t + g, T + g + d], and the step to parking only from holding |
| `PassTiming.ParksLate` | gpredict/src/gpredict.c:402-421 | When the handler is less than a grace late, a pass left alone parks no earlier than t + 2g |
| `PassTiming.StalledPassParksEarly` | gpredict/src/gpredict.c:402-421 | A handler kept waiting for a whole grace runs twice in a row, and the antenna parks at t + g: a run of the code that shows it |
| `PassTiming.NeverParksEarlyIffPrompt` | gpredict/src/gpredict.c:402-421 | No pass parks before t + 2g if and only if the handler lateness is below the grace |
| `PassTracker.SaturationIsHarmless` | gpredict/src/gpredict.c:168-181 | Capping the silence at 32 bits neither hides an expired grace nor invents one |
| `PassHistory.CountersAgreeWithHistory` | gpredict/src/gpredict.c:183-209 | After any run every lifetime counter is the number of its events since the last reset, capped at the largest 32-bit value; the commanded position is the last bearing taken and is inside the travel; frequency, reported position, silence and last error are those of the last act that set them |
| `PassHistory.StateFollows` | gpredict/src/gpredict.c:62-142 | In every run, for every act from every state: a taken bearing starts or resumes a pass except while parking, the handler steps towards the park only after the grace, a command parks from everywhere but a fault, a park ends only with the report, a failure is a fault, only a clear leaves it |
| `PassHistory.ParkRunsToItsEnd` | gpredict/src/gpredict.c:108-124 | However many bearings, wake-ups and commands come, an antenna that parks keeps parking until the rotator reports or a reset |
| `PassHistory.TimerFollows` | gpredict/src/gpredict.c:307-422 | In every run, for every act: exactly when the timer is restarted or called back, and to which time |
| `PassHistory.CallsAnswer` | gpredict/src/gpredict.c:256-368 | Bearing, frequency, park and clear answer by their guards; the travel includes both ends |
| `PassHistory.FaultStays` | gpredict/src/gpredict.c:283-368 | Until an operator clears it or a reset, a fault stays: no bearing, report or wake-up moves the command or any counter but the refusals |
| `Profiles.EveryRunKeepsStation` | gpredict/src/gpredict_profiles.c:69-146 | In every run every defined slot is valid and the selected one is defined and enabled |
| `Profiles.StationRefinesTracker` | gpredict/src/gpredict_profiles.c:176-198 | Whatever is called through the profiles, the tracker behind them goes through one of its own runs, so every result above holds behind the profile layer |
| `Profiles.ProfilesNarrow` | gpredict/src/gpredict_profiles.c:31-67 | In every run a bearing inside the selected profile passes the tracker's own travel check, only a fault can refuse it, and it becomes the commanded position |
| `Profiles.ForwardsByPolicy` | gpredict/src/gpredict_profiles.c:200-223 | In every run FOLLOW sends what was offered, HOLD the profile's own frequency and IGNORE nothing; zero goes out exactly when nothing was offered, nothing is selected, or the profile ignores frequencies |
| `Profiles.TableFollowsHistory` | gpredict/src/gpredict_profiles.c:69-146 | In every run each slot holds the last acceptable profile defined for it, with the switch as last set, and the selection is the last enabled slot chosen, unless it was defined anew as disabled |
| `Profiles.TableCallsAnswer` | gpredict/src/gpredict_profiles.c:26-58 | Define, select and enable answer by the guards in order; a profile is taken exactly when its name is not empty and ends, its travel is ordered and inside the rotator's, and its policy exists and has something to hold |
| `Profiles.DecidedBearingsAreCounted` | gpredict/src/gpredict_profiles.c:176-198 | Conservation: in every run, before saturation, bearings taken plus bearings refused is the number decided on since the last reset, through the profiles or past them |
| `Gpredict.Antenna.Apply` | gpredict/src/gpredict.c:183-209 | The in-place event refines the state machine: position on a park report, fault counter, end of pass |
| `Gpredict.Antenna.SilenceNow` | gpredict/src/gpredict.c:168-181 | Zero before any bearing or when the clock went back, otherwise the elapsed time capped at 32 bits |
| `Gpredict.Antenna.TakeBearing` | gpredict/src/gpredict.c:283-320 | Refused in a fault or outside the travel, and counted; otherwise commanded, counted, applied and the timer restarted |
| `Gpredict.Antenna.TakeFrequency` | gpredict/src/gpredict.c:322-336 | Zero is an error that is remembered; anything else is stored |
| `Gpredict.Antenna.Park` | gpredict/src/gpredict.c:338-354 | Refused in a fault, otherwise the park event |
| `Gpredict.Antenna.Clear` | gpredict/src/gpredict.c:356-368 | Only a fault can be cleared |
| `Gpredict.Antenna.GetStatus` | gpredict/src/gpredict.c:370-381 | Refreshes the silence, copies out the whole status and changes nothing else; without a destination it fails and changes nothing |
| `Gpredict.Antenna.GraceSet` | gpredict/src/gpredict.c:391-400 | Installs the grace, and restarts the timer of a live pass with it |
| `Gpredict.Antenna.SilenceCheck` | gpredict/src/gpredict.c:402-422 | The handler: silence only after the grace, and a live pass is always armed again, with the rest of the grace or a whole one |
| `Gpredict.Antenna.Refuse` | gpredict/src/gpredict.c:264-274 | Counts, remembers the error and nothing else |
| `Gpredict.Antenna.Reset` | gpredict/src/gpredict.c:218-229 | Every variable as at power on, the timer called back, an already running handler not |
| `Gpredict.Antenna.Init` | gpredict/src/gpredict.c:238-254 | Resets the first time only |
| `Gpredict.ProfileTable.Define` | gpredict/src/gpredict_profiles.c:69-99 | Stores a valid profile in the slot and drops the selection it disables; every refusal changes nothing |
| `Gpredict.ProfileTable.Select` | gpredict/src/gpredict_profiles.c:101-123 | Selects only a defined and enabled slot |
| `Gpredict.ProfileTable.Enable` | gpredict/src/gpredict_profiles.c:125-146 | Changes only the flag of a defined slot, and never disables the selected one |
| `Gpredict.ProfileTable.Get` | gpredict/src/gpredict_profiles.c:148-164 | Hands out exactly the stored profile of a defined slot |
| `Gpredict.ProfileTable.Judge` | gpredict/src/gpredict_profiles.c:176-198 | The tracker, and nothing else, changes: by a counted refusal outside the profile, else by its own judgement |
| `Gpredict.ProfileTable.Forward` | gpredict/src/gpredict_profiles.c:200-223 | Follows, holds or ignores; zero goes out with an error, and without a destination nothing is decided |

## Left out

- The cryptographic library, CRC-32 and the hexadecimal decoder: MAC, derivation, AEAD and checksum are arbitrary functions, and a key setter is given the decoded key or a failure.
- The UART codec, KISS and libcsp: a packet is an identifier and bytes in a fixed buffer; the codec's answer to a control frame is an input. `KFSW_CSP_PAYLOAD_MAX` and `CSP_BUFFER_SIZE` come from kfsw-comms, which is not part of this model; they are parameters with payload + 32 <= buffer < 65536.
- `radio-uhf/src/radio_crypto_host.c`: a wrapper around a system call, covered by the assumption on draws.
- Delivery while protection or one direction of it is off: such frames pass unauthenticated, as the code intends, and only those that begin with "KR" are refused.
- Key memory hygiene: that secrets are wiped is modelled only for the buffers where wiping is a loop over a buffer the model has.
- `kfsw_radio_uhf_crypto_get` and the two validators (`radio_crypto_validate_key`, `radio_crypto_validate_switch`), which only read.
- The failing branches of the codec registration in `kfsw_radio_uhf_crypto_init`: it returns before any state is touched.
- Out-of-range state and event pairs of `kfsw_gpredict_next`: states and events are enumerations, so the containing branch is unreachable.
- `kfsw_gpredict_state_name`, `gpredict_grace_validate`, `kfsw_gpredict_profile_selected`: one-line readers; the validator's range is a condition on grace changes.
- Log lines, shell commands, command text formatting and parameter tables.
- Constant identity data (`radio-uhf/src/radio_uhf.c`, `radio-uhf/holybro/src/holybro.c`) and the GPIO and ADC drivers (`boton-test`, `temperature-sensor-example`).
- Setters.FileAgrees: says nothing of a node that failed to read its file at start and has saved nothing since, because memory then holds the defaults and the file what could not be read.
