# hauntty in Dafny

A model of the hauntty session daemon and proofs about it. hauntty keeps terminal sessions alive in a daemon;
clients attach to a session over a Unix socket, see its screen, and follow its output. The model covers the three
parts where the daemon is hardest to get right.

**The session actor** (`Session*.dfy`, `Sizes.dfy`, `Gather.dfy`). One goroutine owns the client list, takes batches
of terminal output, offers each batch to the bounded queue of every client and to the bounded queue of the terminal
feeder, and stops taking output while either is full, but goes on serving attach, detach, kick, resize and stop.
`Session.dfy` is a labelled transition system over that goroutine, the writer of each client, the feeder and the
environment. One step is one shared access of one component, so a scan of the client list is as many steps as it
visits clients, and the others run in between. A Go panic (a send on, or second close of, a closed channel; a slice
out of range) is a state, shown unreachable. Ghost logs record what was accepted from the terminal process, what the
terminal was fed, and what each writer put on the wire. `SessionChannels`, `SessionFeed`, `SessionDelivery`,
`SessionTrace`, `SessionWakeup` and `SessionSizes` each prove one aspect of the invariant; `SessionRuns` joins them
over all runs; `SessionTheorems` states what follows, `SessionRequests` what each request does to clients, lists and
size, `SessionGreetings` how clients are told their id and how they are let go, and `SessionProgress` that a session
left alone comes to rest with everything delivered. `SessionSlices` and `Gather` are the loop's helpers as written:
client objects, arrays compacted in place, nested loops; `SessionScan` and `SessionRefinement` prove that the helpers
and the scans of the transition system do the same.

**The wire protocol** (`Wire`, `Messages`, `Codec`, `CodecIo`, `Layout`, `Refusals`, `Frames`). The 24 message types and their frames.
`Wire`, `Messages` and `Codec` say what a value looks like on the wire and how it is read, as printers and parsers
that undo each other; `Layout` says byte by byte what that is, for messages and state files, and `Refusals` what the
reader refuses; `CodecIo` holds the encoder, the decoder and the connection as classes that append to a buffer
and advance a reader, proved against those functions; `Frames` is a transition system of several writers on one
connection, whose writes go out in pieces and may fail.

**Registry and saved state** (`Registry`, `StateFile`, `StateDir`, `Restore`, `Names`, `ConnMode`). Handlers that
race to register a session under a name; the state file format; the directory of state files under interrupted
writes, failures, crashes and cleaning; the restore of a saved session with its rollback; fresh names; and the
mode machine of one connection.

The outside world (process output and exit, socket and file failures, random draws, timers, what a handler answers)
comes in as steps of the environment or as parameters. Timers may fire at any moment. Sizes, tags and limits are
those of the code.

Three statements that one would like to be true are false of the code. Each appears here with an input that shows it
and with its exact condition:

- The size of a session is not always its policy's choice: a dead writable client is pruned without a new
  arbitration, and a writable attach whose dump fails leaves its resize in place. `SessionDrift.DeathCanLeaveSizeStale`
  and `SessionDrift.SizeCanBeStale` are runs that end so. `SessionTheorems.LawAfterStep` says for every step, from any
  state in which the size is right, that it stays right but for these two departures, and after them if and only if the
  policy chooses the same without the departed client; `SessionTheorems.LawOverRun` carries this over whole runs.
- Not every message that can be written can be read: the reader enforces 16 MiB, the writer does not.
  `Codec.WrittenButUnreadable` is such a message, and `Codec.ReadBack` an equivalence.
- A stop can lose accepted output: `SessionLoss.StopCanLose` is a run that does. `SessionTheorems.StopLosesTheWaitingChunk`
  says what is lost over all runs: exactly the chunk that waits for the feeder when the stop is handled, so nothing
  if and only if no non-empty chunk waits.

`dafny verify dfyconfig.toml` checks the project.

## Model

| member | source | states |
|---|---|---|
| SessionTheorems.ExactlyOnce | internal/daemon/session_lifecycle.go:266-436 | in every reachable state, for each client whose queue is open and whose writes succeeded: its first message is Attached, and the bytes of that dump, then of all Output written, in hand and queued, then of the batch still owed to it, are exactly the bytes accepted from the PTY, through backpressure and other clients' attach, detach, kick and failure |
| SessionTheorems.NothingButThePrefix | internal/daemon/session_clients.go:17-41 | whatever became of a client (failed, kicked, stopped), what was written to it is a prefix of the output: no gap, repeat or reorder |
| SessionTheorems.NaturalExit | internal/daemon/session_lifecycle.go:300-311 | when the process ends by itself, a client that stayed and whose writes all succeeded has been sent Attached once and first, then only Output and ClientsChanged, then Exited with the exit code once and last, and its bytes are all the bytes the process produced |
| SessionTheorems.NothingLostAtExit | internal/daemon/session_lifecycle.go:300-311 | after a natural exit the terminal has been fed every byte ever produced |
| SessionTheorems.FeedConserved | internal/daemon/session_lifecycle.go:109-126 | until a stop, bytes applied, then in the feeder's hand, its queue and the pending slot, are the bytes accepted |
| SessionTheorems.StopLosesTheWaitingChunk | internal/daemon/session_lifecycle.go:453-470 | over every run on from the handling of a stop to the end: what the terminal was fed, then the chunk that was waiting for the feeder, is what had been accepted; and the terminal has it all if and only if no chunk, or an empty one, was waiting |
| SessionTheorems.StopLosesAtMostOneChunk | internal/daemon/session_lifecycle.go:319-325 | in every state a stop ends in, the bytes not fed are a suffix of the accepted ones of at most 64 KiB |
| SessionLoss.StopCanLose | internal/daemon/session_lifecycle.go:457-463 | a reachable end of a session by a stop whose terminal has seen none of the accepted bytes |
| SessionTheorems.NoExitedWithoutNaturalExit | internal/daemon/session_lifecycle.go:453-470 | a client that was detached, kicked, pruned or stopped is never sent Exited |
| SessionTheorems.ClosedForGood | internal/daemon/session_clients.go:203-217 | once the loop has closed a client's queue, no step closes it again or changes why it was closed |
| SessionTheorems.AllClosedAtTheEnd | internal/daemon/session_lifecycle.go:466-469 | when the loop has ended, every queue it ever opened is closed |
| SessionTheorems.PendingInOrder | internal/daemon/session_lifecycle.go:266-281 | the client list has strictly increasing indices, the clients a delivery waits for are a subsequence of it, and at the select pendingOutput is set exactly when somebody is pending |
| SessionTheorems.KickFindsItsTarget | internal/daemon/session_lifecycle.go:416-422 | the look-up by decimal id finds the attached client of that id and no other, until the counter wraps |
| SessionRequests.KickRemoves | internal/daemon/session_lifecycle.go:415-436 | in every reachable state, a kick by an attached client's id closes that client's queue as kicked, takes it out of the client list and the pending list at its place, keeps every other client's entry and place, and goes on to notify |
| SessionRequests.KickOfNobody | internal/daemon/session_lifecycle.go:423-426 | a kick by an id that no attached client has leaves every client, both lists and the size as they were |
| SessionRequests.DetachRemoves | internal/daemon/session_lifecycle.go:401-413 | a detach does the same for its own client |
| SessionRequests.DetachOfNobody | internal/daemon/session_lifecycle.go:402-406 | a detach of a client that is no longer listed changes nothing |
| SessionRequests.ResizeStores | internal/daemon/session_lifecycle.go:438-440 | a resize stores the requested size with its client, and changes no other field, client or list |
| SessionRequests.ResizeTakesEffect | internal/daemon/session_lifecycle.go:438-440 | if that client is the only listed writable one, the terminal has the requested columns and rows afterwards, under every policy |
| SessionRequests.AttachResizes | internal/daemon/session_lifecycle.go:341-348 | a read-only attach leaves the size alone; a writable one with no other writable client gets the size it asked for, before the dump |
| SessionRequests.AttachAdds | internal/daemon/session_lifecycle.go:358-397 | an attach adds one open client at the end of the list, whose queue holds one Attached with its own id, the current size, the dump and the request's `created`, and changes no other client |
| SessionRequests.FailedAttachAddsNobody | internal/daemon/session_lifecycle.go:352-356 | an attach whose dump fails changes no client and neither list |
| SessionRequests.NoticeSays | internal/daemon/session_clients.go:219-232 | a notice puts ClientsChanged with the number of clients and the current size at the end of a queue that has fewer than 256 messages, and drops it otherwise |
| SessionGreetings.ToldIdFindsClient | internal/daemon/session_lifecycle.go:358-391 | the id in the Attached message a client was sent is the one by which a kick finds that client |
| SessionGreetings.StayersAreLetGo | internal/daemon/session_lifecycle.go:305-309 | every client still listed when the loop has ended was let go in the way of that end: by a natural exit with the exit code as its last message, by a stop without one |
| SessionTheorems.NoLostWakeup | internal/daemon/session_clients.go:17-41 | while the loop is parked on a delivery and no token is there, each pending client has a full queue and a live writer, or a writer that will leave a token before anything else; and that writer can move |
| SessionTheorems.FeederUnblocks | internal/daemon/session_lifecycle.go:122-126 | wherever the loop waits for the feeder alone (attach, natural exit, stop), the feeder's own steps let it go on, within a bound given by the feed queue |
| SessionProgress.NoEndlessRun | internal/daemon/session_lifecycle.go:266-299 | no infinite run consists of the session's own steps (loop, writers, feeder) alone, in whatever order they are taken: without new output, process exit or request, it comes to rest |
| SessionProgress.StepLowers | internal/daemon/session_lifecycle.go:266-474 | each such step lowers a rank of nine components in lexicographic order, from control phase and client list down to queued messages, wakeup token and scan position |
| SessionProgress.RestMeansDelivered | internal/daemon/session_lifecycle.go:282-330 | in a reachable state in which none of these can take a step and the loop has not ended, the loop is at its select with nothing to pass on or take in, the terminal was fed every byte produced, and so was every open client whose writes succeeded: Attached, then all later output, on the wire |
| SessionProgress.RestAtTheEnd | internal/daemon/session_lifecycle.go:453-470 | if the loop has ended, the feeder and every writer have ended too |
| SessionProgress.StayersHaveAll | internal/daemon/session_lifecycle.go:300-311 | after a natural exit has come to rest, every client still attached whose writes succeeded has been written its greeting, every byte produced, and the exit code |
| SessionTheorems.LawAfterStep | internal/daemon/session_lifecycle.go:266-271 | from any state that satisfies the size law, a step leads to one that does if and only if it is not the pruning of a dead writable client nor the failed dump of a writable attach, or the policy makes the same choice without that client |
| SessionTheorems.LawOverRun | internal/daemon/session_lifecycle.go:333-356 | the size law holds at the end of every run from a state that satisfies it, if those two departures left the policy's choice as it was |
| SessionTheorems.SizeIsChosen | internal/daemon/session_clients.go:130-149 | in every reachable state not marked stale, cols and rows are the policy applied to the writable clients in attach order (with the client being attached) |
| SessionTheorems.RequestsArbitrate | internal/daemon/session_lifecycle.go:401-440 | after a removing detach or kick, and after a resize, the size is the policy's choice among the sizes then stored, whatever it was before |
| SessionSizes.AttachAgrees | internal/daemon/session_lifecycle.go:341-397 | on a writable attach the arbitration after the dump changes nothing, so the Attached message, the dump and the final size agree |
| SessionDrift.SizeCanBeStale | internal/daemon/session_lifecycle.go:341-356 | a reachable state in which the size is not the policy's choice: an attach that resized and whose dump failed |
| SessionDrift.DeathCanLeaveSizeStale | internal/daemon/session_lifecycle.go:266-271 | another one: the writer of the narrower of two clients died, and its pruning left the size narrow |
| SessionRuns.StepNoPanic | internal/daemon/session_lifecycle.go:252-474 | no enabled step sends on or closes a closed channel, closes `applied` twice, or copies a batch beyond its pooled buffer |
| SessionRuns.StepInv | internal/daemon/session_lifecycle.go:252-474 | every step of every component keeps the whole invariant: channels, feed, accounts, traces, wakeups, sizes, bounds |
| SessionRuns.DumpSeesAll | internal/daemon/session_lifecycle.go:345-352 | when a dump is taken for an attach, the terminal has been fed every byte accepted so far |
| SessionFeed.StepKeepsFeed | internal/daemon/session_lifecycle.go:319-329 | chunks in flight keep consecutive numbers, each pooled buffer in use has one owner and still holds its chunk, and no byte is lost between acceptance and terminal |
| SessionDelivery.StepKeepsAccounts | internal/daemon/session_clients.go:186-201 | every step keeps every client's account balanced: sent, in hand, queued and owed make up what was accepted |
| SessionTrace.StepKeepsTraces | internal/daemon/session_lifecycle.go:377-397 | every step keeps every client's messages well formed: one greeting, then output and notices, and a last message only after a natural exit |
| SessionWakeup.StepKeepsWakes | internal/daemon/session_clients.go:26-41 | every step keeps the wakeup invariant for every pending client |
| SessionChannels.StepKeepsChannels | internal/daemon/session_clients.go:177-217 | every step keeps the lists sorted and the open queues exactly those of the clients not yet closed |
| SessionChannels.VisitOnce | internal/daemon/session_clients.go:186-201 | a delivery scan visits each client once, and none that is already pending |
| SessionScan.ScanUninterrupted | internal/daemon/session_clients.go:186-201 | a delivery scan that nothing interrupts sends to exactly the clients with a live writer and room, and leaves pending, in order, exactly the filter of the list that SessionSlices.QueueOutput returns |
| SessionScan.PruneUninterrupted | internal/daemon/session_clients.go:203-217 | a prune scan that nothing interrupts keeps, takes off the pending list and closes exactly what SessionSlices.PruneFinishedClients does |
| SessionRefinement.QueueOutputIsScan | internal/daemon/session_lifecycle.go:275-280 | if client objects stand for the table, one call of the helper and an uninterrupted scan end with objects that stand for the table, and with the same pending list |
| SessionRefinement.PruneIsScan | internal/daemon/session_lifecycle.go:266-271 | the same for pruning: client list, pending list, closed queues and `changed` agree |
| SessionRefinement.CollectedSizes | internal/daemon/session_clients.go:119-128 | what the helper collects from the objects is what the transition system arbitrates with |
| SessionSlices.RemoveClient | internal/daemon/session_clients.go:177-184 | the slice compacted in its backing array is the old one without the first occurrence of the client; what lies beyond is untouched |
| SessionSlices.QueueOutput | internal/daemon/session_clients.go:186-201 | each client with a live writer and room gets the message at the end of its queue, no other queue changes, and the result lists the full ones in order |
| SessionSlices.PruneFinishedClients | internal/daemon/session_clients.go:203-217 | the slice compacted in place keeps the unfinished clients in order, the finished ones are compacted out of the pending slice and closed, the others are not, both backing arrays are untouched beyond their slices, and `changed` says whether any was |
| SessionSlices.CollectClientSizes | internal/daemon/session_clients.go:119-128 | every writable client's size is in the result at that client's rank among the writable ones, and the result is no longer than their number |
| Sizes.ApplyResizePolicy | internal/daemon/session_clients.go:151-175 | smallest and largest are, dimension by dimension, bounds of all sizes that some client attains; first and last are the first and the last of the given sizes |
| Sizes.PolicyIgnoresOrder | internal/daemon/session_clients.go:151-175 | smallest and largest do not depend on the order of the clients |
| Sizes.SizeCell.Size | internal/daemon/session.go:135-142 | the packed word reads back as the one pair that was stored |
| Gather.GatherPTYReads | internal/daemon/session_lifecycle.go:173-249 | the batches are a prefix of the reads and, unless stopped, all of them; every batch is at most 64 KiB; if all reads are under 1024 bytes the batches are the reads one for one; and it terminates |
| Gather.FillBatch | internal/daemon/session_lifecycle.go:207-241 | the batch followed by the split-off rest is the reads taken, within 64 KiB, and a split makes progress |
| Messages.BodyBack | internal/protocol/messages_response.go:151-230 | for all 24 types: decoding the payload of a message gives it back, with whatever follows it; a payload within 16 MiB triggers no inner count or length guard |
| Codec.ReadBack | internal/protocol/codec.go:25-83 | reading a written message followed by any rest gives the message and that rest if and only if its frame is at most 16 MiB (longer lengths are refused, or wrap at 32 bits) |
| Codec.OutputReadBack | internal/protocol/codec.go:59-61 | terminal output is read back exactly up to 16 MiB less five bytes in one message |
| Codec.WrittenButUnreadable | internal/protocol/codec.go:25-47 | there is a message that is written without an error and cannot be read |
| Codec.DecodeBack | internal/protocol/codec.go:69-82 | a frame decodes to its message whatever trailing bytes it contains |
| Codec.FrameConsumed | internal/protocol/codec.go:49-83 | a frame of legal size is consumed exactly, whether its content decodes, fails, has an unknown tag or trailing bytes |
| Codec.StreamInStep | internal/protocol/codec.go:49-83 | a stream of legal frames with any content is read frame by frame; a bad frame spoils only itself |
| Codec.MessagesBack | internal/protocol/codec.go:25-83 | a list of messages written is the list read |
| Codec.ReaderIsLenient | internal/protocol/encoding.go:126-131 | every frame with any non-zero byte for true and any trailing bytes decodes to the same message, and the writer makes exactly one of them |
| Layout.WrittenLayout | internal/protocol/messages.go:8-34 | for each of the 24 types, given field by field: what is written is the length in four bytes, most significant first, the type's number, and the fields, with a 16-bit length in front of strings and a 32-bit one in front of byte strings and lists |
| Layout.HeaderHoldsLength | internal/protocol/codec.go:41-45 | the first four bytes written are the length of the rest, the byte of highest value first |
| Layout.ReadersReadPositions | internal/protocol/encoding.go:105-117 | 16, 32 and 64-bit numbers are read as the sum of their bytes, each times its power of 256, the first highest |
| Layout.ResizeBytes | internal/protocol/messages_request.go:165-176 | a Resize frame is nine bytes: 3, then columns, rows and pixels at offsets 1, 3, 5 and 7 |
| Layout.ClientsChangedBytes | internal/protocol/messages_response.go:288-296 | a ClientsChanged frame is seven bytes: 0x88, then count, columns and rows at offsets 1, 3 and 5 |
| Layout.SendKeyBytes | internal/protocol/messages_request.go:268-276 | a SendKey frame: 0x0A, the length of the name at 1, the name at 3, then key and modifiers in four bytes each |
| Layout.ExitedBytes | internal/protocol/messages_response.go:238-240 | an Exited frame is 0x85 and the exit code in two's complement |
| Refusals.FrameBounds | internal/protocol/codec.go:49-67 | for every stream: fewer than four bytes, length zero, more than 16 Mi, or more than what follows are four errors, each with what it consumes; otherwise exactly the frame is consumed |
| Refusals.CutStreamRefused | internal/protocol/codec.go:52-67 | a stream that ends anywhere inside a written frame gives one error, which tells an end between header and frame, or before both, from one elsewhere, and leaves nothing |
| Refusals.CutFrameRefused | internal/protocol/codec.go:69-82 | for all 24 types, a frame cut short at any byte is refused: no message is mistaken for a shorter one |
| Refusals.BodyLocal | internal/protocol/messages_response.go:188-230 | a payload of any type that decodes gives the same message, and the same bytes left plus what is appended, whatever is appended to it |
| Refusals.TypesDecoded | internal/protocol/codec.go:129-183 | a frame decodes only to a message of the type its first byte says, and every byte that is no type is refused as such |
| Refusals.CountsBounded | internal/protocol/encoding.go:148-175 | a byte string or list announced with more than 16 Mi is refused with nothing read after its count |
| CodecIo.Encoder.WriteStr | internal/protocol/encoding.go:52-64 | fails exactly on strings over 65535 bytes; otherwise appends what the string parser reads back |
| CodecIo.Encoder.WriteStrs | internal/protocol/encoding.go:66-76 | fails exactly if some string is too long; otherwise appends the count and all strings |
| CodecIo.Encoder.Encode | internal/protocol/messages_request.go:14-31 | a message is encoded if and only if all its strings fit, and the bytes appended are its payload |
| CodecIo.Decoder.ReadStrs | internal/protocol/encoding.go:148-163 | value, error and reader position agree with the list parser, the count guard included |
| CodecIo.Decoder.Decode | internal/protocol/messages_response.go:188-230 | value, error (the two ends of input told apart) and reader position, after an error too, agree with the payload parser for every tag, unknown ones included |
| CodecIo.Conn.WriteMessage | internal/protocol/codec.go:25-47 | a message that cannot be encoded adds nothing to the stream; one that can adds exactly its frame, or, if the socket fails, an error is returned and as much of the frame is out as the socket took |
| CodecIo.Conn.ReadMessage | internal/protocol/codec.go:49-83 | result and remaining stream are those of the frame reader in all cases, errors included |
| Frames.FrameAtomicity | internal/protocol/codec.go:38-46 | under any interleaving of writers and without write errors, the stream is whole frames, one per finished call, then at most part of the lock holder's frame |
| Frames.ReadInLockOrder | internal/protocol/codec.go:25-83 | a reader gets exactly the messages of the calls that finished before the first write error, in the order of the lock, whatever comes later |
| Frames.RefusedWriteNothing | internal/protocol/codec.go:29-34 | with no write error and nobody writing, the stream is the frames of the calls that could be encoded and of these alone |
| StateFile.RoundTrip | internal/daemon/persist.go:146-172 | decoding an encoded state, with any bytes after it, gives the state with its time cut to whole seconds |
| StateFile.AcceptedExactly | internal/daemon/persist.go:183-234 | a file decodes to a state if and only if it starts with the encoding of that state; so what was read can be written again, byte for byte |
| StateFile.PrefixesRejected | internal/daemon/persist.go:183-234 | every proper prefix of an encoding is rejected |
| Layout.StateBytes | internal/daemon/persist.go:146-172 | a state can be stored if and only if its snapshot has 1 byte to 128 MiB; the file is HTST, 2, then columns and rows in two bytes, seconds in eight in two's complement, the snapshot's length in four, each with the most significant byte first, and the snapshot |
| StateFile.EncodeState | internal/daemon/persist.go:146-172 | builds the encoding field by field; refuses empty and oversized snapshots |
| StateFile.DecodeState | internal/daemon/persist.go:183-234 | reads field by field what the format says, with the same rejections |
| StateDir.CrashAtomic | internal/daemon/persist.go:124-144 | after any sequence of saves, failures, removals, cleanings and crashes, the state file of a session, if it exists, is the whole encoding of some state saved for that session, and decodes to it |
| StateDir.OnlyRenamesReplace | internal/daemon/persist.go:134-143 | only the rename and the removal of a session itself touch its state file: until the rename the old file is intact |
| StateDir.SaveTakesEffect | internal/daemon/persist.go:139-143 | a save that reaches its rename leaves its own state in the file and no temporary file |
| StateDir.FileIsLastSave | internal/daemon/persist.go:124-144 | after any run, a session's file is there, and loads, if and only if the session's own history says so: it holds the state of the last save that reached its rename, unless it was removed since; failures, crashes, cleanings and other sessions do not matter |
| StateDir.PathIsNotTmp | internal/daemon/persist.go:134-135 | no state file of any session is a temporary file of any session |
| StateDir.NamesDiffer | internal/daemon/persist.go:134-135 | two sessions with different names share neither state file nor temporary file |
| StateDir.ListedExactlyLoads | internal/daemon/persist.go:236-257 | in every reachable directory, the sessions with a state file are exactly those that can be loaded |
| StateDir.ListDeadSessions | internal/daemon/persist.go:236-257 | lists exactly the names with a state file and no live session, ignoring directories and other files |
| StateDir.CleanStaleTmp | internal/daemon/persist.go:269-280 | removes exactly the temporary files |
| StateDir.StartOn | internal/daemon/server.go:71-72 | a daemon that starts on the directory any run left, cleans it and lists it, finds exactly the sessions that can be loaded and are not live; loading is unaffected and no temporary file is left |
| Restore.Server.HandleAttachRestore | internal/daemon/server_attach.go:131-184 | all or nothing, for every failure at every step: on success, and exactly then, the session is registered, attached, watched once and its file gone; on any error it is not registered by this handler and is closed, the file loads as before unless the rollback write failed, and no other session is affected |
| Restore.Server.PrepareRestore | internal/daemon/dead_state.go:156-179 | the four refusals in their order, and otherwise the decoded state |
| Restore.Server.RollbackRestore | internal/daemon/dead_state.go:188-193 | writing back a state that was read fails only if the file system does, and then the file loads as before |
| Restore.Server.WriteState | internal/daemon/persist.go:124-144 | succeeds exactly if the state can be encoded and nothing fails; a failure leaves the old file, and other sessions' files are never touched |
| Registry.DeletesOwnSession | internal/daemon/server_attach.go:217-242 | under any interleaving of handlers and watchers, every delete by name removes the very session its caller holds, and no other |
| Registry.OneWatcherOneCreator | internal/daemon/server_attach.go:86-127 | a session gets at most one watcher; it is announced as created exactly once if an attach started it and has attached to it, and never otherwise; a session that lost the race gets neither |
| Registry.LosersAreClosed | internal/daemon/server_attach.go:43-47 | a session that found its name taken is not registered, and is closed or about to be by its own handler |
| Registry.OneOwnerEach | internal/daemon/server_attach.go:207-242 | every registered session is under its own name and has exactly one handler or watcher that will delete it |
| Registry.JoinsWhatWasAsked | internal/daemon/server_attach.go:66-110 | in every reachable state, a handler that joins a session it did not start joins one of the name its request gave, which was registered under that name and never lost a race |
| Registry.LookUpDecides | internal/daemon/server_attach.go:66-72 | the look-up of a live name joins the session registered under it if and only if the request is an attach, and refuses the others; a free name goes on to a new session |
| Registry.InsertDecides | internal/daemon/server_attach.go:207-215 | a free name registers the started session under the requested name; a taken one makes it the loser, and an attach goes on to the session registered there |
| Registry.LoserMakesWay | internal/daemon/server_attach.go:99-105 | a session that lost is closed, and its handler goes on to the session found there if its request was an attach, and is done otherwise |
| Registry.AttachedExactly | internal/daemon/server_attach.go:108-128 | a session counts as attached to by its starter exactly from that handler's successful attach on |
| Names.GenerateUniqueName | internal/daemon/namegen.go:32-54 | terminates with a name outside the given set, whatever the draws; the first free draw wins; while a pair is free the result is a pair; otherwise the least free number, at most the size of the set |
| Names.FirstFreeNumber | internal/daemon/namegen.go:47-53 | the numbered search ends after at most as many tries as there are taken names |
| Decimal.NumeralReads | internal/daemon/namegen.go:47-53 | the digits of a numeral, read in base ten, give the number; and there is no leading zero |
| Names.ReserveSessionName | internal/daemon/dead_state.go:11-28 | a requested name is kept; a generated one is neither live nor saved; a listing error is passed on |
| ConnMode.JoinsOnceThenServesNothing | internal/daemon/server.go:213-282 | a connection attaches at most once and serves no request afterwards |
| ConnMode.WatchersSendNothing | internal/daemon/server.go:223-244 | a read-only connection forwards neither input nor resizes |
| ConnMode.EveryJoinIsLeft | internal/daemon/server.go:223-282 | after an attach there is exactly one detach, of that client, and it is the last thing the connection does, however it ends |
| ConnMode.NoJoinNoDetach | internal/daemon/server.go:246-282 | a connection whose attaches all failed, or that made none, detaches nobody |
| ConnMode.WritersSendAll | internal/daemon/server.go:223-244 | all input and resizes of a writing connection are forwarded in order, up to its first other message or its end |
| ConnMode.RequestsAreServed | internal/daemon/server.go:246-273 | every request (types 1 and 5 to 13) of a connection that has not joined is served, in order, and an attach that fails leaves it so |
| ConnMode.AttachJoins | internal/daemon/server.go:249-257 | an attach that succeeds joins the session and client it was given, read-only if and only if it asked to |
| ConnMode.OthersEnd | internal/daemon/server.go:235-276 | any other message ends the connection: before a join without an effect, after one with the detach |
| ConnMode.ConnectionLife | internal/daemon/server.go:213-282 | the whole life of a connection: the requests served in order, one join, all input and resizes forwarded if it writes and none if it watches, one detach, and whatever comes later is never looked at |
| ConnMode.HandleConn | internal/daemon/server.go:213-282 | the message loop has exactly the effects about which the rows above speak |

## Left out

- The terminal emulator: a log of what it was fed and how it was resized; a dump stands for that log. Its own failures are a dump that fails.
- Operating system effects: PTY ioctls, signals, process launch, sockets, peer credentials, file locks, the pid file. A write to a client that may fail, at any time, stands for a socket that was closed.
- Real time: the gather timer and the save interval are choices that may be made at any moment; so nothing is said about latency.
- Shutdown while handlers run, and periodic saves while a restore or prune runs: the code gives no guarantee to state.
- A write that blocks for ever: a write is one step, which succeeds or fails; `SessionProgress` says that all is delivered once the steps that can be taken have been taken.
- Delivery of ClientsChanged, which the code drops when a queue is full; only its place in a client's messages is stated.
- The reply to an attach: `attach` may report a closed session although the loop had accepted the client; the client list and its output do not depend on it.
- The version handshake before the first frame.
- StateDir.CrashAtomic: one save per name at a time, as the daemon's mutex and registry arrange; two daemons may run at the same time only as far as the second one's cleaning goes.
- Restore.Server.HandleAttachRestore: sequential but for a rival that registers the name first; `Registry` interleaves handlers, without their files.
- Dumping, listing and pruning saved sessions, and discarding one to create a session under its name: one file operation each, and loops over the listing modelled here.
- Writers that finish in the middle of a helper's call: the helpers run on objects that only they change, and `SessionScan` and `SessionRefinement` tie them to scans without interruption; the transition system interleaves writers with every scan.
- Session names that contain a path separator; names are taken as given.
- Key names and key encodings, configuration, completion scripts, shell integration and the command line.
