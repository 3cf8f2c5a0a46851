# Verified model of the group room, its transfers and its storage

Dafny models of the browser-to-browser group chat and file transfer, with proofs of what the program relies on:

- **The room protocol** (`web/group-room.js`, on the structures of `web/group-protocol.js`). One owner numbers events; guests apply them over first-in-first-out streams that may fail, stall, be taken over by a resume, or hit a replay gap. A run is any sequence of steps of the owner and of all guests; a step is one synchronous segment of the source, from one `await` to the next. Timers, failed writes, closed streams and lost connections are steps that may happen at any time.
- **Transfer tickets**: the desk of the owner and of every guest, with messages in flight, in any interleaving.
- **Framing** (`TCG1`, `TCF1`), the **transfer scheduler**, the **rendered message list** and the **file sinks** with their worker.

Code that computes is written as functions with lemmas. Code that updates its fields is written as classes whose methods are proved to do what those functions say: the owner's controller, the guest's controller, the replay buffer, the deduplicator, the ticket books, the frame reader and writer, the scheduler, the message list, the worker and its sink.

Modules, bottom up: `Basics`, `RoomTypes`, `ReplayBuffer`, `EventDeduper`, `RoomHost` (the owner's segments), `RoomHostSafety` (its invariant), `RoomNode` and `RoomSystem` (guests and runs), `RoomGuarantee` (what guests may rely on), `RoomReplication`, `RoomCatchUp`, `RoomSeamless`, `RoomAdmission`, `RoomTexts`, `RoomUps`, `RoomRejections`, `RoomStranded`, `RoomVoice`, `RoomResends`, `RoomReads`, `RoomSends`, `RoomOnce`, `RoomStuck`, `RoomResync`, `RoomNarrow`, `RoomTextRules`, `RoomAnswers` and `GuestAnswers` (what each segment answers, and when), `RoomController` and `RoomGuest` (the classes); `TicketDesk`, `TicketAuthority`, `TicketSystem`, `TicketAnswers`, `TicketRecords`, `TicketSafety`, `TicketUse`, `TicketBooks`; `Bytes`, `FrameCodec`, `FrameStreams`, `FileTransfer`, `TransferScheduler`, `MessageList`, `FileSinks`, `FileReceiver`.

## Findings

Places where the expected property is false of the code, with what holds instead.

- **A resync can make the owner commit a text twice.** `acceptEvent` returns for a number it is past (web/group-room.js:1119) before it clears the pending text (web/group-room.js:1147). A guest that RESYNC_REQUIRED carries past its own pending text therefore keeps it pending, sends it again after every recovery, and the owner commits it again once its id has left the deduplication window. `RoomResync.NoWindowSurvivesResync` is such a run, for every window and every bound of at least two pending texts. `RoomStranded.PendingThoughCommitted` says exactly which committed texts stay pending, and `RoomOnce.AtMostOnce` proves that without such a text nothing is committed twice.
- **A pause can answer a text with a rejection although it was committed**, because the pause is looked at before the deduplicator (web/group-room.js:1194-1203). A guest can also read the rejection of a text on its old stream while the same text is being resent on a new one. So committed texts are not all among the pending ones, and a window as large as the bound on pending texts does not suffice: `RoomNarrow.WindowOfTheBoundIsTooSmall` is a run without any resync that commits one text twice. `RoomOnce.AtMostOnce` covers these runs under a window of three times the bound (the shipped values are 64 and 256).
- **A newcomer's first event may skip numbers.** The number in JOIN_ACCEPT is read before the frame's write is awaited (web/group-room.js:743-769). `RoomCatchUp.JoinGapExactly`: the newcomer meets a gap if and only if something was committed in between. The recovery that follows heals it: `RoomSeamless.NoGapAfterResume`.
- **With less than 64 MiB available**, the advertised limit of zero bytes seems to admit an empty file, which the check refuses: the exception in `FileSinks.LimitIsExact`.
- **A failed removal of an open file leaves the sink open** with nothing to write to; a later write or close then aborts it. The invariant of `FileSinks.WorkerFileSink` allows for that.

## Model

| member | source | states |
|---|---|---|
| RoomReplication.LogReplication | web/group-room.js:1115-1150 | in every run, what a guest applied are events of the owner's log with their own numbers, strictly rising, each once, and without a resync exactly the log from its admission number to `lastSeq` |
| RoomReplication.RosterReplication | web/group-room.js:1003-1028 | in every run, a guest's roster is the owner's as it was at event `lastSeq`, plus the guest itself until its own join is applied; the owner's is what its log describes |
| RoomReplication.NeverBack | web/group-room.js:1095-1150 | `lastSeq` of a guest never decreases over any stretch of a run, resyncs and resumes included |
| RoomReplication.NothingMalformed | web/group-room.js:1120-1143 | a guest of this owner never throws on an event in sequence or on a resync roster, and no resync points behind it |
| RoomHostSafety.CommitOk | web/group-room.js:1235-1247 | a commit keeps the owner's invariant: the roster is the one its log describes, streams belong to one member or request, and every frame ever written tells the truth about the log |
| RoomSeamless.OnlineIsSeamless | web/group-room.js:1622-1662 | whenever a reconnecting member comes online in a run, its stream has carried exactly the log from the claimed number to the end (or a resync over a prefix), no repeat, and the next frame on it carries the next number |
| RoomCatchUp.ActivationIsSeamless | web/group-room.js:1650-1662 | the same of the one segment that sets a member online |
| RoomSeamless.NoGapAfterResume | web/group-room.js:1120-1124 | a guest reading a resumed stream never meets a gap, whatever was committed during the catch-up |
| RoomSeamless.OnlineMeansCaughtUp | web/group-room.js:1249-1263 | the open, resumed stream of an online member always ends where the log ends |
| RoomCatchUp.JoinGapExactly | web/group-room.js:743-788 | a newcomer's join stream has a gap if and only if the log grew between reading the number for JOIN_ACCEPT and the admission |
| RoomOnce.AtMostOnce | web/group-room.js:1204-1230 | in every run, with a window of at least three times the bound on pending texts, no client event id of a guest is in the log twice, unless a resync carried that guest past a committed text that was still pending |
| RoomOnce.StepOnce | web/group-room.js:1291-1337 | every step of anyone keeps the invariant behind it, for every guest that the step does not strand |
| RoomResends.OnceCommits | web/group-room.js:1222-1229 | committing a text keeps it: the text was never committed before, and whatever may still be resent stays inside the window |
| RoomTexts.WindowSuffices | web/group-protocol.js:243-261 | the owner answers the next text of a stream from its window if and only if that text was committed before |
| RoomTexts.AnswerMeans | web/group-protocol.js:243-261 | the owner answers an id of an author from its window if and only if fewer other ids than the window holds were used since its last use, with the number of that last use |
| RoomStranded.PendingThoughCommitted | web/group-room.js:1115-1147 | in every run, a text whose event its author is past is still pending if and only if a jump passed the event while the text was pending, and it was neither rejected nor applied from a later event since |
| RoomResync.NoWindowSurvivesResync | web/group-room.js:1204-1214 | for every window and every bound of at least two pending texts there is a run that puts one text of a guest into the log twice |
| RoomNarrow.WindowOfTheBoundIsTooSmall | web/group-room.js:1194-1230 | with a window no larger than the bound on pending texts there is a run, with no jump at all, that puts one text of a guest into the log twice |
| RoomRejections.ReadRejections | web/group-room.js:1194-1221 | every rejection on a stream answers a text read from that stream, and comes after everything committed before the stream was opened |
| RoomAdmission.SeatBound | web/group-room.js:656-694 | in every run, members plus requests that hold a seat never exceed `maxMembers`, and requests never exceed `maxPendingJoins` |
| RoomAdmission.SameGenerationSamePolicy | web/group-room.js:1740-1806 | over any stretch of a run that ends in the generation it began with, no pause flag and no join token changed |
| RoomAdmission.AdmittedUnderOnePolicy | web/group-room.js:718-788 | a request is admitted only if from its approval to its admission neither pause was set and the join token was always the one the request was made with |
| RoomAdmission.AdmittedNow | web/group-room.js:774-788 | at the admission itself the generation is that of the approval and the policy is open |
| RoomVoice.OneVoicePerMember | web/group-room.js:1397-1424 | in every run, a guest is online with one stream and no resume, or reconnecting with none and at most one resume, and no stream belongs to two members or to a request as well |
| RoomVoice.GivenUpForGood | web/group-room.js:562-606 | once the owner gave a stream up it writes nothing on it for the rest of the run, and what it reads from it changes neither the log nor any member |
| RoomVoice.DetachedStreamIsMute | web/group-room.js:562-606 | a frame read on a stream that is no member's voice changes no log, no member and no written frame |
| RoomVoice.FailedResumeLeavesMember | web/group-room.js:1662-1683 | a resume that fails leaves log, members and all other streams as they were, but for the attempt, and its stream is given up |
| RoomTextRules.TextsNeedAnOpenRoom | web/group-room.js:1194-1290 | in every run, a step that appends a text found the room neither paused nor closing, the text valid and not known to its author's window, and for a guest on that guest's current stream |
| RoomTextRules.NoRepeatInWindow | web/group-room.js:1204-1290 | in every run, whoever the author is, the owner included, between two texts with the same id there are at least as many other ids of that author as the window holds |
| RoomAnswers.JoinAnswer | web/group-room.js:500-560 | a new stream's request becomes pending if and only if it is well formed, carries the join token, nothing is paused, a seat and a place in the queue are free and the id is new; otherwise the stream carries exactly the rejection and is closed, and no request changes |
| RoomAnswers.JoinReasons | web/group-room.js:517-522 | for each reason of a refusal, exactly when it is the one given |
| RoomAnswers.BeginAnswer | web/group-room.js:670-694 | an approval holds a seat if and only if the request is waiting and in time, nothing is paused and a seat is free; otherwise the request is turned away |
| RoomAnswers.VerifiedAnswer | web/group-room.js:715-770 | the acceptance frame, with the log's number and the whole roster, is written if and only if the address is verified in time and nothing changed since the approval; otherwise the request is turned away |
| RoomAnswers.AdmitAnswer | web/group-room.js:770-831 | the guest becomes an online member and its join is announced to everyone online if and only if the acceptance was written and nothing changed; otherwise it is turned away |
| RoomAnswers.RejectAnswer | web/group-room.js:620-654 | a request that is not being admitted is told and closed, or closed silently when it is dropped; nothing else changes |
| RoomAnswers.CancelAnswer | web/group-room.js:1731-1738 | exactly the requests that hold a seat, or all, are revoked, and only their streams are closed, without a word |
| RoomAnswers.PauseRoomAnswer | web/group-room.js:1758-1786 | the generation moves exactly if the flag does, and a pause revokes exactly the requests that hold a seat |
| RoomAnswers.RotateAnswer | web/group-room.js:1788-1806 | every request is revoked and its stream closed, told so unless its acceptance is being written; no other stream is touched |
| RoomAnswers.MarkAnswer | web/group-room.js:1397-1424 | a guest that is online, and nobody else, is marked away: its stream is closed and exactly the other online guests are told |
| RoomAnswers.RemoveAnswer | web/group-room.js:1685-1729 | any member but the owner is removed with its stream and its resume, told only if asked, and exactly the others online are told |
| RoomAnswers.ResumeGranted | web/group-room.js:1546-1620 | a resume that may be granted stores exactly the claim and the stream, writes exactly the grant with the log's number, and a member that was online is first marked away |
| RoomAnswers.ResumeRefused | web/group-room.js:1548-1583 | a resume that may not be granted, for any of its conditions, gets exactly the rejection on a closed stream, and no member changes |
| RoomAnswers.ContinueSends | web/group-room.js:1622-1645 | a turn of the catch-up writes the next event if what is missing is in the replay window, and else a resync with the whole roster |
| RoomAnswers.ContinueActivates | web/group-room.js:1650-1662 | a turn with nothing left to send sets the member online on the stream and announces it |
| RoomAnswers.PausedTextAnswer | web/group-room.js:1194-1203 | in a paused room any text of a guest is answered with its rejection and nothing else happens |
| RoomAnswers.KnownTextAnswer | web/group-room.js:1209-1221 | a text that the window knows is answered with its logged event if that is still in the replay window, and else with a rejection; nothing is committed |
| RoomAnswers.NewTextAnswer | web/group-room.js:1223-1231 | a valid text that the window does not know is appended as it is and written to exactly the online guests |
| RoomAnswers.OwnerTextAnswer | web/group-room.js:1265-1290 | the owner's text is appended and announced if and only if the room is neither closing nor paused, the text is valid and its id is not in the window |
| RoomAnswers.LeaveAnswer | web/group-room.js:1178-1181 | a guest that leaves is removed and everyone else is told |
| RoomAnswers.CloseAnswer | web/group-room.js:1844-1872 | closing tells exactly the online guests, closes the streams of requests and resumes, and leaves log and members but for the resumes |
| GuestAnswers.NextEventAnswer | web/group-room.js:1115-1150 | a guest applies exactly the acceptable event with the next number, and then no text with its id is pending |
| GuestAnswers.OddEventAnswer | web/group-room.js:1115-1124 | an event it is past changes nothing; a gap or a malformed event only ends the reading |
| GuestAnswers.ResyncAnswer | web/group-room.js:1095-1102 | a resync moves number and roster, and ends the reading exactly if owner or guest are missing in it |
| GuestAnswers.RejectionAnswer | web/group-room.js:1090-1094 | a rejection frees exactly the text it names |
| GuestAnswers.EndedForGood | web/group-room.js:1103-1107 | in every run, a guest that was told the room ended never acts again |
| GuestAnswers.SubmitAnswer | web/group-room.js:1291-1330 | a text is kept and sent if and only if the guest is not recovering, has room for it, and it is valid and new |
| GuestAnswers.DialAnswer | web/group-room.js:1471-1481 | a recovering guest asks for a resume from its number, one attempt at a time |
| GuestAnswers.GrantAnswer | web/group-room.js:1487-1505 | only a grant that is not behind the claim starts the resending of what is pending; any other answer ends the attempt |
| GuestAnswers.AcceptanceAnswer | web/group-room.js:938-970 | a requester that reads its acceptance starts with the number and roster in it |
| RoomController.GroupRoomController.CommitEvent | web/group-room.js:1235-1247 | the loop over the members writes the event to exactly the online guests, the log and the replay buffer grow by it |
| RoomController.GroupRoomController.HandleText | web/group-room.js:1194-1231 | a text is rejected, answered, committed and remembered, or cuts its sender off, as the specification says |
| RoomController.GroupRoomController.HandleMemberFrame | web/group-room.js:562-606 | the next frame of a stream is acted on only if the stream is a member's voice; on a request's stream it ends the request |
| RoomController.GroupRoomController.SendText | web/group-room.js:1265-1290 | the owner's own text is committed unless closed, paused, invalid or already known; the caller gets the event just appended, or the logged event that carries the id, or nothing |
| RoomController.GroupRoomController.AcceptJoinRequest | web/group-room.js:500-560 | a join request becomes pending on its stream, or the stream is told no and closed, with the first reason that holds (`RoomAnswers.JoinAnswer` and `JoinReasons` say which) |
| RoomController.GroupRoomController.ApprovePending | web/group-room.js:670-694 | the seat is reserved before anything is awaited, or the request is rejected |
| RoomController.GroupRoomController.StartAdmission | web/group-room.js:715-770 | after the awaited check everything is looked at again before the acceptance frame goes out |
| RoomController.GroupRoomController.FinishAdmission | web/group-room.js:770-831 | a guest is admitted if and only if the frame was written and nothing changed meanwhile; its deduplicator starts empty |
| RoomController.GroupRoomController.RejectPending | web/group-room.js:620-654 | a request being admitted yields only to force and is not told; others are closed, and told if asked |
| RoomController.GroupRoomController.CancelPendingApprovals | web/group-room.js:1731-1738 | the loop revokes exactly the requests an approval is under way for, or all |
| RoomController.GroupRoomController.SetRoomPaused | web/group-room.js:1758-1786 | the flag, the generation and the revoked requests, in one segment |
| RoomController.GroupRoomController.RotateInvitation | web/group-room.js:1788-1806 | the loop revokes every request, and tells those not being admitted |
| RoomController.GroupRoomController.OccupiedSeats | web/group-room.js:656-662 | the loop counts the members and the requests that hold a seat |
| RoomController.GroupRoomController.MarkMemberReconnecting | web/group-room.js:1397-1424 | detaching the stream, closing it and committing the state event are one segment |
| RoomController.GroupRoomController.RemoveMember | web/group-room.js:1685-1729 | the member, its deduplicator, its resume and its stream go before anything is announced |
| RoomController.GroupRoomController.AcceptResume | web/group-room.js:1544-1620 | a resume is granted if and only if it is a guest's, in time or online, with no other under way, and its claim lies between admission and the end of the log; granted, it takes the member over |
| RoomController.GroupRoomController.ContinueResume | web/group-room.js:1622-1674 | one turn of the catch-up loop: the next event, a resync, activation, or giving up |
| RoomController.GroupRoomController.Close | web/group-room.js:1844-1872 | everything is revoked before anyone is told |
| RoomGuest.GroupRoomGuest.HandleOwnerFrame | web/group-room.js:1034-1113 | a frame from the owner does to the guest what the specification says, and the bytes counted as pending are those of the pending texts |
| RoomGuest.GroupRoomGuest.AcceptEvent | web/group-room.js:1115-1150 | stale, in sequence, gap or malformed, with the state each leaves |
| RoomGuest.GroupRoomGuest.QueueText | web/group-room.js:1291-1330 | a text is kept until it is settled, or refused because too many frames or bytes are pending |
| RoomGuest.DropFrees | web/group-room.js:1332-1337 | dropping a pending text frees exactly its bytes, so the clamp at zero never acts |
| EventDeduper.KnownIffRecent | web/group-protocol.js:243-261 | a deduplicator answers an id if and only if it is among the latest distinct ids the window holds, with its latest number |
| EventDeduper.RecentEventDeduper.Remember | web/group-protocol.js:253-260 | the table and its eviction keep that meaning over the whole history |
| ReplayBuffer.StartAfterPush | web/group-protocol.js:272-285 | the kept items are the longest suffix of the log within both limits, and eviction goes on from where it was |
| ReplayBuffer.AfterIsLog | web/group-protocol.js:287-293 | inside the window the answer is the log after the number, and there is none exactly if that suffix is over a limit |
| ReplayBuffer.GroupReplayBuffer.Push | web/group-protocol.js:272-285 | the eviction loop ends with the newest item kept and the byte count exact |
| ReplayBuffer.GroupReplayBuffer.AfterNumber | web/group-protocol.js:287-293 | the filtered items are the slice of the log after the number |
| TicketSafety.SingleUse | web/group-room.js:2204-2325 | over all participants and interleavings, no two transfers begin on one ticket |
| TicketSafety.AsGranted | web/group-room.js:2228-2374 | a transfer begins only at the recipient its sender asked the ticket for, with exactly the kind, transfer and size asked for, in this room, after that recipient was armed; the owner decided it within the ticket's lifetime counted from the asking, with both parties online and the room not paused |
| TicketRecords.MintedAsAsked | web/group-room.js:2079-2096 | at every point of every run, whatever was minted is exactly what its sender asked for, with the lifetime counted from the asking, and every table holds one grant per ticket |
| TicketUse.Undisturbed | web/group-room.js:2018-2325 | from every point of every run, a request the owner may grant, for a recipient that sees both parties online, leads to one transfer on exactly the claim asked for, if the messages arrive and nothing else happens |
| TicketUse.UndisturbedAtOwner | web/group-room.js:2228-2240 | the same with the owner as recipient |
| TicketAnswers.IssueAnswer | web/group-room.js:2018-2097 | a request is granted if and only if the room is open, both are online, the recipient is capable and another, and the sender has fewer live grants than the cap; then exactly one grant, as asked, is added, and the owner is armed at once or another is being armed |
| TicketAnswers.IssueEndAnswer | web/group-room.js:2136-2151 | the sender gets its grant if and only if the recipient was armed and the grant is still live with both online; otherwise the ticket is nowhere any more and has the newest tombstone |
| TicketAnswers.ArmAnswer | web/group-room.js:2154-2188 | a recipient arms exactly the grants of this room for itself that it never saw, between online members, as granted and with its own deadline |
| TicketAnswers.ConfirmAnswer | web/group-room.js:2190-2202 | only the recipient of an arm in flight ends it, and only that one |
| TicketAnswers.DecisionAnswer | web/group-room.js:2204-2226 | a claim of either kind is accepted if and only if a live grant honours it in every field for the one who asks; accepted, the ticket is spent, and refused, nothing is |
| TicketAnswers.GuestBeginAnswer | web/group-room.js:2228-2325 | a guest asks the owner if and only if a grant armed there honours the claim and is not being asked about; without its owner the ticket is lost, and otherwise nothing is spent |
| TicketAnswers.OwnerBeginAnswer | web/group-room.js:2228-2273 | the owner accepts exactly what a grant armed at itself honours, and then the ticket is in none of its tables |
| TicketAnswers.RevokeMemberAnswer | web/group-room.js:2423-2457 | exactly the grants and questions naming the member leave every table, no other ticket gets a tombstone, and each of them has one while there is room |
| TicketAnswers.PauseAnswer | web/group-room.js:2459-2487 | pausing and closing revoke everything, with tombstones; opening again revokes nothing |
| TicketSafety.AuthorityAlways | web/group-room.js:2018-2152 | at every point of every run the owner's books are in order: grants name two current members, none is spent, none over the cap, none while paused or closing |
| TicketSafety.RevokedForGood | web/group-room.js:2401-2487 | a ticket that is not live at some point of a run is never accepted after it, whatever is in flight |
| TicketSafety.RevocationKills | web/group-room.js:2423-2487 | a pause, a closing or the removal of a party revokes in the same segment: the ticket is never accepted after that step of the run, even if it was being armed or asked for |
| TicketAuthority.ActsOk | web/group-room.js:2079-2150 | every segment of the owner keeps its books in order, an arm in flight or not |
| TicketAuthority.OwnerAgrees | web/group-room.js:2228-2290 | when the owner is itself the recipient, its two sets of books never disagree |
| TicketBooks.TicketBooks.InvalidateMemberTickets | web/group-room.js:2423-2457 | the loops over four tables revoke exactly the grants naming the member |
| TicketBooks.TicketBooks.ConsumeIssuedTicket | web/group-room.js:2204-2226 | a ticket is consumed if and only if it is live and matches, and is spent by it |
| TicketBooks.TicketBooks.IssueTransferTicket | web/group-room.js:2018-2097 | exactly one grant, as asked (`TicketAnswers.IssueAnswer`), is recorded under the outstanding cap, or nothing is |
| TicketBooks.TicketBooks.PruneTickets | web/group-room.js:2391-2399 | exactly the expired grants and tombstones go |
| FrameCodec.RoundTrip | web/group-protocol.js:104-178 | any frames, written and read back, are the same frames and then a clean end |
| FrameCodec.CutStream | web/group-protocol.js:113-178 | a stream cut anywhere yields the frames wholly before the cut, and then a clean end if and only if the cut is between two frames |
| FrameCodec.OnlyFramed | web/group-protocol.js:140-178 | whatever is read to a clean end is the magic and well-formed frames, each of them returned |
| FrameStreams.GroupFrameReader.Read | web/group-protocol.js:113-178 | reading from any chunks, empty ones included, returns what reading the whole stream returns |
| FrameStreams.GroupFrameWriter.Send | web/group-protocol.js:180-241 | a frame is accepted or refused by the limits, with exact frame and byte counts |
| FrameStreams.GroupFrameWriter.PeerReads | web/group-protocol.js:180-241 | the other end never reads anything but the accepted frames in send order, and all of them once the queue is empty |
| Bytes.NumberOfBigEndian | web/group-protocol.js:104-111 | a length written as four bytes is read back |
| FileTransfer.TransferArrives | web/app.js:3555-3586 | a file of any size arrives exactly |
| FileTransfer.OnlyFaithfulTransfers | web/app.js:3802-3854 | input that is accepted is the data frames an honest sender of the same bytes would send, then a final frame for this transfer with the offered size and their digest |
| FileTransfer.NeverTooMuch | web/app.js:3802-3854 | even a failed transfer never gives the sink more than was offered, and only appends |
| FileTransfer.SendBody | web/app.js:3555-3586 | the send loop writes the chunks of the file in order and then the trailer |
| FileReceiver.ReceiveFile | web/app.js:3796-3860 | the receive loop succeeds if and only if the input is a faithful transfer and the storage takes and closes the file; then the closed sink holds the file, otherwise the file is given up |
| FileReceiver.Finish | web/app.js:3837-3859 | the final frame closes the sink if and only if it seals what was received and the storage lets it |
| FileReceiver.Deliver | web/app.js:3555-3860 | a file sent honestly is stored byte for byte, if and only if the storage takes it |
| TransferScheduler.KeyedTransferScheduler.Pump | web/app.js:2987-3016 | starting lanes moves tasks from waiting to running and nothing else, until no slot is free or no lane waits |
| TransferScheduler.KeyedTransferScheduler.Enqueue | web/app.js:3019-3038 | a task is refused and nothing changes, or it joins the end of its lane; from any point inside a pump as well |
| TransferScheduler.KeyedTransferScheduler.Settle | web/app.js:2995-3013 | a task settles once, its lane goes on with the next one or frees its slot, the counters are exact |
| TransferScheduler.KeyedTransferScheduler.CancelScope | web/app.js:3039-3050 | exactly the waiting tasks of the scope are cancelled, and what runs goes on |
| TransferScheduler.SettleKeeps | web/app.js:2995-3013 | settling the head of a lane keeps tasks in order, none lost, none settled twice |
| TransferScheduler.CancelKeeps | web/app.js:3039-3050 | the same of cancelling what waits in a lane |
| MessageList.EvictedAreOldest | web/app.js:2746-2786 | what is left is in order and within both caps, and everything evicted is older than everything left |
| MessageList.EvictsNoMore | web/app.js:2746-2786 | with the youngest evicted message put back, a cap would be exceeded |
| MessageList.CommittedFits | web/app.js:2486-2497 | a committed message put in front of the first pending one keeps the canonical order |
| MessageList.RenderedMessages.AddMessage | web/app.js:2691-2786 | the new message goes last, or in front of the pending ones if it is committed; the bytes are counted, and the oldest go until the caps are met |
| MessageList.RenderedMessages.UpdateMessageDelivery | web/app.js:2514-2535 | a delivery moves a pending message behind all committed ones, at its commit |
| MessageList.RenderedMessages.RenderOwnEvent | web/app.js:1303-1347 | the log's copy of an own text commits the pending one in place of showing it twice; a pending text that differs is shown as failed and the committed one is added |
| MessageList.RenderedMessages.UpdatePendingMessages | web/app.js:2537-2542 | exactly the pending texts change their state, each where it is |
| MessageList.RenderedMessages.FailDraft | web/app.js:2544-2549 | a text that could not be sent says so where it is, if it is still shown |
| FileSinks.LimitIsExact | web/file-sinks.js:357-371 | a size is within the advertised limit if and only if it passes the check, but for the empty file with under 64 MiB free |
| FileSinks.AdvertisedIsAccepted | web/file-sinks.js:424-488 | what is advertised is what is accepted, for every kind of support and every offer |
| FileSinks.CapacityAnswer | web/file-sinks.js:424-488 | an offer is accepted if and only if it is not too large and goes to a picked file, or to storage with room for it and the headroom, chosen or preferred; for each reason of a refusal, exactly when it is given |
| FileSinks.ServesByCounts | web/opfs-worker.js:115-124 | the storage takes a chunk if and only if its next answers are positive counts that add up to the chunk's length |
| FileSinks.OpfsWorker.Write | web/opfs-worker.js:102-126 | the loop over short writes ends; it succeeds if and only if the file is being written, the chunk is small enough and the storage takes all of it, and then the whole chunk is behind what was there |
| FileSinks.WorkerFileSink.Write | web/file-sinks.js:525-540 | a chunk is stored whole, exactly when sink, sizes and storage allow; otherwise the sink is aborted and the file is gone unless the storage refused to remove it |
| FileSinks.WorkerFileSink.Close | web/file-sinks.js:542-558 | a sink closes if and only if it is complete and the storage lets it; closed, it holds exactly what it accepted, and otherwise it is aborted |
| FileSinks.WorkerFileSink.Remove | web/file-sinks.js:571-579 | a removed file is gone; if the storage refuses, the sink stays as it was |

## Left out

- RoomOnce.AtMostOnce: a window of three times the bound suffices and one of the bound itself does not; for windows between the two nothing is shown. It is one direction: a stranded text does not always end up in the log twice, since its owner may leave.
- RoomReplication.LogReplication: the guest's first number is the one in its acceptance frame, read from this owner; a guest of a forged owner is not modelled.
- TicketUse.Undisturbed: that messages arrive is assumed of this stretch only; nothing is claimed about when they do.
- TicketSafety.AsGranted: deadlines are compared with one clock that never runs backwards.
- TransferScheduler.KeyedTransferScheduler.Settle: fairness between lanes is not claimed; a lane is drained before it gives up its slot.
- FileReceiver.ReceiveFile: the deadlines of a stalled sender and the receiver's own cancelling are not modelled, nor is a worker that never answers; the confirmation sent back to the sender is left out.
- FileSinks.OpfsWorker.Write: a storage call that fails is taken to have stored nothing.
- FileTransfer.TransferArrives: the digest is any function of the bytes, so collisions are outside the model.
- PING, PONG and the heartbeat counters: their only effect here, cutting a slow member off, is a step that may happen at any time.
- Frames of the ticket protocol, pause notices and policy notices on the control streams: they do not touch the log; tickets are modelled with their own messages.
- Session tokens and addresses: a stream is authenticated for the member its resume names.
- The limit on pending bytes is in `RoomGuest` and not in the runs, where it could only refuse more texts.
- A member's send queue running over is a step in which the owner's writer closes.
- Every event is taken to fit in the replay buffer: the number is taken before the push (web/group-room.js:1237-1238).
- JSON, UTF-8 decoding and the shape of frames: an encoding that can be decoded, with a length. SHA-256 is a function of the bytes.
- The numbers 0.1 and 1.1 of the storage reserve are exact rationals.
- Random identifiers are fresh by assumption; their generation is not modelled.
- The order of iteration of a `Map`, wherever the result does not depend on it, is any order.
- Scheduler lanes are values, not shared objects, and what a task does when it is started is a later call from any point.
- The picker sink and the asynchronous OPFS sink, which share the base class but have no write loop.
- The transfer reader of `web/app.js`, whose loop is that of the group frame reader.
- What guests do about tickets on their own account is unconstrained, and so is what they believe about the room.
- Calls, voice recording, the user interface, translation, invitations and persistence.
- The native bridge and one-to-one rooms.
