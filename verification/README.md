# Verification of the voice asset server

A Dafny model of the parts of the voice asset server that carry protocols, algorithms and parsers,
and proofs of what they promise. `dafny verify dfyconfig.toml` checks the whole project.

| files | component |
|---|---|
| `RealtimeSession`, `RealtimeProvider`, `RealtimeHub`, `RealtimeService`, `RealtimeProtocol`, `RealtimeRuns`, `RealtimeAnswers`, `RealtimeStreams`, `RealtimeCalls`, `RealtimeResults`, `RealtimeFailures`, `RealtimeRecording`, `QuickResume` | realtime transcription: the durable session and what it answers, the mock provider, the hub of leased streams, the version-checked save, the controller with any number of connections, and what a whole recording comes to |
| `Jobs`, `JobTable`, `JobRuns`, `JobLedger`, `JobAssets`, `JobAssetRuns`, `JobRetries`, `AssetLife` | durable jobs, worker leases, the attempt ledger, the administrator's retry, and the life of the assets the jobs work on |
| `AssetPurge`, `PurgeRuns`, `PurgeReruns` | permanent deletion of an asset, bytes first |
| `ObjectStore`, `Assemblies` | write-once object storage for both drivers, and what one assembly does |
| `Splice`, `Proposals`, `EditSize`, `Correction`, `Review` | transcript correction and its review |
| `Endian`, `IsoBoxes`, `Descriptors`, `DecoderConfigs`, `AudioConfig`, `Durations`, `Wav`, `WavFiles` | audio container parsers |
| `Retry` | provider retry, backoff and failover |
| `Scheduler` | the worker's round-robin scheduler |
| `Common`, `Strings` | shared types, and what is needed of Go's strings and utf8 packages |

## How the model is built

A database transaction, a request to the object service and a locked section of the hub are each one
atomic step. Clocks, new identifiers, provider answers, cancellations, locks held by other
transactions and crashes are parameters of the steps, so every lemma over runs speaks about all of
them. Loops and objects that the source updates in place are methods and classes proved against
value-level functions; protocols are state machines whose steps interleave freely. SHA-256, entity
tags and the inventory fingerprint are injective functions of what they cover, written as datatype
constructors. Integer widths are explicit where they matter: 64-bit wrap-around in frame ends and in
`milliseconds`, 64-bit sums of part sizes and media payloads, 64-bit delays.

## Where the code does not do what one would expect

Each of these is stated exactly, with the condition under which the expected property holds.

- Language tags longer than 35 characters pass validation and are refused by the table
  (`RealtimeSession.SchemaAcceptsIffLanguagesFit`, `RealtimeSession.LongLanguageRefusedBySchema`).
- A resume that arrives after the row turned interrupted but before the old connection detached fails
  the session (`RealtimeRuns.ResumeSucceedsIffLetGo`; a run that does it: `QuickResume.QuickResumeFailsTheSession`).
- A job lease is bound to the worker's name, so a late call can end a newer attempt of the same name
  (`JobRuns.LateCallEndsNewAttempt`; a run that does it: `JobRuns.LateCallRun`).
- A job of any kind that fails for good marks a processing asset as failed, so a failing correction stops
  the transcription that is running on the same asset; and an asset restored from the trash comes back as
  processing although its transcription ended there, and then stays so
  (`JobAssets.AgreesExactlyWithoutInterference`; runs that do it: `JobAssetRuns.FailedCorrectionStopsTranscription`,
  `JobAssetRuns.RestoredAssetIsStuck`).
- An upload that ends after its asset was trashed takes the asset out of the trash's reach: it can neither be
  restored nor purged any more (`JobAssetRuns.AstrayExactlyByUpload`, `JobAssetRuns.AstrayForever`; a run that
  does it: `JobAssetRuns.TrashedUploadGoesAstray`).
- A purge leaves exactly the parts that were written since the worker that finishes it began to list their
  upload (`PurgeRuns.RowsVanishLast`, `PurgeRuns.LateMeansWrittenAfterListing`; a run that leaves one:
  `PurgeReruns.LatePartSurvives`).
- A provider profile whose identifier has blanks at its ends can be registered and never be activated
  (`Retry.PaddedIsNeverActivated`).
- `Assemble` reuses an occupied target without comparing it with the parts
  (`ObjectStore.SuccessfulAssemblyIsConcatenation`, `ObjectStore.ReuseIgnoresParts`).
- `milliseconds` wraps for one quotient (`Durations.MillisecondsIsExactIff`).

## Model

| member | source | states |
|---|---|---|
| `RealtimeRecording.EveryRecordingIsDelivered` | internal/realtime/controller.go:49-295 | from the empty world, for every client, format and language, any number of frames in order, of resent or early ones and of interruptions from which the client returns within ninety seconds, and any valid result: the undisturbed run of the controller counts every frame, gives every frame to the provider in order and once, and ends with the row completed, the archive's digest and duration and the provider's result stored, and the stream closed |
| `RealtimeRecording.TurnsAreServed` | internal/realtime/controller.go:160-290 | any number of such turns leaves the session served, by the last connection |
| `RealtimeRecording.StrayIsHarmless` | internal/realtime/controller.go:188-201 | a frame that was sent before, or before its turn, changes nothing |
| `RealtimeRecording.PauseIsServed` | internal/realtime/controller.go:358-386 | a client that leaves leaves an interrupted row and a detached stream, both waiting until the same deadline |
| `RealtimeRecording.ReturnIsServed` | internal/realtime/controller.go:98-158 | a client that is back by then, on a new connection, is served with the next lease and all frames |
| `RealtimeFailures.RefusedEvents` | internal/realtime/controller.go:188-201 | a refused frame or finish that the client can correct changes nothing; any other makes the connection leave |
| `RealtimeFailures.LostSaves` | internal/realtime/controller.go:188-290 | where each kind of save goes when another connection came before: audio is tried three times, the rest once |
| `RealtimeFailures.BreakdownsLeave` | internal/realtime/controller.go:190-201 | where a connection goes when the database fails it: the lease it holds stays held and it is served no more |
| `RealtimeFailures.WhyItFails` | internal/realtime/controller.go:49-295 | the code of a failure says which step failed and why, and is one that the session accepts |
| `RealtimeFailures.OpensExactly` | internal/realtime/stream_hub.go:74-109 | a stream is opened exactly if the session is not over, the provider opens and none is registered; a stream that lost the race is closed |
| `RealtimeFailures.FailureIsRecorded` | internal/realtime/controller.go:388-416 | an undisturbed failure stores its code in the row and closes the stream |
| `RealtimeRuns.RowAndStreamAgree` | internal/realtime/controller.go:160-290 | in every reachable state of any number of connections, disconnects, resumes, reaps and timeouts: whenever the open stream is at rest (a connection waits for its next event, or the stream is detached) the provider has taken exactly frames 0..NextSequence-1, in order, once each, with byte lengths summing to ReceivedBytes |
| `RealtimeRuns.AcceptedFramesReachTheProvider` | internal/realtime/controller.go:188-241 | a frame the row has counted is taken by the provider and its update passes the revision and timeline checks, so the connection goes on serving, exactly when the stream is neither closed nor past its lifetime |
| `RealtimeRuns.SavedFramesDecode` | internal/realtime/controller.go:205-212 | the branch for a counted frame whose payload does not decode is never taken |
| `RealtimeRuns.OneHolderAtATime` | internal/realtime/controller.go:49-160 | at every moment at most one connection holds a lease on the session's stream, and it is the current lease |
| `RealtimeRuns.NoStreamLeftBehind` | internal/realtime/controller.go:358-416 | an open stream is attached exactly while some connection that will still detach, finish or close it holds it: no exit of the controller loses a stream |
| `RealtimeRuns.ResumeSucceedsIffLetGo` | internal/realtime/stream_hub.go:111-138 | a resume that found the stream gets it if and only if the stream is open and in time and no connection holds it any more; otherwise the session is failed. The row turns interrupted before the old connection detaches, so a quick client meets the failing case |
| `RealtimeResults.CompletedRowHoldsTheProvidersResult` | internal/realtime/controller.go:251-290 | over every run of any number of connections: a completed row holds, trimmed and each in its field, the transcript, language and provider that the provider returned to some finish of the run |
| `RealtimeResults.SaverIsTheFinisher` | internal/realtime/controller.go:251-290 | the connection whose save completes the row stores the result it got from its own finish |
| `RealtimeResults.NextKeepsResults` | internal/realtime/controller.go:251-290 | every step keeps it: no pending save completes a row with anything but a result given to the same connection |
| `RealtimeResults.MockTranscriptIsStored` | internal/realtime/mock_stream.go:92-106 | with the mock provider every run stores the transcript of the fixture in the session's language |
| `RealtimeResults.MockResultText` | internal/realtime/mock_stream.go:92-106 | and what that transcript is, letter by letter |
| `QuickResume.QuickResumeFailsTheSession` | internal/realtime/controller.go:358-386 | a run from the empty world: a resume 100 nanoseconds after the interruption, far inside the window, finds the stream still attached, and the session ends as failed |
| `RealtimeRuns.NextKeepsInv` | internal/realtime/controller.go:49-295 | every step of every connection, including saves and reads that break down, keeps the protocol invariant (current leases, pending saves computed from this session's row, row and stream in step or one frame apart) |
| `RealtimeRuns.BehindKeepsInv` | internal/realtime/stream_hub.go:214-260 | reaping, removal of closed streams and the lifetime timer keep it too |
| `RealtimeRuns.NextKeepsRow` | internal/realtime/controller.go:188-290 | every step keeps the row's counters equal to what the saved frames add up to |
| `RealtimeRuns.RunKeepsInv` | internal/realtime/controller.go:49-295 | the invariant holds along every run |
| `RealtimeRuns.SaveKeepsInv` | internal/realtime/service.go:242-259 | a version-checked save by one of many connections keeps the invariant, whether it succeeds and outdates every other pending save or loses |
| `RealtimeRuns.AudioSaveKeepsAgreement` | internal/realtime/controller.go:188-213 | saving a frame leaves the stream exactly one frame behind the row |
| `RealtimeRuns.TakenPushKeepsInv` | internal/realtime/controller.go:214-236 | pushing that frame puts row and stream in step again and the connection back to serving |
| `RealtimeRuns.ReattachKeepsInv` | internal/realtime/stream_hub.go:111-138 | taking the next lease is possible only when nobody holds the stream, and keeps the invariant |
| `RealtimeRuns.DetachKeepsInv` | internal/realtime/controller.go:358-386 | detaching, or closing where detaching is refused, keeps it |
| `RealtimeRuns.FinishKeepsInv` | internal/realtime/controller.go:251-268 | finishing, which closes the stream whatever the provider answers, keeps it |
| `RealtimeRuns.BreakdownKeepsInv` | internal/realtime/controller.go:190-201 | when a read or a save breaks down the connection leaves for the reconnect path, or fails the session, without losing its lease |
| `RealtimeRuns.NextKeepsHeld` | internal/realtime/controller.go:358-416 | no step of a connection drops a lease of an open attached stream |
| `RealtimeSession.ReachableSessionInv` | internal/realtime/session.go:76-275 | in every reachable session: the reconnect deadline is set exactly when the state is interrupted and never exceeds ExpiresAt; 2*NextSequence <= ReceivedBytes <= NextSequence*maximumFrameBytes; an archived session has CapturedDurationMS >= LastCapturedAtMS; stored results are normalized and valid |
| `RealtimeSession.StepKeepsInv` | internal/realtime/session.go:105-275 | each transition keeps that invariant |
| `RealtimeSession.FreshSessionInv` | internal/realtime/session.go:76-103 | a new session satisfies it |
| `RealtimeSession.CountersMatchAcceptedFrames` | internal/realtime/session.go:105-139 | over every sequence of transitions, NextSequence, ReceivedBytes and LastCapturedAtMS are exactly what the accepted frames add up to, and the frames are numbered and timed in order |
| `RealtimeSession.AcceptedFrameExtends` | internal/realtime/session.go:105-139 | an accepted frame extends the counted frames by exactly itself |
| `RealtimeSession.TerminalIsAbsorbing` | internal/realtime/session.go:289-291 | completed, failed and expired sessions never change again |
| `RealtimeSession.ChangeBumpsVersion` | internal/realtime/session.go:105-275 | a transition changes the session exactly when it raises the version, by one |
| `RealtimeSession.VersionCountsChanges` | internal/realtime/session.go:105-275 | over every run the version has grown by the number of changes |
| `RealtimeSession.InterruptResumeRoundTrip` | internal/realtime/session.go:141-197 | interrupting and resuming inside the window gives the same session back but for its version |
| `RealtimeSession.CompletedReplaysStoredResult` | internal/realtime/controller.go:309-337 | a completed session always replays exactly its stored result, because normalization is idempotent |
| `RealtimeAnswers.AnswersTellWhatIsStored` | internal/realtime/session.go:105-139 | on a streaming session a good frame is answered as a duplicate if and only if its number is that of a stored frame, and then changes nothing; with a gap if and only if its number is beyond the next; and it is accepted if and only if it follows the last stored frame in number and capture time and fits |
| `RealtimeAnswers.InadmissibleIsRefused` | internal/realtime/session.go:105-117 | in every other state, and for every other frame, the answer is an error, and which one |
| `RealtimeAnswers.ResentFrameIsDuplicate` | internal/realtime/session.go:118-120 | over every sequence of transitions: a frame that was accepted is answered as a duplicate whenever it is sent again while the session streams |
| `RealtimeAnswers.AnswersAreTrue` | internal/realtime/session.go:105-139 | and conversely: duplicate means that a frame of this number was accepted before, accepted that none was, gap that not even its predecessor was |
| `RealtimeAnswers.FinishNamesTheLastFrame` | internal/realtime/session.go:199-227 | a finish is accepted exactly if it names the last stored frame and its duration covers it; digest and duration are stored and the counters kept |
| `RealtimeAnswers.ResumeNamesAStoredFrame` | internal/realtime/session.go:170-197 | a resume is accepted exactly if it acknowledges nothing or a stored frame and comes in the window |
| `RealtimeAnswers.CompletionStoresItsResult` | internal/realtime/session.go:229-249 | completion stores transcript, language and provider of the result it is given, trimmed, each in its field, and keeps the recording |
| `RealtimeAnswers.CompletedHoldsAGivenResult` | internal/realtime/session.go:229-249 | over every sequence of transitions: a completed session holds the result of one of its completions |
| `RealtimeAnswers.FailureAndExpiry` | internal/realtime/session.go:251-275 | when failing and expiring are possible, what they store and that they keep the recording |
| `RealtimeAnswers.NewSessionIsTheClients` | internal/realtime/session.go:76-103 | a new session has the client's identity, audio format and language, no frames, and the asked lifetime |
| `RealtimeAnswers.FrameLimitIsOneFrame` | internal/realtime/session.go:281-287 | the limit on a frame is exactly the bytes of its duration; the fallback for other sizes is never used |
| `RealtimeAnswers.InterruptionCanBeResumed` | internal/realtime/session.go:141-197 | when a session can be interrupted, and that a resume within the window, and only then, gives it back as it was |
| `RealtimeAnswers.ChangesAreStamped` | internal/realtime/session.go:105-275 | which times a transition sets |
| `RealtimeSession.NormalizeIdempotent` | internal/realtime/controller.go:477-484 | normalizing a normalized result changes nothing |
| `RealtimeSession.RowRoundTrip` | internal/realtime/postgres_repository.go:188-203 | writing a session to its nullable columns and reading it back gives the same session |
| `RealtimeSession.SchemaAcceptsIffLanguagesFit` | migrations/000013_realtime_recording_sessions.up.sql:14-79 | of the sessions the transitions can produce, the table's checks, taken one by one, accept exactly those whose language tags fit the 35-character columns |
| `RealtimeSession.LongLanguageRefusedBySchema` | migrations/000013_realtime_recording_sessions.up.sql:19 | start events with tags of any length beyond that pass validation and are refused by the table |
| `RealtimeService.ExactlyOneCallAcceptsEachFrame` | internal/realtime/service.go:116-142 | under every interleaving of AcceptAudio calls and other transitions each sequence number below NextSequence is reported accepted by exactly one call and no other number by any; Version is one plus the number of saved updates; ReceivedBytes is the byte sum of the accepted frames |
| `RealtimeService.ExecutionKeepsInv` | internal/realtime/service.go:116-259 | the invariant behind it over every execution |
| `RealtimeService.AcceptAudio` | internal/realtime/service.go:116-142 | the compare-and-save loop: it stops in the first round nobody disturbed, with the outcome of applying the frame to exactly the row it saved on; after three disturbed rounds it reports a version conflict and has changed nothing |
| `RealtimeService.AcceptAudioKeepsTable` | internal/realtime/service.go:116-142 | whatever the others save meanwhile, the table stays valid |
| `RealtimeService.DuplicatesWereAccepted` | internal/realtime/service.go:116-142 | under every interleaving: when a call reports a duplicate, another call has reported that number accepted |
| `RealtimeService.GapsWereMissing` | internal/realtime/service.go:116-142 | under every interleaving: when a call reports a gap, no call had been told that this number or the one before it was accepted when it read the row |
| `RealtimeService.ReadersAnswerAll` | internal/realtime/service.go:116-142 | a call on a streaming row answers exactly by comparing its number with the row's: below is a duplicate, beyond is a gap, equal goes on to save |
| `RealtimeCalls.UndisturbedCall` | internal/realtime/service.go:116-259 | a call nobody disturbs is over after reading, unless the transition changes the row, and then after one save of exactly its outcome |
| `RealtimeCalls.LostSavesAreRetried` | internal/realtime/service.go:121-142 | a lost save changes nothing; only an audio call reads again |
| `RealtimeCalls.AttemptsAreBounded` | internal/realtime/service.go:121 | under every interleaving no audio call makes more than three attempts and no other call more than one |
| `RealtimeStreams.TakesExactlyTheNext` | internal/realtime/mock_stream.go:45-66 | a push is taken exactly if the stream is open and the frame follows those it has taken in number and time, with whole samples and in size; which error the others get |
| `RealtimeStreams.ShowsWhatEnded` | internal/realtime/mock_stream.go:67-90 | over every sequence of frames offered to a new stream: it has shown exactly the segments that ended by the end of the last frame taken |
| `RealtimeStreams.UpdateShowsWhatEnded` | internal/realtime/mock_stream.go:67-90 | and an update shows all of them, joined, under the next revision, exactly if there are more than before |
| `RealtimeStreams.FinishesOnce` | internal/realtime/mock_stream.go:92-106 | a stream finishes once, after at least one frame, and takes nothing afterwards |
| `RealtimeStreams.EverySessionOpens` | internal/realtime/mock_stream.go:17-30 | which formats can be streamed, and that every stored session has one |
| `RealtimeStreams.ClientsSeeRevisionsRise` | internal/realtime/controller.go:228-241 | whatever the provider returns, the client sees strictly rising revisions, and no text beyond the audio it sent |
| `RealtimeStreams.ResumeAnswers` | internal/realtime/stream_hub.go:111-138 | a resume is told that the stream is gone, or held, or gets the next lease, and when |
| `RealtimeStreams.LeaseAnswers` | internal/realtime/stream_hub.go:140-212 | what the holder of the current lease can do and what the others are told |
| `RealtimeStreams.FinishEndsTheStream` | internal/realtime/stream_hub.go:174-194 | after a finish nobody can use, resume, reap or close the stream |
| `RealtimeStreams.GrantsAreIssued` | internal/realtime/stream_hub.go:74-138 | every lease handed out is on record, in order |
| `RealtimeService.SavesEvolve` | internal/realtime/postgres_repository.go:125-182 | any number of saves of transitions, each stamped by the database's clock, leads to a session that evolved from the first: same identity, a version that has not fallen, and the same row if it is unchanged |
| `RealtimeService.SavesMakeSchedule` | internal/realtime/service.go:116-142 | what other callers save between the rounds of AcceptAudio is always a schedule as its contract assumes |
| `RealtimeService.SessionTable.Create` | internal/realtime/postgres_repository.go:35-104 | idempotent insert: the row that holds the key if the request is the same, or a conflict; invalid references; a conflict on a repeated session or client session id; a failure where the table's checks refuse the row; else the new row |
| `RealtimeService.SessionTable.Update` | internal/realtime/postgres_repository.go:125-182 | writes, with updated_at from the clock of the database, exactly when the stored version is the expected one and the new version the next, and otherwise changes nothing |
| `RealtimeHub.AtMostOneUsableLease` | internal/realtime/stream_hub.go:74-212 | of any two grants of one managed stream in any run of the hub at most one can push, detach or finish: no two grants share a number |
| `RealtimeHub.ResumeIssuesNewNumber` | internal/realtime/stream_hub.go:111-138 | a resume hands out a number nobody held, and no earlier lease is usable then or after |
| `RealtimeHub.StaleLeaseRefusedForever` | internal/realtime/stream_hub.go:140-194 | a lease that was superseded, detached or closed is refused by Push and Finish in every continuation |
| `RealtimeHub.StreamsCloseExactlyOnce` | internal/realtime/stream_hub.go:174-260 | each stream is finished at most once, and closed exactly once if it has left the hub |
| `RealtimeHub.ReapAgreesWithResume` | internal/realtime/stream_hub.go:156-172 | a detached stream can be resumed exactly up to its deadline and before its expiry, and Reap closes it exactly when it no longer can |
| `RealtimeHub.ClosedForever` | internal/realtime/stream_hub.go:174-243 | a closed stream never reopens or changes |
| `RealtimeHub.HubRunKeepsInv` | internal/realtime/stream_hub.go:74-260 | the hub's invariant holds along every run: in particular no number of a stream is granted twice |
| `RealtimeHub.HubStepKeepsInv` | internal/realtime/stream_hub.go:74-260 | every operation keeps the hub's invariant |
| `RealtimeHub.StreamHub.Start` | internal/realtime/stream_hub.go:74-109 | exactly when a stream is opened, registered and leased, and what the map is then; otherwise the map is as it was |
| `RealtimeHub.StreamHub.Resume` | internal/realtime/stream_hub.go:111-138 | exactly when the next lease is granted, and the entry's state then; otherwise the entry is as it was |
| `RealtimeHub.StreamHub.Reap` | internal/realtime/stream_hub.go:214-243 | closes exactly the overdue streams, returns how many there were, and leaves exactly the open ones in the map |
| `RealtimeHub.StreamHub.Remove` | internal/realtime/stream_hub.go:254-260 | removes the entry only if it is still the registered one |
| `RealtimeHub.StreamLease.PushFrame` | internal/realtime/stream_hub.go:140-154 | pushes through a usable lease of a live stream, else changes nothing |
| `RealtimeHub.StreamLease.Detach` | internal/realtime/stream_hub.go:156-172 | detaches with the earlier of the deadline and the expiry |
| `RealtimeHub.StreamLease.FinishLease` | internal/realtime/stream_hub.go:174-194 | finishes and closes the stream and removes it from the hub |
| `RealtimeHub.StreamLease.CloseLease` | internal/realtime/stream_hub.go:196-212 | closes the stream once and removes it from the hub |
| `RealtimeProvider.AcceptedFrameIsPushed` | internal/realtime/mock_stream.go:45-90 | a frame the session accepted is never refused by an open provider that has taken all before it, and its update passes validTranscriptUpdate, although the end of the frame may wrap around in 64 bits |
| `RealtimeProvider.EmissionIsPathIndependent` | internal/realtime/mock_stream.go:62-75 | what has been emitted depends on the latest end time only, not on how the audio was cut into frames |
| `RealtimeProvider.MockStream.PushFrame` | internal/realtime/mock_stream.go:45-90 | checks and state change of Push, against the value-level provider |
| `RealtimeProvider.MockStream.FinishStream` | internal/realtime/mock_stream.go:92-106 | the refusals and state change of Finish, and the transcript of the whole fixture with its language and provider |
| `RealtimeProvider.FixtureResultIsAccepted` | internal/realtime/mock_stream.go:92-106 | that transcript is normalized and valid for both fixtures, so the controller never rejects it |
| `JobRuns.ReachableInv` | internal/job/postgres_repository.go:252-523 | in every reachable table each ledger holds exactly attempts 1..attempts; the last is open, and its worker the lease owner, exactly while the job runs; waiting jobs have attempts left, failed jobs none; no job has more than twenty; no two active jobs do the same work on an asset |
| `JobRuns.StepKeepsInv` | internal/job/postgres_repository.go:252-462 | every transaction keeps that invariant |
| `JobRuns.StepChanges` | internal/job/postgres_repository.go:252-462 | what any transaction can do to the record of a job it keeps |
| `JobRuns.OnlyOwnerOrExpiryCloses` | internal/job/postgres_repository.go:354-462 | an attempt is closed only by its own worker under a live lease, or by a Claim after the lease ran out and then as expired |
| `JobRuns.ClosedRowsAreFinal` | internal/job/postgres_repository.go:492-515 | a closed attempt never changes again while its job exists |
| `JobRuns.SucceededForever` | internal/job/postgres_repository.go:354-395 | a succeeded job stays as it is until it is purged |
| `JobRuns.NoFinishWithoutLease` | internal/job/postgres_repository.go:517-523 | a worker whose job was taken from it can neither complete, fail nor purge it in any continuation in which it does not lease that job again, whatever else it claims |
| `JobRuns.LateCallEndsNewAttempt` | internal/job/postgres_repository.go:517-523 | a call left over from an expired attempt ends the newer attempt if and only if the same worker name has leased the job again and that lease is live: a lease is bound to the name, not to the attempt |
| `JobRuns.LateCallRun` | internal/job/postgres_repository.go:517-523 | a run from the empty table in which a late success closes the second attempt |
| `JobRuns.AttemptsCountLeases` | internal/job/postgres_repository.go:324-347 | attempts counts the leases over every run, so no job is leased more than twenty times in its life, administrator retries included |
| `JobRuns.NoJobIsStuck` | internal/job/postgres_repository.go:269-285 | a job satisfies Claim's condition exactly from its available time or its lease's end on, unless it is finished |
| `JobLedger.RowsAgreeWithLedger` | internal/job/postgres_repository.go:252-523 | in every reachable table each row agrees with its ledger: outcome, error and time of its last attempt, and a result only on success |
| `JobLedger.ClaimLeavesOthersAlone` | internal/job/postgres_repository.go:269-285 | a claim touches no job that is locked or not up for grabs |
| `JobLedger.ClaimGrantsOne` | internal/job/postgres_repository.go:324-347 | the chosen job is the worker's for the time asked, under a new attempt |
| `JobLedger.ClaimGivesUpTheRest` | internal/job/postgres_repository.go:290-323 | every other job it touches fails because its last attempt ran out |
| `JobLedger.ClaimTakesTheFirst` | internal/job/postgres_repository.go:269-285 | a claim finds something whenever an unlocked job with an attempt left is up for grabs, and takes the first |
| `JobLedger.CompletionAnswers` | internal/job/postgres_repository.go:354-393 | what a worker that reports success is told and what is stored |
| `JobLedger.FailureAnswers` | internal/job/postgres_repository.go:395-462 | the same for a failure |
| `JobLedger.PurgeAnswers` | internal/assetpurge/postgres_repository.go:121-242 | a purge ends exactly under a live lease of a purge job, and removes exactly the other jobs of its asset |
| `JobLedger.InsertionAnswers` | internal/job/postgres_repository.go:125-236 | when a job can be inserted and what it starts with |
| `JobLedger.RetryAnswers` | internal/operations/postgres_repository.go:108-119 | what a refused retry is told |
| `JobTable.JobRepository.Claim` | internal/job/postgres_repository.go:252-352 | leases the first due, unlocked row that has an attempt left, gives up exactly the exhausted ones before it, and on no claimable job leaves no unlocked due row of the kind; its one-row guard never fires; it terminates |
| `JobTable.JobRepository.First` | internal/job/postgres_repository.go:271-285 | the selection returns the least candidate in the ORDER BY, or none exactly if there is none |
| `JobTable.JobRepository.Succeed` | internal/job/postgres_repository.go:354-395 | success under a live lease, else the error and no change |
| `JobTable.JobRepository.Fail` | internal/job/postgres_repository.go:397-462 | failure under a live lease: retry or terminal failure, else the error and no change |
| `JobTable.JobRepository.RetryJob` | internal/operations/postgres_repository.go:78-208 | the administrator's retry and its refusals, including that of the index on active work |
| `JobRetries.RetrySucceedsExactly` | internal/operations/postgres_repository.go:78-208 | a retry succeeds if and only if the job has failed without a result and has had fewer than twenty attempts allowed, its asset is in the state its kind waits for, and no other job of the kind is active on the asset |
| `JobRetries.RetryQueuesTheJob` | internal/operations/postgres_repository.go:150-208 | what a successful retry writes: one more attempt allowed, available at once, a transcription's asset processing again, every other job, asset and the ledger unchanged |
| `JobRetries.FailedTranscriptionCanBeRetried` | internal/operations/postgres_repository.go:134-136 | where jobs and assets agree, a transcription that fails for good leaves its asset in the state from which it can be retried: the retry succeeds exactly while fewer than twenty attempts have been allowed, and sets the asset to processing again |
| `JobRetries.FailedCorrectionCanBeRetried` | internal/operations/postgres_repository.go:134-136 | a correction or waveform that fails for good on a ready asset can be retried up to the same limit, and the asset stays ready |
| `JobRetries.OnlyPurgesAreRetriedInTrash` | internal/operations/postgres_repository.go:110-136 | a retried job works on a deleted asset exactly if it is a purge |
| `JobAssets.AgreesExactlyWithoutInterference` | internal/job/postgres_repository.go:305-323 | one step of an asset's life (creation, upload, transcription, correction, claim, commit, failure, retry, trash, restore, purge) keeps "an asset is processing exactly while a transcription of it is active" if and only if it is neither the final failure of another kind of job on a processing asset nor the restoration of an asset whose transcription ended in the trash |
| `JobAssets.ProcessingMeansTranscribing` | internal/job/postgres_repository.go:208-219 | over every run without those two steps an asset outside the trash is processing if and only if one of its transcriptions is active |
| `JobAssets.CommitNeedsOnlyTheLease` | internal/transcription/postgres_committer.go:61-94 | where that holds, a transcript is committed if and only if the worker owns the live lease and the asset is not in the trash: the status check refuses nothing |
| `AssetLife.RequestsAreGrantedExactly` | internal/asset/postgres_repository.go:404-708 | what each request on an asset demands of it (upload, transcription, correction, trash, restore, purge): it is granted exactly then, and otherwise changes nothing |
| `AssetLife.AssetsFollowTheDiagram` | internal/asset/postgres_repository.go:396-708 | every change of an asset in any step is along an edge of the status diagram, and only a claim changes assets it does not name |
| `AssetLife.AssetsComeAndGo` | internal/assetpurge/postgres_repository.go:121-242 | assets appear only as drafts and disappear only by the end of their purge, and with them all their other jobs |
| `AssetLife.RestoreUndoesTrash` | internal/asset/postgres_repository.go:629-708 | trashing and restoring gives the asset back as it was |
| `AssetLife.RequestedPurgeIsAlone` | internal/asset/postgres_repository.go:404-575 | a requested purge is queued as the only active job of its asset |
| `AssetLife.UploadQueuesWaveform` | internal/upload/postgres_repository.go:244-300 | an upload that ends queues the waveform of its asset |
| `JobAssetRuns.FailedCorrectionStopsTranscription` | internal/job/postgres_repository.go:448-457 | a run from the empty world in which an asset is uploaded, transcribed and transcribed again, and a failed correction makes the second commit invalid although its worker owns the live lease |
| `JobAssetRuns.RestoredAssetIsStuck` | internal/asset/postgres_repository.go:642-664 | a run from the empty world after which a restored asset is processing with no transcription active |
| `JobAssetRuns.StuckForever` | internal/operations/postgres_repository.go:131-154 | such an asset stays so in every continuation that neither trashes it nor fails a job on it for good: transcription requests and retries are refused |
| `JobAssetRuns.AstrayExactlyByUpload` | internal/upload/postgres_repository.go:289-295 | a step makes an asset deleted without being trashed or purging if and only if it ends an open upload of a deleted asset |
| `JobAssetRuns.AstrayForever` | internal/asset/postgres_repository.go:642-664 | such an asset is not changed by any step of any continuation: it can be neither restored nor purged |
| `JobAssetRuns.TrashedUploadGoesAstray` | internal/upload/postgres_repository.go:244-300 | a run from the empty world that does it |
| `JobAssets.NextKeepsInv` | internal/operations/postgres_repository.go:140-164 | every step keeps the job table's invariant and the reference of each job to an asset of its workspace |
| `Jobs.ClaimOrder` | internal/job/postgres_repository.go:279-284 | the selection order is strict and total, expired runs before waiting jobs, then by time available and time created |
| `Jobs.FinishGuardNeverFires` | internal/job/postgres_repository.go:492-515 | a running job always has its one open attempt |
| `Jobs.GrantKeepsInv` | internal/job/postgres_repository.go:297-347 | leasing a waiting job or an expired one with an attempt left keeps the record sound |
| `Jobs.GiveUpKeepsInv` | internal/job/postgres_repository.go:297-321 | giving up an expired job without attempts left keeps it sound |
| `Jobs.SucceedExactlyWithLiveLease` | internal/job/postgres_repository.go:354-395 | Succeed succeeds if and only if the worker owns the live lease |
| `Jobs.FailExactlyWithLiveLease` | internal/job/postgres_repository.go:397-462 | so does Fail |
| `Jobs.LeaseLastsItsDuration` | internal/job/postgres_repository.go:324-347 | a granted lease is live for its worker and nobody else exactly until it runs out, and the job is due again from then on |
| `Jobs.FailureComesBackLater` | internal/job/postgres_repository.go:424-446 | a failed attempt comes back exactly after the retry delay, unless it was the last, and the ledger records which |
| `Jobs.RetryGivesOneAttempt` | internal/operations/postgres_repository.go:159-164 | a retry leaves exactly one attempt and the ledger as it was |
| `Splice.GreedyIsComplete` | internal/correction/processor.go:217-221 | the greedy leftmost search succeeds if and only if some ordered, non-overlapping placement of the segment texts exists |
| `Splice.GreedyIsLeftmost` | internal/correction/processor.go:217-221 | and places every segment as far left as any placement does |
| `Splice.Index` | internal/correction/processor.go:218 | the leftmost match at or after the cursor, or none |
| `Correction.ApplyProposal` | internal/correction/processor.go:208-241 | the cursor loop computes the corrected revision as defined |
| `Correction.CorrectsIffPlaced` | internal/correction/processor.go:208-241 | it succeeds if and only if the segments occur in the text in order |
| `Correction.CorrectionKeepsGaps` | internal/correction/processor.go:217-240 | source and result are the same gaps around the old and the new segment texts |
| `Correction.CorrectionKeepsTheRest` | internal/correction/processor.go:223-238 | of a segment only the text changes, to the replacement of the last change that names it, and its word timings are dropped; a segment that no change names keeps both; times, speaker and confidence stay |
| `Correction.NoChangesKeepText` | internal/correction/processor.go:208-241 | without changes the text is unchanged |
| `Correction.CorrectionCanBeRepeated` | internal/correction/processor.go:208-241 | the result is again a source on which correction succeeds, for every next proposal |
| `Correction.SplicedIsRewrite` | internal/correction/processor.go:217-240 | the loop rewrites the text at the greedy placement |
| `Review.FoldDecisions` | internal/review/postgres_repository.go:103-123 | the in-place fold fails if and only if some decision names no change; else each change has the verdict of the last decision that concerns it, or the default |
| `Review.FoldedIsLastDecision` | internal/review/postgres_repository.go:103-123 | last decision wins, in both directions |
| `Review.BuildReviewed` | internal/review/postgres_repository.go:274-311 | the rebuild loop computes the reviewed content as defined, with its refusals |
| `Review.ReviewIsCorrectionByAccepted` | internal/review/postgres_repository.go:274-311 | for every validated proposal and every choice of accepted changes review succeeds and gives exactly the text and the segments of applyProposal restricted to the accepted changes |
| `Review.ReviewExtremes` | internal/review/postgres_repository.go:274-311 | all accepted gives the corrected text, none accepted the parent's |
| `Review.RecordedIndexesAreAccepted` | internal/review/postgres_repository.go:298-302 | the recorded indexes are those of the accepted changes, all and only |
| `Review.DecisionsDecideTheText` | internal/review/postgres_repository.go:103-128 | from validation through decisions to the text: the reviewed text is the source corrected by exactly the changes whose last decision accepts them |
| `Review.ValidatedFitsSource` | internal/llm/validation.go:131-143 | a validated proposal changes each segment at most once and quotes it exactly |
| `EditSize.Measure` | internal/llm/validation.go:288-300 | the two loops find the smallest possible max(removed, inserted) over all ways of writing both texts with a shared prefix and a shared suffix |
| `EditSize.ChangedSpan` | internal/llm/validation.go:288-306 | that size and its share of the longer text |
| `EditSize.SizeIsLeast` | internal/llm/validation.go:288-306 | optimality of the measure |
| `EditSize.SizeIsSymmetric` | internal/llm/validation.go:288-306 | it is symmetric |
| `EditSize.SizeIsZeroIffEqual` | internal/llm/validation.go:288-306 | and zero exactly for equal texts |
| `Proposals.ValidateRequest` | internal/llm/validation.go:87-109 | accepts exactly the valid requests |
| `Proposals.ValidateProposal` | internal/llm/validation.go:111-179 | the verdict (the change ratio, or the first problem of the first change that has one) and the whole report with its flags |
| `Proposals.ValidIffAcceptable` | internal/llm/validation.go:111-179 | a proposal is accepted if and only if it changes each segment at most once, exactly as the glossary says, by at most half, and all changes together touch at most 35 percent of the text, over exact numbers |
| `Proposals.FlagsTellTheProblem` | internal/correction/processor.go:288-292 | each flag is down exactly for its problem, the reported problem is there, and the report passes for automatic approval exactly if the proposal is valid |
| `Proposals.ReportHoldsTheRatio` | internal/llm/validation.go:165-178 | the report holds the part of the text that the changes touch once all of them are good, and zero before |
| `Proposals.RoundingDecidesAlike` | internal/llm/validation.go:165-176 | comparing the ratios in 64-bit floating point decides as the exact numbers do, for every monotone and accurate rounding and all texts a request may hold |
| `Proposals.AutoApproves` | internal/correction/processor.go:261-286 | approved automatically if and only if the proposal is valid, the policy is glossary-only and there are rules and changes: the second glossary check never refuses |
| `ObjectStore.WriteOnce` | internal/storage/s3_core.go:467-501 | under every interleaving of puts, assembles and deletes, for both drivers, an occupied key keeps its bytes until a delete removes it |
| `ObjectStore.SuccessMeansHeld` | internal/storage/s3_core.go:467-545 | over every run, whoever else puts, assembles or deletes: a call that ends in success reports the size and digest of the bytes its key holds at the very step that ends it |
| `ObjectStore.OccupiedKeysKeepTheirBytes` | internal/storage/s3_core.go:406-448 | no step changes an occupied key; a checked delete removes it only if the bytes at that moment have the expected size and digest |
| `ObjectStore.SuccessReportsStoredBytes` | internal/storage/s3_core.go:467-545 | at the step that reports success the key holds the reported bytes: created there, or found there and compared |
| `ObjectStore.SuccessfulAssemblyIsConcatenation` | internal/storage/s3_core.go:125-216 | over every run: if a call begins as Assemble of some parts and ends in success, then at a step within the call its key held the concatenation of exactly those parts, which are in increasing number, except that a target found occupied at first look is reused unread and then is the concatenation if and only if the expected digest is its digest |
| `ObjectStore.ReuseIgnoresParts` | internal/storage/s3_core.go:152-162 | a concrete reuse whose object is not the parts |
| `ObjectStore.AssemblyChecksWhatItRead` | internal/storage/s3_core.go:170-211 | what is published has the expected size and digest, and the running size never leaves the 64-bit range |
| `Assemblies.UndisturbedAssembly` | internal/storage/s3_core.go:125-216 | an assembly nobody disturbs, onto a free key, succeeds if and only if every part is stored with its recorded size and digest and the whole has the expected digest; it then stores exactly their concatenation, and otherwise stores nothing and reports the fault of the first part that is not as recorded |
| `Assemblies.OccupiedTarget` | internal/storage/s3_core.go:152-162 | onto an occupied key it changes nothing, and succeeds exactly if the object has the expected size and digest |
| `Assemblies.ValidPartsAreProper` | internal/storage/local.go:651-685 | the check of neighbours accepts exactly references that increase throughout, at keys of the upload, with canonical digests and the expected total |
| `Assemblies.AssemblyStartsExactly` | internal/storage/s3_core.go:125-150 | when an assembly starts; otherwise it fails at once and changes nothing |
| `Assemblies.VanishedObjectIsTriedOnceMore` | internal/storage/s3_core.go:467-545 | a publication whose obstacle vanished is tried once more with S3 and not with files |
| `Assemblies.DeletesWhatItChecked` | internal/storage/s3_core.go:406-448 | a checked delete removes exactly the bytes it checked |
| `ObjectStore.UndisturbedPut` | internal/storage/s3_core.go:467-501 | a put nobody disturbs stores its bytes exactly if the key is free or holds them already, else reports a conflict, and never replaces anything |
| `ObjectStore.UndisturbedDelete` | internal/storage/s3_core.go:406-448 | a delete nobody disturbs empties the key exactly if it holds the expected bytes, and succeeds also if there is nothing to delete |
| `ObjectStore.ValidatePartRefs` | internal/storage/local.go:651-685 | accepts exactly references in increasing order, with keys of the upload, digests in canonical spelling and sizes adding up to the expected size; the 64-bit sum never overflows |
| `ObjectStore.RunKeepsInv` | internal/storage/local.go:229-350 | what calls in flight have established, along every run |
| `PurgeRuns.RowsVanishLast` | internal/assetpurge/postgres_repository.go:157-220 | in every run of any number of workers, with crashes between any two steps, page-by-page deletion of parts and rows changing meanwhile: in the step in which a worker deletes the rows, of all keys they name the store holds exactly the parts written since that worker began to list their upload and not removed since |
| `PurgeRuns.PurgedBytesStayGone` | internal/assetpurge/postgres_repository.go:157-220 | and the same is true at every later moment, for the inventory and the worker that deleted the rows |
| `PurgeRuns.LateMeansWrittenAfterListing` | internal/storage/s3_core.go:366-404 | such a part is one that the run writes at a step after the step at which the worker began to list the upload, if and only if |
| `PurgeRuns.RowsGoExactly` | internal/assetpurge/postgres_repository.go:121-242 | the rows go exactly when a worker that has done everything finalizes under a live lease and finds the rows it loaded |
| `PurgeRuns.ObjectsGoAfterParts` | internal/assetpurge/processor.go:110-132 | objects are deleted, and a purge finalized, only after the parts of every upload |
| `PurgeRuns.OnlyNamedKeysAreDeleted` | internal/assetpurge/processor.go:102-119 | workers remove nothing but what their inventory names, and objects only if their bytes are the recorded ones |
| `PurgeRuns.TakeKeepsInv` | internal/assetpurge/processor.go:84-133 | every step keeps the invariant |
| `PurgeReruns.UndisturbedWorkerFinishes` | internal/assetpurge/processor.go:84-133 | from every state whose rows can be loaded and their bytes deleted, a new worker that nobody disturbs has a run that ends without the rows and with exactly the bytes they named gone |
| `PurgeReruns.RerunReachesTheSameEnd` | internal/assetpurge/processor.go:84-133 | any number of workers, stopped anywhere in their deletions, leave a state from which an undisturbed rerun reaches the end the first would have reached: no rows, and the store without the keys they named |
| `PurgeReruns.EveryFinishIsTheSame` | internal/assetpurge/processor.go:84-133 | every run of any number of workers, in whatever order, pages and restarts, that ends without the rows ends with the store it began with, less exactly the keys they named |
| `PurgeReruns.LatePartSurvives` | internal/storage/s3_core.go:366-404 | a run in which a part written after the only page of the listing is left when the rows are gone |
| `AssetPurge.Purger.RunOnce` | internal/assetpurge/processor.go:84-133 | a run stopped after any number of store operations either has removed all bytes and rows, exactly when it could, or has left the rows alone and touched only named keys |
| `IsoBoxes.WalkBoxes` | internal/audio/m4a.go:129-144 | the loop visits the boxes of the range, in 64-bit offsets that never overflow |
| `IsoBoxes.WalkTiles` | internal/audio/m4a.go:129-178 | on success the boxes tile the range exactly, each at least eight bytes long |
| `IsoBoxes.TilesCoverOnce` | internal/audio/m4a.go:129-178 | so every byte lies in exactly one box and there are at most as many boxes as headers fit |
| `IsoBoxes.NestedBoxesStayInside` | internal/audio/m4a.go:208-251 | every nested walk, however deep, stays inside its parent |
| `IsoBoxes.SumMedia` | internal/audio/m4a.go:55-60 | the sum of mdat payloads fails exactly on an empty payload and never exceeds the file size; the overflow half of the guard is unreachable |
| `IsoBoxes.WalkInvertsEncode` | internal/audio/m4a.go:146-178 | walking written boxes, with 32-bit or 64-bit sizes and a last one that may reach to the end, gives back their kinds and payloads in order |
| `IsoBoxes.ReadBoxIsWritten` | internal/audio/m4a.go:146-178 | a box that is read is the writing of its kind and payload in one of the three forms: nothing else is accepted |
| `IsoBoxes.WalkedIsWritten` | internal/audio/m4a.go:129-178 | a range that is walked to its end is the writing of the boxes it gives, in order |
| `Descriptors.ParseDescriptor` | internal/audio/m4a.go:555-579 | the length loop computes the descriptor as defined, with a payload inside the buffer and an advancing end |
| `Descriptors.ReadDescriptor` | internal/audio/m4a.go:555-579 | the payload lies inside the buffer and the next offset is at least two further |
| `Descriptors.DescriptorReadsBack` | internal/audio/m4a.go:555-579 | inverts the base-128 length encoding for every length below 2^28, in every number of length bytes |
| `Descriptors.ReadDescriptorIsWritten` | internal/audio/m4a.go:555-579 | every descriptor that is read is one that the encoding writes, with the same tag, payload and number of length bytes |
| `Descriptors.FindSpecificConfig` | internal/audio/m4a.go:521-547 | the descriptor loop ends, stays in range, and finds the configuration if and only if all descriptors are sound and exactly one carries it |
| `DecoderConfigs.WrittenConfigIsFound` | internal/audio/m4a.go:521-547 | a configuration written once among any other descriptors is found |
| `DecoderConfigs.FoundConfigIsWritten` | internal/audio/m4a.go:521-579 | nothing else is found: the descriptors are the writing of descriptors of which exactly one is the configuration |
| `AudioConfig.ReadsCompose` | internal/audio/m4a.go:644-656 | reading a bits then b bits is one read of a+b bits split at b |
| `AudioConfig.BitReader.Read` | internal/audio/m4a.go:644-656 | the bits at the offset as a number, exactly when 1 to 24 of them are left, in 32-bit arithmetic that never overflows |
| `AudioConfig.Parse` | internal/audio/m4a.go:581-628 | the parser over the bit reader computes the configuration as defined |
| `AudioConfig.WrittenConfigIsRead` | internal/audio/m4a.go:581-628 | every layout of a configuration is read back |
| `AudioConfig.ReadConfigIsWritten` | internal/audio/m4a.go:581-628 | nothing else is accepted |
| `AudioConfig.ConfigRoundTrip` | internal/audio/m4a.go:581-628 | writing a configuration into bytes and parsing them gives it back |
| `AudioConfig.RatesHalve` | internal/audio/m4a.go:658-661 | the table of rates: three families, each entry half the one three places before, and the odd last entry |
| `Durations.MillisecondsIsExactIff` | internal/audio/m4a.go:663-674 | milliseconds is floor(duration*1000/timescale) where that fits int64 and zero where not, if and only if not both duration/timescale is 18446744073709551 and the fraction exceeds 616 thousandths; there it wraps to the fraction minus 616 |
| `Durations.MillisecondsWraps` | internal/audio/m4a.go:666-669 | the wrap at timescale 3 with remainder 2 |
| `Durations.FramesGiveExactDuration` | internal/audio/wav.go:132-134 | the duration from whole frames equals floor(bytes*1000/byteRate) |
| `Wav.Probe` | internal/audio/wav.go:39-144 | accepts exactly files whose chunks and padding tile bytes 12..end, with one good format and one data chunk of whole frames; the reported duration is floor(dataBytes*1000/byteRate) |
| `Wav.Scan` | internal/audio/wav.go:66-124 | the chunk loop finds the one format and the one data chunk, or there is no acceptable reading |
| `Wav.ChunksTile` | internal/audio/wav.go:72-124 | the chunks with their padding tile the range |
| `Wav.ChunkEndsFit` | internal/audio/wav.go:81-88 | in a file with a valid header the ends of a chunk fit 64 bits, so the two overflow guards never fire |
| `Wav.ParseFormat` | internal/audio/wav.go:170-205 | accepts exactly the consistent formats: the guards against 16-bit and 32-bit overflow refuse nothing; an accepted format is within the limits |
| `Wav.FormatProductsFit` | internal/audio/wav.go:189-196 | the products checked against 16 and 32 bits never exceed them |
| `WavFiles.WrittenFileIsAccepted` | internal/audio/wav.go:39-205 | every file written with one format chunk of consistent fields and one data chunk of whole frames is accepted, wherever they stand and whatever stands between them, and read with exactly the fields written |
| `WavFiles.AcceptedFileIsWritten` | internal/audio/wav.go:39-205 | nothing else is accepted: an accepted file is the writing of such chunks |
| `WavFiles.FieldsReadBack` | internal/audio/wav.go:170-176 | the six fields of a written format are read back, each from its place |
| `WavFiles.CodecNamesTheSamples` | internal/audio/wav.go:207-229 | the six supported pairs of tag and width, and that the codec's name spells sample kind, width and byte order |
| `Retry.RetryDelay` | internal/asr/registry.go:273-289 | equals min(MaxDelay, max(vendor delay, min(MaxDelay, BaseDelay*2^(k-1)))) for every valid policy, without overflow |
| `Retry.LimitsAreAllowed` | internal/asr/capability.go:120-122 | policies at either limit are valid, so what is proved of valid policies covers them |
| `Retry.TranscribeTarget` | internal/asr/registry.go:194-220 | stops at the first decisive attempt and reports its verdict; at most MaxAttempts calls and (MaxAttempts-1)*MaxDelay of sleep, an interrupted pause included |
| `Retry.CalledUntilFinal` | internal/asr/registry.go:194-220 | a target is called again exactly while it replies with a rate limit, a transient failure or a deadline and attempts are left |
| `Retry.InterruptedPauseEnds` | internal/asr/registry.go:211-217 | an interrupted pause ends the target, with a transient failure that the next target may mend if its time ran out, and canceled for good otherwise |
| `Retry.StopsExactly` | internal/asr/registry.go:256-263 | the failures that stop a route are a bad configuration, bad audio and cancellation |
| `Retry.WhatRepliesMean` | internal/asr/registry.go:237-254 | what each reply comes to: retry, another target, or the end of the route |
| `Retry.TranscribeRoute` | internal/asr/registry.go:156-175 | the result is that of the first target that succeeds or must not be failed over, else the last failure; all targets before it failed safely; calls and sleep are bounded by the policies |
| `Retry.RouteBounds` | internal/asr/registry.go:156-220 | so calls are at most the sum of MaxAttempts over the route |
| `Retry.Registry.Set` | internal/asr/registry.go:65-91 | registers or replaces exactly when allowed, under the identifier as it is given, which must not be blank, and keeps the route |
| `Retry.Registry.Activate` | internal/asr/registry.go:94-116 | installs the whole route of trimmed identifiers exactly when it is non-empty, registered and free of duplicates |
| `Retry.PaddedIsNeverActivated` | internal/asr/registry.go:94-116 | an identifier with blanks at its ends is on no route, although it can be registered |
| `Retry.Registry.Remove` | internal/asr/registry.go:120-133 | removes exactly a registered profile that is not on the route |
| `Retry.Registry.ActiveTargets` | internal/asr/registry.go:177-192 | the missing-active-profile error is unreachable |
| `Scheduler.FairScheduler.RunOnce` | cmd/worker/main.go:52-67 | executes the nearest processor that is not idle; an idle result means every processor was tried once |
| `Scheduler.PickIsNearest` | cmd/worker/main.go:56-65 | no busy processor nearer on the ring is passed over |
| `Scheduler.BusyProcessorIsServed` | cmd/worker/main.go:52-67 | a processor that always has work is executed within as many further calls as it is places ahead, whatever the others do |
| `Scheduler.FairWithinRound` | cmd/worker/main.go:52-67 | hence within n consecutive calls for n processors |

## Left out

- RealtimeService.SessionTable.Create: whether the referenced provider profile and hotword set exist is one boolean of the call.
- JobTable.JobRepository.Claim: the rows locked by other transactions are one set for the whole call; the status change of the asset of a given-up job is modelled in JobAssets, on values.
- JobTable.JobRepository.Fail: the status change of the asset of a terminally failed job is modelled in JobAssets, on values.
- JobTable.JobRepository.RetryJob: the asset is seen as the row it locks; its way back to processing is modelled in JobAssets, on values.
- JobAssets.ProcessingMeansTranscribing: idempotency keys and the version numbers that trashing, restoring and purging compare are left out.
- Retry.Registry.Set: the provider's own profile checks other than the retry limits are one boolean.
- Proposals.ValidateProposal: the glossary, the number, unit and negation patterns and the content check are uninterpreted functions; the ratios are exact numbers, which Proposals.RoundingDecidesAlike relates to floating point.
- Correction.ApplyProposal: texts are sequences of characters rather than UTF-8 bytes, and the generator of segment identifiers never fails.
- ObjectStore.SuccessReportsStoredBytes: reading a source into a temporary file, failing requests and directory handling are left out; a put starts with its bytes at hand.
- AssetPurge.Purger.RunOnce: the claim, the recording of a failure and the identifier and backend checks of the inventory are left out; the order of deletions is any order.
- The transaction that writes the revisions of an automatic approval, and its checks of stored JSON.
- Wav.Probe: the input is a byte string, so reading from it does not fail.
- The M4A sample tables, media headers and file-type brands, whose parsing adds fixed-offset reads only.
- Glossary rule merging, permissions, input trimming of worker names, audit rows, configuration and notifications.
- HTTP and WebSocket transport, JSON and base64 codecs, vendor adapters, encryption and identifiers.
- The encoding of an empty change list: a correction without changes may store its diff as null, which review then refuses; JSON is not part of the model.
