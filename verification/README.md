# Sona: a verified model of its sequential and concurrent cores

Sona is a local voice assistant with live subtitles and meeting transcription. This project models the parts of it
whose correctness does not show in any single function, and proves what they keep over every run. `dafny verify
dfyconfig.toml` checks all of it.

| file | models |
|---|---|
| `Transcript.dfy`, `MeetingRepository.dfy` | the stored transcript and the transactions on it |
| `RecoveryJournal.dfy`, `TranscriptPersistence.dfy` | the append-only journal, its replay, and the service that falls back to it |
| `RuntimeMode.dfy` | the arbiter of the four exclusive workloads |
| `SubtitleSession.dfy`, `ConfirmedSegments.dfy` | PCM and timeline of the subtitle session; its confirmed history |
| `WireCodec.dfy` | the binary framing of the audio helper and its incremental decoder |
| `ContextMemory.dfy`, `ResponseChain.dfy` | turn normalisation and compaction; the response chain they are swapped into |
| `Scheduler.dfy` | priority admission to the local model |
| `EventFanout.dfy` | revision gate and per-client queues of the meeting events |
| `DiarizationSmoother.dfy` | speaker smoothing |
| `EnergyGate.dfy` | the adaptive energy gate in its two forms |

A component that changes its fields is a class whose methods follow its code; each is proved against a function on
values (`Next`, `Apply`, `Decode`, ...), and the lemmas about whole runs are about that function. What the code awaits
or cannot see is a choice the model leaves open: a database call may fail before or after its commit, a workload may
return, raise or be cancelled, a send may fail. A cooperative task runs from one await to the next as one step. Every
call out of the code and every failure of what it calls is entered in a ghost record, and only where it happens
(`World.calls` for database and journal file, `Coordinator.calls` and `failures` for the workloads and the owner
callback): so the results can say what is called, in which order, and that nothing but a failure makes the code fall
back, roll back or raise.

Some names: the *virtual transcript* (`Virtual`) is the stored transcript followed by the replay of the pending
journal. A command of the arbiter is *abandoned* where shutdown cancelled it, or where it was cancelled again inside
its own rollback (`stray`). The *belief* of a response id is the list of completed turns its chain stands for. The
*log* of the event broadcaster, and those of the scheduler, record a run; the code reads none of them.

## What the proofs found

- The deduplication signature is kept from the last stored window while another window is only journaled, so a
  genuine repeat can be lost (`RepeatCanBeLost`); it also ignores order, translation and language. `SkipIsHarmlessIff`
  says exactly when skipping loses nothing.
- The journal is split at every Unicode line boundary, but its JSON escapes only control characters: a window with
  U+0085, U+2028 or U+2029 in a text is reported as journaled, makes the file unreadable and is lost
  (`SplitWindowIsLost`). The journal stays readable exactly while every append, failed ones included, leaves nothing or
  one whole line (`ReadableIffIntact`).
- A requested status INTERRUPTED can be lost in the recovery of a finalisation, and the meeting then ends COMPLETED: a
  replay seals the transcript and fails before the status (`StatusCanBeLost`), or of the two operations written ahead
  only the first reached the journal, where one complete replay is enough (`HalfWrittenAheadLosesStatus`).
  `RecoveredStatus` and `StatusAfterFailure` show that there is no third way.
- A cancellation that hits the rollback of a command behind the barrier leaves the owner at none with the mode unchanged
  (`SwitchWorkload` and `StopSource` say exactly when). In `end_meeting`, where the owner callback refuses idle and the
  stop of the subtitles is then cancelled, mode meeting is left without an active meeting (`EndMeetingLocked`,
  `EndMeetingSticks`), and from there every command is refused (`AnyCommand`). A shutdown that failed is never tried
  again.
- Committing subtitles while the supervisor is closing the connection loses audio that is counted nowhere
  (`LateCommitLosesAudio`), exactly what is queued when the close finishes, and nothing after it
  (`LateCommitLosesExactly`).
- A revised confirmed segment moves to the end of the history, although the comment on the field says that it is
  replaced in place (`RevisionMovesToTheEnd`); `SurvivorsStayInPlace` says for any window what stays in place and what
  comes behind, and `RevisionInPlaceIff` when that is where the revised segments stood. The model follows the code.
- The frame-size check of the decoder after header validation can never fire (`FrameSizeCheckIsDead`).
- A decoded audio frame encodes back to its own bytes only for minor version 0 (`ReencodePcm`), and frames of later
  ones do decode (`LaterMinorDecodes`).
- While a rejected chain is retried, the memory packet is installed before any chain id (`RetryInstallsPacketFirst`,
  `RetryIsReachable`); `PacketMovesAloneIff` lists all steps that move the packet and leave the chain id.
- An acquire interrupted after its admission never gives the lease back, and the scheduler then admits nobody
  (`LeaseCanBeLost`, `LostLeaseBlocks`).
- Smoothing a smoothed window can change it: merging may leave a short run that looks like a flicker
  (`SmoothingTwiceDiffers`); it changes nothing exactly where none is left (`SmoothingTwiceIff`).
- A frame outside suppression ends a barge-in in the processor but is unknown to the gate class, which separates the
  two unless nothing was pending (`UnsuppressedFrameSeparates`); `UnsuppressedFrameMisleadsIff` says when the next frame
  is decided differently, and `GatesCanDisagree` shows one.

## Model

| member | source | states |
|---|---|---|
| Transcript.SortSegments | src/sona/meeting/repository.py:375-377 | the segments sorted by (start, end, order): sorted, and the same multiset |
| Transcript.ReplaceFrom | src/sona/meeting/repository.py:378 | the least start of the segments, and 0 for none |
| Transcript.ApplyActsPointwise | src/sona/meeting/repository.py:429-464 | the delete-then-upsert of a window acts on each id by itself: what a row becomes depends only on the row and the window |
| Transcript.ReplayUnmentioned | src/sona/meeting/repository.py:372-494 | an id no window names survives a replay exactly when none of the windows removes its end |
| Transcript.ReplayMentioned | src/sona/meeting/repository.py:372-494 | an id some window names ends the same from any two transcripts |
| Transcript.ReplayConverges | src/sona/meeting/recovery.py:140-142 | after any windows drawn from a list have been applied, in any order and repetition, replaying the whole list gives the same transcript as replaying it on the original |
| Transcript.ReplayConcat | src/sona/meeting/recovery.py:140-142 | replaying two lists in turn is replaying their concatenation |
| Transcript.ApplyTwice | src/sona/meeting/repository.py:372-494 | a window applied a second time changes nothing |
| Transcript.FastPathChangesNothing | src/sona/meeting/repository.py:393-427 | where the stored suffix, listed in key order, already reads like the sorted window, the full replacement would change nothing |
| Transcript.WindowChangesNothingIff | src/sona/meeting/repository.py:383-464 | a window changes nothing exactly when it is empty or the stored suffix already reads like the segments it would leave behind, repeated ids included |
| Transcript.FastPathIsExact | src/sona/meeting/repository.py:393-427 | for distinct ids the guard of the fast path, up to the order of ties, holds exactly where the replacement would change nothing |
| Transcript.ListingDecides | src/sona/meeting/repository.py:393-427 | the ordered rows equal the sorted window only where the window is stored, and always where it is stored and no two keys are equal |
| Transcript.RepeatChangesNothingIff | src/sona/meeting/persistence.py:68-82 | right after a window, another with the same spans changes nothing exactly when it writes the same rows |
| Transcript.RenumberIsContiguous | src/sona/meeting/repository.py:518-532 | sealed orders lie below the number of rows and increase exactly along (start, end, id) |
| Transcript.RenumberTwice | src/sona/meeting/repository.py:518-532 | sealing a sealed transcript changes nothing |
| MeetingRepository.StatusMoves | src/sona/meeting/repository.py:1129-1153 | a status change is accepted exactly for the thirteen moves listed |
| MeetingRepository.EndedStaysEnded | src/sona/meeting/repository.py:331-559 | over any calls in any order, returned or raised: a meeting that has ended keeps its transcript and is never live again, one interrupted or out of storage keeps its status, recording never comes back |
| MeetingRepository.MeetingStore.GetMeeting | src/sona/meeting/repository.py:1118-1127 | a read of the status, which may fail and changes nothing |
| MeetingRepository.MeetingStore.SelectFrom | src/sona/meeting/repository.py:393-402 | exactly the rows ending at or after the bound, each once, in key order |
| MeetingRepository.MeetingStore.ReplaceSuffix | src/sona/meeting/repository.py:393-464 | the stored suffix is replaced by the window; no row is written only where it was already stored, and always where it was and no two keys are equal |
| MeetingRepository.MeetingStore.CommitWindow | src/sona/meeting/repository.py:372-494 | both revisions rise by one together exactly where rows are written |
| MeetingRepository.MeetingStore.Reconcile | src/sona/meeting/repository.py:372-494 | one transaction: refused exactly where the meeting is missing or has ended, with that fault and nothing changed, unless the database fails, and then applied whole or not at all; the receipt lists the sorted window and the revisions; these rise by one together, and stay for an empty window and for one already stored whose keys have no ties |
| MeetingRepository.MeetingStore.ChangeStatus | src/sona/meeting/repository.py:331-370 | one transaction: the status changes exactly along an allowed transition, else its refusal and nothing changed; where the database fails, changed or not |
| MeetingRepository.MeetingStore.Finalize | src/sona/meeting/repository.py:496-559 | one transaction: rows renumbered and the status set in one step, or refused with nothing changed; a meeting already in that status is left alone; a status that is not final never reaches the database |
| RecoveryJournal.ReadsIffContiguous | src/sona/meeting/recovery.py:176-194 | a journal reads successfully exactly when its non-blank lines are all valid, of this meeting and numbered from 1 without a gap; it then yields just these records |
| RecoveryJournal.ReadAppend | src/sona/meeting/recovery.py:168-194 | reading with one more line is reading without it and then that line |
| RecoveryJournal.OneLineWindowIff | src/sona/meeting/recovery.py:76-84 | an envelope is one line exactly where no text of its window holds U+0085, U+2028 or U+2029 |
| RecoveryJournal.JournalFile.Read | src/sona/meeting/recovery.py:176-194 | the loop with its expected counter computes what the recursive reading specifies |
| RecoveryJournal.JournalFile.Append | src/sona/meeting/recovery.py:50-98 | what an append leaves is nothing, a piece that no longer reads, or the whole operation at the end of the journal, under the next number; while the disk works it succeeds exactly where the journal reads |
| RecoveryJournal.JournalFile.WriteLines | src/sona/meeting/recovery.py:76-91 | a write that is not cut short leaves the old lines and then the whole envelope |
| RecoveryJournal.JournalFile.ReplayMeeting | src/sona/meeting/recovery.py:113-148 | an attempt applies a prefix of the pending operations; only a complete one, or a terminal meeting, empties the journal; a torn journal is refused; while nothing fails outside, all operations run until one is refused, and the file is then deleted unless one was; nothing is ever appended |
| RecoveryJournal.JournalFile.ReplayEnvelopes | src/sona/meeting/recovery.py:126-148 | the same behind the reading of the file |
| RecoveryJournal.JournalFile.ReplayAll | src/sona/meeting/recovery.py:140-142 | the operations are carried out in order, each once, until one fails; without a failure outside, until one is refused |
| RecoveryJournal.JournalFile.ReplayOne | src/sona/meeting/recovery.py:196-230 | one operation is carried out as its repository call, and no other; where that call fails outside it may or may not have taken effect |
| RecoveryJournal.JournalFile.Discard | src/sona/meeting/recovery.py:150-155 | the file is deleted or kept whole |
| TranscriptPersistence.Persistence.ReplayPending | src/sona/meeting/persistence.py:112-124 | one replay attempt of the journal, if there is one; signature kept; the degraded flag falls only when something was replayed |
| TranscriptPersistence.Persistence.Write | src/sona/meeting/persistence.py:83-88 | the replay and, only behind a finished one, the write; while nothing fails outside, the state and the refusal they lead to |
| TranscriptPersistence.Persistence.WriteReplayed | src/sona/meeting/persistence.py:85-88 | the write behind a finished replay |
| TranscriptPersistence.Persistence.Reconcile | src/sona/meeting/persistence.py:65-110 | deduplicated exactly where the signature is that of the last stored window, and then nothing is called; else the journal is replayed and the window written, and a submission during which neither database nor disk fails ends as these two operations say: stored, and only where they are refused journaled or raised; degraded says which |
| TranscriptPersistence.Persistence.WriteAhead | src/sona/meeting/persistence.py:142-156 | both operations are appended in this order, the second only behind a successful first; while the disk works both are in the journal |
| TranscriptPersistence.Persistence.Seal | src/sona/meeting/persistence.py:157-170 | the database is called once, and the file deleted only where that returned |
| TranscriptPersistence.Persistence.FinalizeReplayed | src/sona/meeting/persistence.py:142-170 | the write-ahead before the database call, the deletion behind it |
| TranscriptPersistence.Persistence.Finalize | src/sona/meeting/persistence.py:126-170 | replay, write-ahead, sealing and discard, with all calls in their order and every way each of them may fail; a finalisation whose database call did not fail returns exactly where the status change is admitted |
| TranscriptPersistence.ReplayKeepsVirtual | src/sona/meeting/recovery.py:113-148 | a replay attempt that finishes, stops anywhere, or cannot delete its file keeps the transcript-plus-pending-journal |
| TranscriptPersistence.FailedWriteKeepsVirtual | src/sona/meeting/persistence.py:83-96 | after a failed replay or write, applying the window once more gives the same as applying it once |
| TranscriptPersistence.ReconcileIsAtomic | src/sona/meeting/persistence.py:65-110 | stored, or journaled on one line: exactly this window is added to transcript-plus-journal; raised: added or not; deduplicated: nothing changes; the journal stays readable exactly where nothing was written to it or the whole of a one-line window |
| TranscriptPersistence.FaultlessIsStored | src/sona/meeting/persistence.py:83-110 | while database and disk work, every window of a live meeting that is no repeat is stored at once: rows are the pending windows and then this one applied, and the journal is empty |
| TranscriptPersistence.FaultlessRunStoresAll | src/sona/meeting/persistence.py:65-110 | over any run in which nothing fails outside: every submission is deduplicated or stored, the journal is never used, and the database alone holds the fold of all windows but repeats |
| TranscriptPersistence.WorkingDiskNeverRaises | src/sona/meeting/persistence.py:88-107 | while the disk works a submission with a readable journal never raises, whatever the database does |
| TranscriptPersistence.TornJournalBlocks | src/sona/meeting/recovery.py:184-191 | with an unreadable journal no submission is stored or journaled any more |
| TranscriptPersistence.ReadableIffIntact | src/sona/meeting/recovery.py:76-91 | the journal stays readable over a run exactly when every append, whether it returned or raised, left nothing or the whole of a one-line window |
| TranscriptPersistence.UnreadableIsFinal | src/sona/meeting/recovery.py:176-194 | once unreadable it stays so, over restarts too: every later submission is a repeat or raises, and the stored rows never change |
| TranscriptPersistence.SplitWindowIsLost | src/sona/meeting/recovery.py:76-84 | a window with a line boundary in a text is reported as journaled while the database is down, and then missing for good |
| TranscriptPersistence.RunRefinesFold | src/sona/meeting/persistence.py:65-110 | over any intact run with any database failures, partial replays, failed deletions, replays on their own and restarts, transcript-plus-journal is the fold of the accepted windows in order; after a stored submission the journal is empty and the database is that fold |
| TranscriptPersistence.RepeatOfLastTakenIsHarmless | src/sona/meeting/persistence.py:81-82 | skipping a repeat of the last window taken loses nothing |
| TranscriptPersistence.LastStored | src/sona/meeting/persistence.py:81-108 | the signature compared is that of the last stored window, with no restart since |
| TranscriptPersistence.SkipIsHarmlessIff | src/sona/meeting/persistence.py:81-82 | in any intact run a deduplicated window has the signature of the last stored one, and skipping it is harmless exactly when it is empty or the transcript already reads like it; with nothing taken in between, exactly when the two write the same rows |
| TranscriptPersistence.RepeatIsSkipped | src/sona/meeting/persistence.py:81-108 | stored, another journaled, then the first again is a run of the service whatever the second window is, and the repeat is skipped |
| TranscriptPersistence.RepeatCanBeLost | src/sona/meeting/persistence.py:81-82 | in that run, for one-segment windows with the same id, the transcript lacks the repeat that was skipped |
| TranscriptPersistence.SignatureIgnoresTranslation | src/sona/meeting/persistence.py:68-80 | two windows that differ in order, translation or language only have one signature |
| TranscriptPersistence.FinalizeSeals | src/sona/meeting/persistence.py:126-170 | a finalisation that returns has stored the renumbered transcript-plus-journal under the requested status |
| TranscriptPersistence.FaultlessFinalizes | src/sona/meeting/persistence.py:126-170 | while nothing fails outside a finalisation returns, with the right transcript sealed and nothing left in the journal |
| TranscriptPersistence.WriteAheadIsWhole | src/sona/meeting/persistence.py:142-170 | where the disk takes both appends, a finalisation that raises behind them leaves exactly these two operations pending |
| TranscriptPersistence.FinalizeLeavesSealing | src/sona/meeting/persistence.py:141-159 | one that raises after its write-ahead leaves the meeting with the sealing pending, or sealed under the requested status |
| TranscriptPersistence.ReplayKeepsSealing | src/sona/meeting/recovery.py:126-148 | each replay attempt keeps it so, and one that finishes has sealed it |
| TranscriptPersistence.RecoverySeals | src/sona/meeting/recovery.py:126-148 | however often the replay is interrupted, once an attempt finishes the sealed transcript is the right one |
| TranscriptPersistence.RecoveredStatus | src/sona/meeting/recovery.py:128-148 | from whatever the write-ahead of a live meeting may have left, and over any replay attempts of which one finishes: the requested status is reached exactly when it is COMPLETED, or both operations were written ahead and no attempt sealed the transcript and failed before the status |
| TranscriptPersistence.StatusAfterFailure | src/sona/meeting/persistence.py:126-159 | the same from a finalisation that raised after its write-ahead: the transcript is the right one, and the status is the requested one also where the database call had committed |
| TranscriptPersistence.StatusCanBeLost | src/sona/meeting/recovery.py:128-139 | from every state with both operations pending two attempts exist that lose INTERRUPTED |
| TranscriptPersistence.HalfWrittenAheadLosesStatus | src/sona/meeting/persistence.py:141-153 | from every recording meeting with a readable journal a finalisation exists of which only the sealing was written ahead, and one complete replay then ends in COMPLETED |
| RuntimeMode.Coordinator.Suspend | src/sona/meeting/runtime_mode.py:267-301 | at every await the owner of the microphone is none or that of the mode; meanwhile workloads may only stop, and shutdown may begin |
| RuntimeMode.Coordinator.OwnerCallback | src/sona/meeting/runtime_mode.py:732-745 | the callback is only ever told an owner that is none or that of the mode |
| RuntimeMode.Coordinator.SetBarrier | src/sona/meeting/runtime_mode.py:722-730 | nobody owns the microphone, or, where the callback raised, whoever did before |
| RuntimeMode.Coordinator.CommitState | src/sona/meeting/runtime_mode.py:732-745 | mode and owner change together and the revision rises by one, or nothing changes |
| RuntimeMode.Coordinator.ForceCommitIdle | src/sona/meeting/runtime_mode.py:747-758 | idle, nobody, and one revision more, even where the callback raises |
| RuntimeMode.Coordinator.AnnounceMeeting | src/sona/meeting/runtime_mode.py:435-463 | the started event is published, which may fail |
| RuntimeMode.Coordinator.DeactivateTarget | src/sona/meeting/runtime_mode.py:545-559 | the committed target is released, and a meeting it had made active is forgotten |
| RuntimeMode.Coordinator.AbortTarget | src/sona/meeting/runtime_mode.py:521-543 | the preparation is cleared only where the abort succeeded |
| RuntimeMode.Coordinator.AbortPreparedSafely | src/sona/meeting/runtime_mode.py:778-798 | what is still prepared is aborted once; errors stay inside |
| RuntimeMode.Coordinator.StopEach | src/sona/meeting/runtime_mode.py:800-813 | the assistant is stopped where it is active, subtitles wherever there are any, a meeting where one is known or running: exactly these calls in this order |
| RuntimeMode.Coordinator.StopAll | src/sona/meeting/runtime_mode.py:800-813 | what is prepared is aborted and every workload stopped; if stops release their workload, none is active afterwards |
| RuntimeMode.Coordinator.ForceIdle | src/sona/meeting/runtime_mode.py:573-598 | everything stopped, idle and settled with one revision more, unless cancelled on the way |
| RuntimeMode.Coordinator.QuiesceSource | src/sona/meeting/runtime_mode.py:600-607 | the source is stopped, by exactly one call, and only while nobody owns the microphone |
| RuntimeMode.Coordinator.RestoreSource | src/sona/meeting/runtime_mode.py:609-628 | an inactive source is started again, subtitles by prepare and then commit, an active one left alone; a success means that it is active; no other workload is started |
| RuntimeMode.Coordinator.Prepare | src/sona/meeting/runtime_mode.py:325-345 | a success has started the assistant, or prepared the target, by exactly one call; an assistant whose start raised after activating it is stopped |
| RuntimeMode.Coordinator.CommitTarget | src/sona/meeting/runtime_mode.py:474-486 | a success has committed the target by exactly one call; the assistant needs none |
| RuntimeMode.Coordinator.Exchange | src/sona/meeting/runtime_mode.py:478-480 | the source is stopped, then the target committed |
| RuntimeMode.Coordinator.Advance | src/sona/meeting/runtime_mode.py:474-486 | a switch that gets through has set the barrier, stopped the source, committed the target and told the new owner, in this order and nothing else; target, owner and one revision more are shown with the source released; else mode and revision are untouched; while nothing fails it gets through |
| RuntimeMode.Coordinator.Recover | src/sona/meeting/runtime_mode.py:561-571 | with the target undone: the source started again where it has to be and its owner told, or idle forced |
| RuntimeMode.Coordinator.Rollback | src/sona/meeting/runtime_mode.py:487-518 | the target undone by exactly the call it needs, then the source restored or idle, each with one revision more and settled; abandoned exactly where a second cancellation hit it, or shutdown had begun when a cancelled command had aborted its target |
| RuntimeMode.Coordinator.SwitchWorkload | src/sona/meeting/runtime_mode.py:465-519 | a switch that commits has made exactly the calls prepare or start, barrier, stop of the source, commit, new owner, in this order, and it commits whenever nothing fails; once prepared it ends in target committed, source restored or idle, each raising the revision by exactly one, unless abandoned; a failed prepare leaves mode, owner and revision untouched; the owner differs from that of the mode exactly where the switch was abandoned behind the barrier |
| RuntimeMode.Coordinator.RunSwitch | src/sona/meeting/runtime_mode.py:267-301 | the same as a command, settled where it was and was not abandoned |
| RuntimeMode.Coordinator.StartAssistant | src/sona/meeting/runtime_mode.py:325-358 | refused in a meeting and while closing; returns at once exactly where it is active in mode assistant; any other normal return has made the calls of a whole switch to the assistant, its start first; without a failure it returns |
| RuntimeMode.Coordinator.StartSubtitles | src/sona/meeting/runtime_mode.py:360-402 | refused in a meeting, while closing and without subtitles; while active a different audio source is a conflict and the same one returns at once; any other normal return has prepared, stopped the source, and committed subtitles; without a failure it returns |
| RuntimeMode.Coordinator.StartMeeting | src/sona/meeting/runtime_mode.py:404-433 | a normal return means prepared, committed and announced, in the order of a switch; a cancellation after the commit leaves the meeting committed; without a failure it returns |
| RuntimeMode.Coordinator.RestartAssistant | src/sona/meeting/runtime_mode.py:243-256 | restarts only while the assistant owns the microphone, and touches neither mode, owner nor revision; a normal return has called the restart, once and successfully |
| RuntimeMode.Coordinator.EndMeetingLocked | src/sona/meeting/runtime_mode.py:630-677 | refused exactly where no meeting is active or the id differs; else idle, restored or abandoned, as told by whether the barrier was set, the commit accepted and the forced stop cancelled; a commit has stopped the meeting once between barrier and idle; with nothing prepared, mode meeting is left without a meeting exactly where the barrier was set, the commit refused and the forced stop cancelled |
| RuntimeMode.Coordinator.KeepMeeting | src/sona/meeting/runtime_mode.py:642-650 | where the barrier cannot be set the meeting goes on, or idle is forced |
| RuntimeMode.Coordinator.LeaveMeeting | src/sona/meeting/runtime_mode.py:651-677 | behind the barrier the meeting is forgotten however its stop ends, and idle committed or forced |
| RuntimeMode.Coordinator.EndMeeting | src/sona/meeting/runtime_mode.py:258-262 | a normal return means idle; with no active meeting it is refused |
| RuntimeMode.Coordinator.EndMeetingSticks | src/sona/meeting/runtime_mode.py:258-262 | it happens in every settled meeting where there are subtitles: the commit of idle refused and the stop of the subtitles cancelled, mode meeting is left without a meeting and nobody owns the microphone |
| RuntimeMode.Coordinator.StopActiveMode | src/sona/meeting/runtime_mode.py:679-709 | a normal return means idle, without any call where it was; without a failure it returns; a restored source is active and its mode unchanged; settled between commands |
| RuntimeMode.Coordinator.RestoreAfterCancellation | src/sona/meeting/runtime_mode.py:690-699 | a cancelled stop puts the source back active or forces idle, and is abandoned exactly where shutdown had begun or a second cancellation hits it |
| RuntimeMode.Coordinator.KeepAfterError | src/sona/meeting/runtime_mode.py:700-709 | a failed stop keeps the source exactly where it is still active and the owner callback takes it back; else idle is forced |
| RuntimeMode.Coordinator.KeepSource | src/sona/meeting/runtime_mode.py:690-709 | a stop that did not get through ends in one of these two ways |
| RuntimeMode.Coordinator.StopSource | src/sona/meeting/runtime_mode.py:679-709 | a normal return has stopped the source once between barrier and idle; else the source kept, or idle forced; without a failure it returns; the owner differs from that of the mode exactly where it was abandoned behind the barrier |
| RuntimeMode.Coordinator.LeaveSource | src/sona/meeting/runtime_mode.py:684-689 | behind the barrier the source is released and idle committed with one revision more, or mode and revision stay |
| RuntimeMode.Coordinator.AnyCommand | src/sona/meeting/runtime_mode.py:213-265 | in mode meeting without a meeting every command is refused and nothing changes |
| RuntimeMode.Coordinator.Stop | src/sona/meeting/runtime_mode.py:815-850 | a normal return leaves idle, nobody, closing and stopped; one revision more, but none where the cancelled command had already settled that since the shutdown began; after a failed shutdown every later stop fails and changes nothing |
| RuntimeMode.RevisionCountsSettlements | src/sona/meeting/runtime_mode.py:732-758 | over any run of commands the revision is the number that took effect, the owner is none or that of the mode, and it differs from that of the mode only where a command was abandoned and none has taken effect since |
| SubtitleSession.StepConserves | src/sona/subtitles/sessions.py:279-299 | one step keeps: accepted = sent + queued + in flight + gap + reported + lost, and nothing lost without a disturbance |
| SubtitleSession.StepStaysUndisturbed | src/sona/subtitles/sessions.py:365-444 | what conservation rests on is kept by every step but a disturbance |
| SubtitleSession.StepKeepsTime | src/sona/subtitles/sessions.py:377-395 | offset + sent + queued + in flight never exceeds the received input, and finished epochs stay before the current one |
| SubtitleSession.ReopenResumesAtInput | src/sona/subtitles/sessions.py:377-395 | a reconnect resumes exactly at the end of the received input |
| SubtitleSession.RunsConserveAndKeepTime | src/sona/subtitles/sessions.py:279-299 | both hold in every state of every interleaving, so spans sent in different epochs never overlap |
| SubtitleSession.OffsetsNeverFall | src/sona/subtitles/sessions.py:377-395 | over any run without a new preparation offsets never fall |
| SubtitleSession.UndisturbedRunLosesNothing | src/sona/subtitles/sessions.py:279-299 | from a preparation on, without reset, halt, close or a commit during a close, every accepted byte is sent, queued, in flight, or counted as a gap |
| SubtitleSession.PushBeforeReadyIsGap | src/sona/subtitles/sessions.py:287-291 | over every undisturbed run: while the ready event of this stream has not come nothing is queued or in flight, and a push raises the gap by exactly its length |
| SubtitleSession.PushWhenReadyQueues | src/sona/subtitles/sessions.py:292-299 | once ready, a push is appended last; only from a full queue the oldest chunk is dropped, and exactly that is counted |
| SubtitleSession.SentInOrder | src/sona/subtitles/sessions.py:460-485 | in every interleaving what was sent, is in flight and is queued is the list of accepted chunks with some left out: never reordered, never twice |
| SubtitleSession.ClocksCountChunks | src/sona/subtitles/sessions.py:279-299 | the timeline is the milliseconds sent to the stream of this epoch, the input clock those accepted since the preparation |
| SubtitleSession.LateCommitLosesAudio | src/sona/subtitles/sessions.py:223-235 | a commit while the supervisor is already closing loses the chunk pushed next without counting it |
| SubtitleSession.LateCommitIsReachable | src/sona/subtitles/sessions.py:185-235 | prepare, ready and the end of the connection lead from the start to such a commit |
| SubtitleSession.LateCommitLosesExactly | src/sona/subtitles/sessions.py:414-424 | over any run it loses exactly the chunks still queued when the close finishes, the latest of those pushed since, so audio if and only if one of them is not empty; nothing more is lost on the rest of the run until a reset, a halt or a close |
| SubtitleSession.StandardSubtitleSession.PushAudio | src/sona/subtitles/sessions.py:279-299 | refines the push step: dropped when not committed, counted while not ready, oldest chunk dropped and counted when full |
| SubtitleSession.StandardSubtitleSession.TakeChunk | src/sona/subtitles/sessions.py:460-470 | refines the send loop taking a chunk |
| SubtitleSession.StandardSubtitleSession.FinishSend | src/sona/subtitles/sessions.py:470-485 | refines a send that returned or did not: only a sent chunk advances the timeline, a failed one is a gap |
| SubtitleSession.StandardSubtitleSession.DrainQueue | src/sona/subtitles/sessions.py:595-603 | the queue is emptied and its bytes counted as a gap where asked |
| SubtitleSession.StandardSubtitleSession.BeginDisconnect | src/sona/subtitles/sessions.py:414-415 | whether the queue of an ended connection counts as a gap is decided before the stream is closed |
| SubtitleSession.StandardSubtitleSession.HandleReadyEvent | src/sona/subtitles/sessions.py:494-500 | refines the ready event: from then on chunks are queued |
| SubtitleSession.StandardSubtitleSession.FinishDisconnect | src/sona/subtitles/sessions.py:414-444 | refines the end of a connection: its queue is counted or dropped as decided before the close |
| SubtitleSession.StandardSubtitleSession.Reconnect | src/sona/subtitles/sessions.py:377-395 | refines the opening of the next epoch |
| SubtitleSession.StandardSubtitleSession.FlushGapNotice | src/sona/subtitles/sessions.py:350-363 | the gap is reported once, in whole milliseconds, and counts from zero again |
| SubtitleSession.StandardSubtitleSession.ResetStream | src/sona/subtitles/sessions.py:264-273 | refines the explicit reset |
| SubtitleSession.StandardSubtitleSession.PrepareStream | src/sona/subtitles/sessions.py:185-217 | refines the preparation: fresh timeline, empty queue, nothing accepted yet |
| SubtitleSession.StandardSubtitleSession.CommitPrepared | src/sona/subtitles/sessions.py:219-235 | succeeds exactly where the prepared stream is ready and its supervisor has not ended |
| SubtitleSession.StandardSubtitleSession.CloseStream | src/sona/subtitles/sessions.py:243-262 | refines the close |
| ConfirmedSegments.BestIndexIsBest | src/sona/subtitles/sessions.py:556-572 | the index found is the best-scoring match that is not taken, the first of equals, and none is found only where there is none |
| ConfirmedSegments.MatchesIff | src/sona/subtitles/sessions.py:606-633 | segments match exactly where they are of one epoch, and of one span or with a millisecond in common |
| ConfirmedSegments.BetterMatchIff | src/sona/subtitles/sessions.py:616-633 | of two matches the one with the very span is better, then the one with more milliseconds in common, then the one of the same speaker |
| ConfirmedSegments.PlacingPlaces | src/sona/subtitles/sessions.py:536-546 | every incoming segment is at its own distinct index |
| ConfirmedSegments.PlacingKeeps | src/sona/subtitles/sessions.py:536-546 | placing leaves the segments that match neither window unchanged and in order |
| ConfirmedSegments.RecordingKeeps | src/sona/subtitles/sessions.py:519-546 | after recording, every incoming segment is present at its own index and every earlier one that matches neither window is kept in order |
| ConfirmedSegments.AppendedOnlyUnmatched | src/sona/subtitles/sessions.py:556-572 | a segment is appended only where no free earlier segment matches it |
| ConfirmedSegments.RevisionMovesToTheEnd | src/sona/subtitles/sessions.py:524-532 | four windows from an empty history on move a revised segment behind a later one, where the comment at lines 150-151 has it replaced in place |
| ConfirmedSegments.SurvivorsStayInPlace | src/sona/subtitles/sessions.py:526-546 | any window: every survivor keeps its index or gives it to an incoming segment that matches it, and behind all of them come, in order, exactly the incoming segments that found no free match |
| ConfirmedSegments.UnclaimedStayInPlace | src/sona/subtitles/sessions.py:526-546 | where a window revises nothing of the previous one, or nothing of that is found, every index keeps its segment or holds an incoming one that matches it |
| ConfirmedSegments.RevisionInPlaceIff | src/sona/subtitles/sessions.py:526-546 | otherwise the incoming segments that find no free match come behind all survivors, so where the segments taken out stood exactly where those were the end of the history; a window that matches no survivor is in place exactly then |
| ConfirmedSegments.ConfirmedHistory.FindSegmentIndex | src/sona/subtitles/sessions.py:556-572 | the loop finds the best index of the specification |
| ConfirmedSegments.ConfirmedHistory.FindSegmentIndices | src/sona/subtitles/sessions.py:548-554 | the loop claims one index a segment, never one twice |
| ConfirmedSegments.ConfirmedHistory.RecordConfirmedWindow | src/sona/subtitles/sessions.py:519-546 | refines the recording; an empty window changes nothing |
| WireCodec.NumberRoundTrip | src/sona/audio/ipc.py:19-35 | big-endian numbers of any width read back |
| WireCodec.UnpackPack | src/sona/audio/ipc.py:19-35 | a layout of unsigned fields reads back what was packed |
| WireCodec.PackUnpack | src/sona/audio/ipc.py:19-35 | and packs back what was read |
| WireCodec.MostSignificantFirst | src/sona/audio/ipc.py:19-35 | numbers are written with the most significant byte first |
| WireCodec.LayoutSizes | src/sona/audio/ipc.py:19-35 | the layouts add up to the constants of the format |
| WireCodec.FrameSizeCheckIsDead | src/sona/audio/ipc.py:211-213 | a frame with a valid header is never over the frame limit, so that check never fires |
| WireCodec.Decode | src/sona/audio/ipc.py:186-225 | after a feed without error fewer than 256 + 65536 bytes are left |
| WireCodec.WireDecoder.Feed | src/sona/audio/ipc.py:186-225 | returns what decoding the whole buffer yields and keeps the rest; a raise delivers nothing of that feed |
| WireCodec.WireDecoder.NextFrame | src/sona/audio/ipc.py:190-225 | one turn of the loop: a frame cut off the front, not enough bytes, or the error |
| WireCodec.ExamineMore | src/sona/audio/ipc.py:190-225 | a verdict on the front of a buffer does not change when bytes follow |
| WireCodec.DecodeContinues | src/sona/audio/ipc.py:186-225 | decoding more bytes continues where decoding fewer stopped; an error is final |
| WireCodec.SplitDoesNotMatter | src/sona/audio/ipc.py:186-225 | however a stream is split: without an error the same messages and the same rest; with one, the same error after a prefix of the messages |
| WireCodec.ErrorIsFinal | src/sona/audio/ipc.py:186-225 | after a feed that raised, every later feed raises the same error |
| WireCodec.VerdictByBytes | src/sona/audio/ipc.py:190-332 | every frame is read by the byte positions of the format, and every malformed front raises the code they call for: magic, versions, type, reserved and lengths in bytes 0 to 16; capture, source, generation, sequence, host time, rate, samples, channels, width, flags and length at 16, 32, 48, 52, 60, 68, 72, 74, 75, 76 and 80; a control body is an object whose type is a text of 1 to 64 characters, and so is its request id unless absent or null |
| WireCodec.EncodingByBytes | src/sona/audio/ipc.py:147-173 | every encoded audio message holds its fields at these positions |
| WireCodec.ControlEncodingByBytes | src/sona/audio/ipc.py:117-144 | every encoded control message has the 16 header bytes of its type and length, and then its JSON text |
| WireCodec.ControlEncodesIff | src/sona/audio/ipc.py:117-144 | a control message is encoded exactly where it is well formed and its body can be written in 65536 bytes; the code raised else |
| WireCodec.HeaderRoundTrip | src/sona/audio/ipc.py:147-173 | the common header reads back |
| WireCodec.EncodedDecodes | src/sona/audio/ipc.py:117-173 | a frame the encoder produced decodes to its message |
| WireCodec.DecodeEncoded | src/sona/audio/ipc.py:186-225 | such a frame at the front of a buffer is taken off whole |
| WireCodec.StreamRoundTrip | src/sona/audio/ipc.py:147-225 | any chunking of the concatenated encodings of encodable messages decodes to exactly these, in order, with nothing left |
| WireCodec.ReencodePcm | src/sona/audio/ipc.py:287-332 | encoding a decoded audio frame gives its bytes back exactly when its minor version is 0 |
| WireCodec.LaterMinorDecodes | src/sona/audio/ipc.py:230-262 | such frames exist: every message that can be encoded is also decoded from a frame of any later minor version, with any padding up to the header limit |
| ContextMemory.NormalizeCompletedTurns | src/sona/interaction/context_memory.py:263-323 | the loop computes the specified normalisation, refusals included |
| ContextMemory.NormalizedIsComplete | src/sona/interaction/context_memory.py:263-323 | the turns are numbered 1..2n and alternate user and assistant, whatever was interrupted |
| ContextMemory.AssistantTextIsAMessage | src/sona/interaction/context_memory.py:300-323 | passing the assistant text equals appending it as a message, refusals included |
| ContextMemory.NormalizationIsStable | src/sona/interaction/context_memory.py:263-323 | a valid history cut short stays valid, and its turns are a prefix of those of any valid extension |
| ContextMemory.PairsAreAdjacentMessages | src/sona/interaction/context_memory.py:263-323 | the k-th pair is the k-th assistant message and the message right before it: interrupted inputs appear in no pair |
| ContextMemory.TwoTurnsPerAnswer | src/sona/interaction/context_memory.py:263-323 | there are two turns for every assistant message |
| ContextMemory.WindowBuiltIff | src/sona/interaction/context_memory.py:326-360 | a window is built exactly where more than the wanted number of new pairs exists; each refusal exactly under its condition |
| ContextMemory.BuiltWindowTiles | src/sona/interaction/context_memory.py:326-360 | snapshot range, summarised and recent turns make up the history, cut between pairs, with the configured number kept |
| ContextMemory.FitCompactionWindow | src/sona/interaction/context_memory.py:396-415 | the loop moves the specified number of pairs and terminates |
| ContextMemory.FittedWindowTiles | src/sona/interaction/context_memory.py:396-415 | fitting keeps the tiling; what stays fits the limit or is one pair |
| ContextMemory.FittingIsMinimal | src/sona/interaction/context_memory.py:396-415 | no pair is moved that could have stayed |
| ContextMemory.FittedWindowMakesPacket | src/sona/interaction/context_memory.py:182-197 | a summary of exactly the frozen range makes a valid packet exactly where at most 16 pairs stay recent |
| ContextMemory.RecentTailMakesPacket | src/sona/interaction/reasoning.py:508-518 | the same for an unfitted tail behind a snapshot |
| ContextMemory.CompactionTiles | src/sona/interaction/context_memory.py:326-415 | one compaction extends what is summarised by the turns right behind it |
| ContextMemory.RollingSummariesTile | src/sona/interaction/context_memory.py:326-415 | over any number of compactions of a growing history, each with its own number of kept pairs, every turn is summarised exactly once and in order |
| ResponseChain.RecoveryPacketCovers | src/sona/interaction/reasoning.py:488-535 | a recovery packet makes up exactly the completed turns it is built for |
| ResponseChain.CompactionPacketCovers | src/sona/interaction/reasoning.py:550-560 | so does a compaction candidate |
| ResponseChain.StepKeepsInv | src/sona/interaction/reasoning.py:307-320 | at most one piece of work of the current generation is in flight, a recovery runs only without a chain, a candidate knows its source, and packets are valid: kept by every step |
| ResponseChain.InstalledIffLeftAlone | src/sona/interaction/reasoning.py:569-584 | over any run a candidate replaces the chain exactly when no request, reset or timeout came in between, the client is open, and the user turns agree |
| ResponseChain.InstalledCandidateMatches | src/sona/interaction/reasoning.py:569-584 | it then takes over from the very chain it was built from, unchanged all the while; id, prompt and packet change in one step, and the packet makes up the turns the old chain stood for |
| ResponseChain.OvertakenWorkIsDiscarded | src/sona/interaction/reasoning.py:528-529 | work of an overtaken generation changes nothing when it completes |
| ResponseChain.PacketMovesWithChain | src/sona/interaction/reasoning.py:527-584 | the packet never changes under a chain that stays, new chains have new ids, and chain and prompt are set together |
| ResponseChain.RunIsLabelled | src/sona/interaction/reasoning.py:839-856 | in every reachable state prompt and completed user turns are those of the request that committed the chain id beside them |
| ResponseChain.RequestStaysOnChainIff | src/sona/interaction/reasoning.py:901-960 | a request in any run streams on the chain exactly when it has the prompt of the request that committed the chain and strictly more user turns; otherwise chain and packet are dropped, nothing is sent on an old id, and two generations pass |
| ResponseChain.RejectedOnce | src/sona/interaction/reasoning.py:786-834 | a rejected stream is sent again at most once, without the rejected id |
| ResponseChain.RecoveredStream | src/sona/interaction/reasoning.py:786-834 | the stream behind a recovery may be rejected once more only if the recovery was no retry |
| ResponseChain.RetryInstallsPacketFirst | src/sona/interaction/reasoning.py:786-834 | a current retry that has warmed up leaves the new packet in place and no chain id |
| ResponseChain.PacketMovesAloneIff | src/sona/interaction/reasoning.py:307-320 | in every run the packet changes and the chain id stays exactly where there is no chain and the step is the warm recovery of a current retry of an open client with another packet, or a reset or a timeout of the current stream that drops a packet |
| ResponseChain.RetryIsReachable | src/sona/interaction/reasoning.py:786-834 | for any texts that pass as turns a run of five steps reaches such a retry |
| ResponseChain.NativeChain.ResetConversation | src/sona/interaction/reasoning.py:307-320 | refines the reset step |
| ResponseChain.NativeChain.GetChatCompletions | src/sona/interaction/reasoning.py:901-960 | refines the admission of a request: reset where the history contradicts the chain, a generation of its own, recovery or stream |
| ResponseChain.NativeChain.CommitRecovery | src/sona/interaction/reasoning.py:527-533 | refines the end of a recovery; a stale one changes nothing |
| ResponseChain.NativeChain.CommitAnswer | src/sona/interaction/reasoning.py:839-856 | refines the end of a stream and the scheduling |
| ResponseChain.NativeChain.ScheduleCompaction | src/sona/interaction/reasoning.py:624-697 | refines the scheduling of a candidate |
| ResponseChain.NativeChain.RebuildRejected | src/sona/interaction/reasoning.py:786-834 | refines the rejection of the chain by the server |
| ResponseChain.NativeChain.ReadTimeout | src/sona/interaction/reasoning.py:720-732 | refines the timeout: only the current generation resets |
| ResponseChain.NativeChain.CommitCompaction | src/sona/interaction/reasoning.py:569-584 | refines the guarded installation |
| Scheduler.RunKeepsInv | src/sona/inference/scheduler.py:178-195 | in every reachable state: a free, open scheduler has nobody eligible waiting; one lease at most is out; every call is waiting, admitted or gone and only one of these; admissions of one workload and priority are in call order |
| Scheduler.StepIsFair | src/sona/inference/scheduler.py:178-195 | each admission takes the least eligible waiter, never summary work while paused; a lease without queueing is given only where nobody waits |
| Scheduler.NobodyOvertakes | src/sona/inference/scheduler.py:178-195 | while a call waits and could be admitted, only calls before it in priority or order are admitted |
| Scheduler.LeasesAreSerial | src/sona/inference/scheduler.py:162-167 | between any two grants the first lease has been released |
| Scheduler.LostExactlyWhenInterrupted | src/sona/inference/scheduler.py:110-114 | a lease is lost exactly when its task is interrupted between admission and resumption |
| Scheduler.LostLeaseBlocks | src/sona/inference/scheduler.py:110-114 | after that nobody is admitted any more while only holders release |
| Scheduler.LeaseCanBeLost | src/sona/inference/scheduler.py:70-114 | the very first call can lose its lease: admitted at once and interrupted before its task resumes |
| Scheduler.QueuedIsNotAdmitted | src/sona/inference/scheduler.py:110-114 | a call still queued has neither been admitted nor lost its lease, so the flag of its waiter picks the right branch |
| Scheduler.LocalInferenceScheduler.Grant | src/sona/inference/scheduler.py:189-195 | the waiter leaves the queue and has the one lease |
| Scheduler.LocalInferenceScheduler.AdmitNext | src/sona/inference/scheduler.py:178-195 | refines the admission with its loops |
| Scheduler.LocalInferenceScheduler.Enqueue | src/sona/inference/scheduler.py:70-89 | refines the first part of an acquire; refused once closed |
| Scheduler.LocalInferenceScheduler.Withdraw | src/sona/inference/scheduler.py:110-114 | refines giving up: removed and somebody else admitted, nothing for a call refused by a close, a lost lease for one already admitted |
| Scheduler.LocalInferenceScheduler.TryAcquire | src/sona/inference/scheduler.py:152-160 | succeeds exactly where the scheduler is free, open, unpaused for the workload, and nobody waits |
| Scheduler.LocalInferenceScheduler.GiveBack | src/sona/inference/scheduler.py:162-167 | refines the release; an error without an active lease |
| Scheduler.LocalInferenceScheduler.PauseBackground | src/sona/inference/scheduler.py:49-50 | refines the pause |
| Scheduler.LocalInferenceScheduler.ResumeBackground | src/sona/inference/scheduler.py:52-54 | refines the resumption, which admits |
| Scheduler.LocalInferenceScheduler.Shutdown | src/sona/inference/scheduler.py:169-176 | refuses everybody queued |
| EventFanout.StepKeepsGate | src/sona/meeting/events.py:240-313 | the cursors say what was last broadcast or seeded, and every broadcast revision repeats the last one or is the next |
| EventFanout.GateAssigns | src/sona/meeting/events.py:262-294 | the gate moves the cursors by exactly what it lets out: a resync or a stale event leaves them |
| EventFanout.PublishedIffContiguous | src/sona/meeting/events.py:160-313 | over any run an event goes out exactly when each revision it carries repeats or follows the last one broadcast or seeded for its meeting; a jump goes out as a resync request for the missed revision, an old one not at all; it reaches the queue of every open client |
| EventFanout.SnapshotSeeds | src/sona/meeting/events.py:262-313 | a snapshot sets exactly the values it carries for its meeting, lower ones too |
| EventFanout.EnqueueStaysInformed | src/sona/meeting/events.py:196-238 | a client lacks a durable broadcast only right before a resync request, whichever way its queue overflows |
| EventFanout.StepKeepsInv | src/sona/meeting/events.py:160-177 | both are kept by every step |
| EventFanout.SeenRevisionsAreContiguous | src/sona/meeting/events.py:160-313 | over any run, two revisions a client sees in a row with no resync request and no snapshot between are equal or consecutive: nothing is skipped silently |
| EventFanout.LastResyncCompletes | src/sona/meeting/events.py:160-238 | behind the last resync request it saw a client lacks no durable broadcast |
| EventFanout.MeetingEventBroadcaster.AcceptRevisionEvent | src/sona/meeting/events.py:240-294 | the loop over the fields computes the verdict of the gate: a jump in any field beats an old value in another |
| EventFanout.MeetingEventBroadcaster.DeliverToAll | src/sona/meeting/events.py:171-177 | every open client gets the event and closed ones are dropped, in whatever order they are visited |
| EventFanout.MeetingEventBroadcaster.PublishEvent | src/sona/meeting/events.py:160-177 | refines the publish step |
| EventFanout.MeetingEventBroadcaster.ObserveSnapshot | src/sona/meeting/events.py:182-194 | seeds the cursors; anything but a snapshot is refused |
| EventFanout.MeetingEventBroadcaster.AddClient | src/sona/meeting/events.py:112-124 | a client with a queue of at least one place |
| EventFanout.MeetingEventBroadcaster.ReceiveNext | src/sona/meeting/events.py:67-70 | the oldest event of the queue; a closed client with an empty queue gets none |
| EventFanout.MeetingEventBroadcaster.RemoveClient | src/sona/meeting/events.py:126-128 | the client is gone, the others unchanged |
| DiarizationSmoother.FilteredAreKept | src/sona/meeting/diarization_smoother.py:92-98 | a segment is kept exactly when it is no short noise |
| DiarizationSmoother.FilteredConcat | src/sona/meeting/diarization_smoother.py:92-98 | the kept segments come in the order of the input and as often as there |
| DiarizationSmoother.CorrectionSettles | src/sona/meeting/diarization_smoother.py:103-134 | after the correction no short flicker is left, single or double; labels come from the input, the outer ones are kept, and only short segments change theirs |
| DiarizationSmoother.CollapseKeeps | src/sona/meeting/diarization_smoother.py:169-183 | a merged segment has id, start, epoch and speaker of its first and the latest end of its run |
| DiarizationSmoother.CollapseJoinsInOrder | src/sona/meeting/diarization_smoother.py:169-183 | texts and translations are joined in the order of the run; the language is the first one named |
| DiarizationSmoother.RunIsClose | src/sona/meeting/diarization_smoother.py:156-185 | in a run each segment is of the first one's speaker and begins at most the gap after the latest end before it |
| DiarizationSmoother.MergedAreRuns | src/sona/meeting/diarization_smoother.py:156-185 | merging cuts the segments into runs of one speaker with small gaps, ended exactly where the next segment does not continue |
| DiarizationSmoother.RunsAreUnique | src/sona/meeting/diarization_smoother.py:156-185 | there is only one such cut |
| DiarizationSmoother.SmoothedArePartition | src/sona/meeting/diarization_smoother.py:80-207 | the output is one segment a run, numbered from 0; neighbours are never of one speaker and close; every speaker is one of the input |
| DiarizationSmoother.SmoothingTwiceDiffers | src/sona/meeting/diarization_smoother.py:80-207 | for any classifier that joining keeps meaningful: five segments that come out as three, which come out as one when smoothed again |
| DiarizationSmoother.SmoothingTwiceIff | src/sona/meeting/diarization_smoother.py:80-207 | for every input, smoothing a second time changes nothing exactly when the first left no noise and no short flicker |
| DiarizationSmoother.Smoother.KeepMeaningful | src/sona/meeting/diarization_smoother.py:92-98 | the filtering loop |
| DiarizationSmoother.Smoother.CorrectSingles | src/sona/meeting/diarization_smoother.py:103-115 | the first in-place pass over the label array, each position seeing what the one before it left |
| DiarizationSmoother.Smoother.CorrectDoubles | src/sona/meeting/diarization_smoother.py:117-134 | the second pass |
| DiarizationSmoother.Smoother.CorrectSpeakers | src/sona/meeting/diarization_smoother.py:103-154 | both passes, the second over what the first left, and the relabelled segments, compute the specified correction |
| DiarizationSmoother.Smoother.MergeNeighbours | src/sona/meeting/diarization_smoother.py:156-185 | the merging loop |
| DiarizationSmoother.Smoother.SmoothWindow | src/sona/meeting/diarization_smoother.py:55-78 | everything but the segments of the window is kept; disabled, all of it |
| EnergyGate.StepsAgree | src/sona/interaction/echo.py:156-183 | one frame under suppression: gate and processor decide alike, stay alike, and pass it exactly during a barge-in |
| EnergyGate.GatesAgree | src/sona/interaction/pipeline.py:354-390 | from a fresh start, over any levels, resets and mode changes, both let the same frames through |
| EnergyGate.UnsuppressedFrameSeparates | src/sona/interaction/pipeline.py:391-394 | a frame outside suppression keeps the states alike exactly where no barge-in and no loud frame was pending |
| EnergyGate.UnsuppressedFrameMisleadsIff | src/sona/interaction/pipeline.py:391-394 | the next frame is then decided differently during a barge-in, unless it either relocks the gate or makes a barge-in of its own and not both; and else exactly where it completes a barge-in of more than one frame for the gate |
| EnergyGate.GatesCanDisagree | src/sona/interaction/pipeline.py:391-394 | it happens four frames after a fresh start: a frame passes the gate and is dropped by the processor |
| EnergyGate.LoudIff | src/sona/interaction/echo.py:166-180 | a frame counts as loud exactly above both the peak times the gain and 350, or 1200 in the less sensitive mode, once two levels, or eight, have been heard |
| EnergyGate.HeardLevels | src/sona/interaction/echo.py:152-183 | a frame outside of a barge-in leaves the last fifty levels, averages closer to it by 30 and 5 per cent, and a peak that rises to it at once but closes only 4 per cent downwards |
| EnergyGate.BargeInNeedsLoudFrames | src/sona/interaction/echo.py:169-180 | a frame starts a barge-in exactly when it completes the required number of loud frames in a row, all measured against one frozen peak |
| EnergyGate.RelockNeedsQuietFrames | src/sona/interaction/echo.py:157-165 | a barge-in ends exactly when twenty quiet frames in a row are complete |
| EnergyGate.AdaptiveEnergyGate.Forget | src/sona/interaction/echo.py:146-150 | a reset is the fresh state from which the two forms are compared |
| EnergyGate.AdaptiveEnergyGate.ObserveLevel | src/sona/interaction/echo.py:156-180 | refines one frame of the gate |
| EnergyGate.EchoSuppressionProcessor.DetectBargeIn | src/sona/interaction/pipeline.py:407-442 | refines the inline detection |
| EnergyGate.EchoSuppressionProcessor.ProcessAudio | src/sona/interaction/pipeline.py:354-397 | refines a microphone frame: everything dropped without barge-in allowed, passed where no level can be computed |
| EnergyGate.EchoSuppressionProcessor.SetMode | src/sona/interaction/pipeline.py:282-300 | a change of mode starts the detector afresh |

## Left out

Transcript and journal:
- one meeting at a time: the degraded flag and the signatures of several meetings, and an id stored under another meeting
- cancellation of a submission, whose shielded inner call goes on alone; locks and their order
- a journal line that lost only its newline; what the pieces of a split line look like beyond that its first is no envelope; line boundaries in the reason of a status; the replay of `create_minutes`; validation of reason texts
- speaker and event rows, timestamps, and SQL beyond its effect on the rows

Arbiter:
- last transition, storage health, the meeting record and its publication; `configure_meeting`
- an assumption, the constant `releases`, under which exclusiveness is stated: stops and interruptions release their workload even when they raise, and the stop of a meeting and the start of the assistant also when they are cancelled
- Prepare: where the start of the assistant fails, whether it was active when it is stopped again is not told
- the order of the calls is told for what gets through and for a restored source; of a forced idle only that everything is stopped (`StopEach`)
- which await a cancellation hits is left open, but for a meeting's end, where a script can fix the answers that decide it (`Script`)

Subtitles:
- `push_audio_batch` and `process_loop`, compatibility entries whose failed sends are counted nowhere
- `MeetingCaptureSession`, which sends chunks of before a reconnect to a stream that starts later
- partial text, state callbacks and back-off times

Wire codec:
- JSON text and UTF-8: an encoder and a decoder of control bodies with the round trip between them assumed (`Faithful`)
- conversion of a message to an audio frame

Context memory and chain:
- stripping and length limits of texts (the function `Clean`), byte sizes (the function `size`), the contents of a summary
- the thresholds of `should_compact`: whether a candidate is scheduled is left open, so progress is not claimed
- that the server never hands out a response id twice is an assumption
- at most one compaction task at a time, and its cancellation on reset: the model allows more to be in flight

Scheduler:
- cancel events that are cleared again; the internal order of the heap; the test for finished futures of queued waiters, which are never finished
- `set_recording`, which only chooses between pause and resumption

Events:
- the latest event is kept but snapshots handed to new clients are not part of this model
- client objects: a client is a value in a map, so aliasing of a client outside the broadcaster is not captured

Smoother:
- what counts as meaningful text, how texts and translations are joined (the functions in `Texts`), and their length limit

Energy gate:
- GatesAgree: stated over real numbers, so rounding and underflow of floats are not covered, and over frames seen under suppression with barge-in allowed
- computing a level from PCM; a new echo generation, which clears the detector of the processor but not its barge-in; interruption frames and text filters
