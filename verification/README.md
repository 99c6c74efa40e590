# Plandex CLI: proposal stream handler and spinner guard

This project models two small sequential state machines from the Plandex
command-line client and proves properties of them in Dafny.

**The proposal stream handler.** `Propose` sends a prompt to the plan server.
The server streams the answer back in chunks, and the `handleStream` closure
consumes them. Here that closure is `Proposal.Step`, a pure function over a
`Session` record:

- proposal and root ids;
- reply text, and whether the reply has started;
- the plan description;
- the `streamFinished` and `filesFinished` flags;
- the set of finished file paths;
- the render cursor of the in-place file table;
- whether the `done` channel is closed;
- the failure, if any;
- the Go runtime panic, if any.

`Proposal.Run` applies a sequence of chunks strictly in order.

Each chunk comes with what the collaborators answer while it is handled, as a
`StepIO` value:

- the error from saving the plan state;
- the result of decoding the description JSON: an error (with the partly filled description the decoder may leave behind), `null`, or a description;
- the file-token receiver's `(wroteFile, finishedByPath, err)`.

The values of the two phase-marker strings live in the shared protocol
package. They are the `Markers` parameter.

The source has two runtime panics, and both are modelled:

- closing `done` a second time;
- dereferencing a nil description. This happens with a file fragment before
  any description, or with a description that decodes to JSON `null`.

A panicked session ignores all later chunks.

**The spinner guard.** `Spinner` models the package-level spinner state
`{active, lastMessage, startedAt}` and its three operations. Time is whole
milliseconds:

- `Start` and `Resume` take the current time.
- `Stop` takes the elapsed time and returns the time it would sleep instead
  of sleeping.

Behaviours of the handler worth knowing:

- A stream that finishes without a description does not fail the session.
  The session stays open, waiting for files that will never come; see
  `FinishedWithoutDescriptionStaysOpen`.
- The model handles chunks one after another. The source's reentrancy guard
  at cli/lib/proposal.go:140-159 never engages (`running` is never set to
  true), so this relies on the transport delivering one chunk at a time.
- The handler does not check whether the session already failed. A chunk
  after an error is handled like any other. If it closes `done` again, that
  is the double-close panic.
- With a description that has no files, `filesFinished` is set without
  looking at `streamFinished`. Completion therefore relies on the description
  arriving before the Finished chunk. `DescriptionAfterFinishedNeverCompletes`
  shows what happens otherwise. `CompletionNeedsBothFlags` proves the
  completion invariant for streams in the protocol's order.

## Model

| member | source | states |
|---|---|---|
| Spinner.Start | app/cli/term/spinner.go:18-32 | after a start the spinner is active with the given message; a running spinner already showing that message is left exactly as it was; otherwise the start time is now |
| Spinner.StartIdempotent | app/cli/term/spinner.go:18-32 | starting twice with the same message is the same as starting once, whatever the second time |
| Spinner.StopWait | app/cli/term/spinner.go:35-41 | the wait is at most 700 ms; elapsed plus wait reaches 700 ms with a message and 400 ms without; a non-zero wait ends exactly at that threshold |
| Spinner.StopWaitIsShortfall | app/cli/term/spinner.go:9-41 | the two ordered tests compute exactly the shortfall of the elapsed time below the threshold for the last message (700 ms with a message, 400 ms without), or zero |
| Spinner.Stop | app/cli/term/spinner.go:34-47 | a stop always leaves the spinner inactive and keeps its message and start time; it waits exactly the shortfall of the elapsed time below the minimum visible time for the last message, so never more than 700 ms |
| Spinner.Resume | app/cli/term/spinner.go:49-53 | resuming a running spinner changes nothing; resuming a stopped one starts it with its last message at the current time |
| Spinner.ResumeAfterStop | app/cli/term/spinner.go:34-53 | stopping and then resuming is a start with the remembered message, and leaves the spinner active |
| Spinner.ResumeFromInitial | app/cli/term/spinner.go:13-53 | resuming the spinner before anything was started starts it with the empty message, so its later stop only waits for the 400 ms threshold |
| Spinner.Initial | app/cli/term/spinner.go:12-16 | before anything was started the spinner is inactive and its last message is empty |
| Spinner.MinVisible | app/cli/term/spinner.go:37-41 | the minimum visible time is one of the two thresholds, 700 ms or 400 ms, chosen by whether a message was shown |
| Proposal.CloseDone | cli/lib/proposal.go:169 | closing `done` marks the session done; if it was already closed, the close panics and nothing else changes |
| Proposal.OnError | cli/lib/proposal.go:165-170 | reporting a failure records it and closes `done`, changing nothing else; on a session already done the close panics |
| Proposal.TableHeight | cli/lib/proposal.go:313-316 | the file table takes at least one line per file, and takes exactly that many exactly when the files are finished, because the hotkey trailer is drawn only while files remain |
| Proposal.Initial | cli/lib/proposal.go:50-73 | a new session has no proposal id, keeps the root id from the saved plan state, has an empty reply, and is neither done, failed, panicked nor complete |
| Proposal.Step | cli/lib/proposal.go:146-321 | once panicked nothing changes; `done`, a failure and a panic are never undone; once set, the proposal and root ids never change; the reply only grows; only a Finished chunk can raise `streamFinished` |
| Proposal.Run | cli/lib/proposal.go:323 | over any sequence of chunks, `done` and a failure are never undone, a known proposal id and root id are kept, and the reply only grows |
| Proposal.FinalMenu | cli/lib/proposal.go:369-384 | no commands without a description; each of apply, diffs and preview is offered exactly when a plan with files was made, in that order at the head of the menu; tell and next always end the menu; with a description the menu has five commands or two |
| Proposal.AdoptId | cli/lib/proposal.go:177-195 | an empty first chunk fails the session with the missing-id error; otherwise its content becomes the proposal id and, only when the root id was empty, the root id; on a session not yet done, `done` closes exactly when the id is missing or saving it fails; the reply is untouched |
| Proposal.Finish | cli/lib/proposal.go:216-223 | the stream becomes finished and the reply and files flag are kept; on a session not yet done, `done` closes exactly when the files were already finished; on one already done that close panics |
| Proposal.Describe | cli/lib/proposal.go:229-257 | the files become finished exactly when they already were or a decoded, saved description announces no files; a decoded description is stored; a decoding error fails the session with the parse error and leaves the partly filled description, or the old one after a syntax error; a decoded description whose plan state cannot be saved is stored and fails the session with the save error; the session fails exactly on a decoding or save error |
| Proposal.RedrawLines | cli/lib/proposal.go:279-283 | the lines moved up are the height the file table was drawn with for the same `filesFinished`: the file count once files are finished, the file count plus the 4-line hotkey trailer before |
| Proposal.Build | cli/lib/proposal.go:263-318 | the session takes the receiver's finished paths; the files become finished exactly when they already were or an error-free fragment wrote a file and the finished count equals the planned count; a receiver error fails the session with that error and closes `done`, leaving the files flag and everything but the finished paths as they were; an error-free fragment without a description panics; on a live session not yet done, an error-free fragment closes `done` exactly when the stream had finished and this fragment completes the files |
| ProposalProperties.ErrorChunkFails | cli/lib/proposal.go:165-175 | a chunk with an error records the failure and closes `done`, whatever the session state, and changes nothing else; if `done` was already closed, the close panics |
| ProposalProperties.ErrorIsTerminal | cli/lib/proposal.go:165-175 | after an error chunk, `done` stays closed and the session stays failed through any later chunks |
| ProposalProperties.EmptyFirstChunkFails | cli/lib/proposal.go:177-180 | before the id is known, an error-free chunk with empty content fails the session with the missing-id error and changes nothing else |
| ProposalProperties.IdChunkIsAdopted | cli/lib/proposal.go:182-195 | before the id is known, a chunk with content sets the proposal id to it, whatever its stream state; the root id is set too only if it was empty; nothing else changes, so the id never reaches the reply |
| ProposalProperties.IdSaveFailureFails | cli/lib/proposal.go:187-194 | if saving the adopted id fails, the session fails with a plan-state error and the id stays adopted |
| ProposalProperties.FinishedChunk | cli/lib/proposal.go:216-223 | a Finished chunk sets `streamFinished`, starts the reply without changing its text, and closes `done` exactly when the files were already finished |
| ProposalProperties.PhaseMarkersAreNoOps | cli/lib/proposal.go:225-262 | the Describing and Building phase markers change nothing but mark the reply as started |
| ProposalProperties.DescriptionPayload | cli/lib/proposal.go:229-257 | a malformed description fails the session, keeping what the decoder filled in; a `null` one panics; a decoded one whose plan state cannot be saved is stored and fails the session with the save error; a decoded and saved one is stored, and the files count as finished exactly when the plan announces no file |
| ProposalProperties.FileFragment | cli/lib/proposal.go:263-311 | an error-free file fragment takes the receiver's finished paths; files become finished exactly when a file was written and the finished count equals the planned count; `done` then closes exactly when the stream had finished |
| ProposalProperties.FragmentWithoutDescriptionPanics | cli/lib/proposal.go:264-276 | an error-free file fragment before any description panics on the nil description |
| ProposalProperties.FileTokenErrorFails | cli/lib/proposal.go:264-274 | a fragment the file-token receiver rejects fails the session with the receiver's error and closes `done`, with or without a description; besides that, only the finished paths are taken over and the reply is marked started |
| ProposalProperties.CompletionOrderIndependent | cli/lib/proposal.go:216-310 | a Finished chunk and a completing file fragment give the same session in either order; it is done exactly when the fragment completes the files or it was done already |
| ProposalProperties.CountMeansAllFinished | cli/lib/proposal.go:302-305 | if each path is planned once and only planned paths finish, then the finished count equals the planned count exactly when every planned file is finished |
| ProposalProperties.FragmentFinishesAllFiles | cli/lib/proposal.go:302-310 | under that uniqueness assumption, a file fragment finishes the files exactly when it wrote a file and every planned path is finished |
| ProposalProperties.ReplyAccumulates | cli/lib/proposal.go:197-214 | once the id is known, Replying and Revising chunks append their contents in arrival order; any one of them starts the reply; nothing else changes |
| ProposalProperties.ReplyIsConcatenationOfChunks | cli/lib/proposal.go:177-214 | after an id chunk and N Replying/Revising chunks, the reply is exactly the in-order concatenation of the N contents (empty for N = 0); the proposal id is the id chunk's content |
| ProposalProperties.RunAppend | cli/lib/proposal.go:323 | handling two chunk sequences one after the other is the same as handling their concatenation |
| ProposalProperties.FinishedWithoutDescriptionStaysOpen | cli/lib/proposal.go:216-223 | a stream of an id, reply chunks and Finished, with no description, leaves the session neither failed nor done, still waiting for the files |
| ProposalProperties.StepKeepsGood | cli/lib/proposal.go:146-321 | unless a description arrives after the stream or the files finished, every chunk preserves the session invariant: `done` holds exactly when the session failed or completed, and, while a plan with files is being built and the session has not failed, the render cursor equals the height of the file table on screen |
| ProposalProperties.StepRaisesFlags | cli/lib/proposal.go:216-310 | `streamFinished` or `filesFinished` can only be raised by a Finished chunk, a Building chunk or a description payload |
| ProposalProperties.RunKeepsGood | cli/lib/proposal.go:146-321 | over a well-ordered stream (one description, before any Building or Finished chunk), the session invariant holds after every chunk |
| ProposalProperties.CompletionNeedsBothFlags | cli/lib/proposal.go:216-310 | on every well-ordered stream from a fresh session, a live and unfailed session is done exactly when both the stream and the files are finished, whichever finished first |
| ProposalProperties.RedrawErasesTable | cli/lib/proposal.go:276-316 | on every well-ordered stream, while a plan with files is being built and the session has neither failed nor panicked, the lines a file fragment moves up (the file count, plus 4 while files remain) are exactly the table lines on screen; a description without a plan draws no table, yet later fragments still move up over its file count |
| ProposalProperties.DescriptionAfterFinishedNeverCompletes | cli/lib/proposal.go:245-255 | a description without files that arrives after Finished makes both flags true but does not close `done` |
| ProposalProperties.MenuOffersApplyIffBuildExpected | cli/lib/proposal.go:369-377 | after a description is stored, apply is offered in the final menu exactly when the files were not declared finished on the spot |

## Left out

- Terminal output is left out: screen clearing, cursor moves, the alternate screen, markdown rendering, colours and the hotkey help. It is I/O. Only the redraw line count is kept, in `Proposal.RedrawLines` and the render cursor `tableLines`. The model assumes the hotkey trailer printed under the table takes the 4 lines the source moves up over.
- The 100 ms render ticker, the keyboard listener, the session `select` loop and the `running`/`queue` guard are left out. They are goroutines and channels, and the guard never engages. Chunks are applied strictly in sequence.
- The 700 ms reveal delay before the reply is shown is left out. It is timing for the user interface. Only the `replyStarted` flag is kept.
- The spinner widget, `time.Now`, `time.Since` and `time.Sleep` are left out. Times are inputs, and `Stop` returns the wait.
- These collaborators are left out: `Api.Propose`, `Api.FileName`, `Api.Abort`, `GetPlanState`, `SetPlanState`, `appendConversation`, `saveLatestConvoSummary`, token counting, `json.Unmarshal`, `receiveFileToken` and `handleKeyPress`. Their outcomes enter through `StepIO` or the initial root id.
- The per-file JSON buffers and per-file token counts belong to `receiveFileToken`, whose body is not part of this model. Only the set of finished paths it leaves behind is kept.
- Printing a failed conversation append is left out. It has no effect on the session.
- How the decoder merges a payload into a description that is already present is not computed. The decoded value, or the partly filled one on a type error, is an input and replaces the stored description.
- The stream states are the five in the protocol. The source's `switch` ignores any other state, and no other state is modelled.
