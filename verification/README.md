# Lich agent bridge: a verified model

This project models the parts of the Lich agent bridge whose correctness depends on order,
interleaving or exact budgets, and proves what they keep in every run and for every input.
One module stands for one component; a component that changes state in place is a class whose
methods are proved against specification functions. The laws are lemmas about those functions; the
modules named `Laws` say what each operation does in the fields of its state, without those functions.

- **Questions** (`OrderedDict`, `Conversation`, `Copilot`, `QuestionSlots`, `QuestionContents`,
  `QuestionPaths`, `CancelProtocol`, `SessionClose`). Callers, workers, timeouts, `forget`,
  generation changes and cancellation callbacks interleave in atomic steps. Slots are safe and do not leak, stale answers are fenced
  off, nothing a question started runs on once a cancellation has returned, and exactly when
  closing a session leaves nothing running.
- **Passages** (`Headings`, `Layout`, `PassageChunks`, `PassageIndex`). Texts are cut into bounded
  ranges along their headings and tables, and an incrementally built index that a query accepts
  equals a from-scratch rebuild.
- **Actions** (`Actions`, `ActionLaws`, `ActionBroker`, `ActionRuns`, `GenerationLog`). The broker's
  operations over whole runs: currency of pending work, stop markers, delivery at most once, the
  audit log as the source of the broker's state, and when it determines a session generation.
- **Code execution** (`Executor`, `ExecutorLaws`, `ExecutorRuns`, `ExecutorReplies`). The
  event-driven executor and its bridge: one resolution, budgets, the failure latch, and what
  reported success means.
- **Evidence** (`Evidence`, `EvidenceJson`, `EvidenceWorkspace`, `EvidenceProvenance`,
  `EvidenceLaws`, `EvidenceSelection`, `EvidenceLoop`). The cache and whose results it holds, the
  greedy selection under an exact size, and the bounded loop with the ending it must have.
- **Research** (`ResearchSections`, `ReadCursors`, `CoverageWindow`, `CoverageLaws`, `IndexedHits`).
  Section trees, continuations that reassemble a text, the coverage window, and which stored ranges
  it can cut.
- **Commands** (`ControllerCommands`, `CommandLaws`, `CommandReadings`). The template matcher and
  builder, and when canonicalizing a command changes how it is read.
- **Prompt** (`PromptBudget`, `PromptLaws`). The length bound through texts, records, sections and
  the whole.

Conventions. Digests are injective, handles and tokens fresh, and a clock is an arbitrary reading
given to each step that takes one. Characters are their case-folded keys. JSON sizes are sums over
the parts of a value and count an escaped character once; the prompt's encoder is an arbitrary
function. Command text is ASCII and case folding of a text maps characters one to one. The text
functions of the index (normalizer, redirect and kind tests) and the command policy are
uninterpreted functions. Action ids are positions in insertion order, and template parameters are
taken in template order.

## Where the code falls short of a stated law

- A perform is admitted after a failed mutation whose error message is empty, because the latch is
  tested for truth: `ExecutorRuns.EmptyMessageDoesNotBlock`, exactly `ExecutorRuns.PerformForwardedIff`.
  Reported success is sound even then.
- An evidence selection can exceed its context when answers themselves have the status "omitted",
  because their manifest is the whole record: `EvidenceSelection.DeclinedAnswersOverflow`, exactly
  `EvidenceSelection.SelectionFitsIff`. No provider in the repository answers with that status.
- Closing a session while an inspection starts its operation can leave that operation running:
  `SessionClose.CanBeLeft`, exactly `SessionClose.LeavesNothingIff`. The engine closes a
  session only from the thread that ran its inspections, where the condition holds.
- The audit log determines a character's active generation only once an event of that character
  shows it: `GenerationLog.GenerationIsLoggedIff` is exact, because a first admission writes none.
- A coverage window may lack a word of its first hit when an end of that hit cuts a word:
  `CoverageWindow.WindowLosesTerm`, exactly `CoverageWindow.FirstTermsKeptIff`. Among the ranges of
  the index only forced cuts do: `IndexedHits.UncutHitKeepsTerms`, `IndexedHits.ForcedCutLosesTerm`.
- Canonicalization is not idempotent for an undelimited template with an action id:
  `ControllerCommands.UndelimitedIsNotIdempotent`, exactly `CommandReadings.IdempotentIff`.
- A flag with a true default passed as `None` is rendered but reported false:
  `ControllerCommands.BuildMatchesReportIff` is exact.
- A long character name overflows a small prompt: `PromptBudget.Render` is exact. Requests limit
  names to 40 characters (`src/lich_agent_bridge/protocol.py:12`,
  `src/lich_agent_bridge/session_hub.py:33`), where `PromptBudget.UsualContextHasRoom` applies; only
  a context built directly can overflow.

## Model

| member | source | states |
|---|---|---|
| OrderedDict.RecordKeeps | src/lich_agent_bridge/engine.py:97-114 | Recording under a key of the bounded memory keeps it bounded, makes that key the newest, and drops at most the oldest other key, only when the memory was full. |
| Conversation.CommitIsBounded | src/lich_agent_bridge/engine.py:226-232 | A commit appends exactly one turn to its own character, keeps both memories bounded, leaves slots and generations alone and touches others only by evicting the oldest. |
| Conversation.AdmitIff | src/lich_agent_bridge/engine.py:191-201 | A question is admitted exactly if the generation it expects, if any, is the active one, no question of the character is running and a slot is free; each refusal has its own error, checked in that order, and admission adds that slot only. |
| Conversation.AdmittedIs | src/lich_agent_bridge/engine.py:374-391 | Publishing a generation makes it the active one; a changed one drops that character's dialogue and sources and nobody else's, the same one changes nothing. |
| Conversation.ForgetIsBounded | src/lich_agent_bridge/engine.py:434-446 | Forgetting removes exactly one character from dialogue and sources; slots, generations and every other character are unchanged. |
| Conversation.ReleaseIsExact | src/lich_agent_bridge/engine.py:245-248 | A release frees the slot only if its own control still holds it: a late release never frees a successor. |
| Copilot.QuestionControl.constructor | src/lich_agent_bridge/question.py:14-20 | A new control is uncancelled, without callbacks, with its deadline one timeout ahead. |
| Copilot.QuestionControl.Cancel | src/lich_agent_bridge/question.py:22-37 | The first cancellation sets the reason, runs every registered callback exactly once in registration order and then signals the change; a later one changes nothing at all. |
| Copilot.QuestionControl.OnCancel | src/lich_agent_bridge/question.py:39-52 | Registration on a cancelled control runs the callback before returning and keeps nothing; otherwise it is kept under a fresh token. |
| Copilot.QuestionControl.Remove | src/lich_agent_bridge/question.py:54-58 | Removing a token drops that registration only and runs nothing. |
| Copilot.QuestionControl.Remaining | src/lich_agent_bridge/question.py:68-79 | A positive remainder is returned exactly for an uncancelled control before its deadline; a passed deadline cancels with reason timeout, and the error names the reason of the first cancellation. |
| Copilot.WithoutTokenKeeps | src/lich_agent_bridge/question.py:54-58 | Removing a token removes at most one entry and keeps tokens distinct. |
| Copilot.Copilot.AdmitQuestion | src/lich_agent_bridge/engine.py:191-201 | Succeeds if and only if the expected generation, if any, is the active one, the character has no slot and a slot is free; takes exactly that slot for the control and returns the history of that moment; otherwise the error of the first failing check and no change. |
| Copilot.Copilot.ReleaseQuestion | src/lich_agent_bridge/engine.py:245-248 | The method frees the slot by identity of the control, as its specification does. |
| Copilot.Copilot.CommitAnswer | src/lich_agent_bridge/engine.py:226-232 | Exactly when the control is uncancelled before its deadline the question, the answer cut to its bound and the references are recorded as the newest turn and the current sources of that character; otherwise nothing changes. |
| Copilot.Copilot.Forget | src/lich_agent_bridge/engine.py:434-446 | Cancels exactly the control holding the slot, drops dialogue and sources, and reports whether anything was there. |
| Copilot.Copilot.AdmitGeneration | src/lich_agent_bridge/engine.py:374-391 | A rejected publication changes nothing; a changed generation forgets the character and cancels the running question; the same generation leaves its control alone. |
| QuestionSlots.StepOk | src/lich_agent_bridge/engine.py:183-248 | Every atomic step of callers, workers, timeouts, releases, commits, forgets and generation changes preserves the protocol invariant. |
| QuestionSlots.SlotSafety | src/lich_agent_bridge/engine.py:191-248 | In every reachable state each running worker holds its slot, so there is at most one per character and at most the configured number in all. |
| QuestionSlots.NoSlotLeak | src/lich_agent_bridge/engine.py:203-248 | Once caller and worker have both ended the question holds no slot. |
| QuestionSlots.SlotLostOnlyByOwner | src/lich_agent_bridge/engine.py:236-248 | A slot is lost only by the release of the very question that held it. |
| QuestionSlots.UncommittedHoldsSlot | src/lich_agent_bridge/engine.py:226-232 | An uncommitted, uncancelled question still holds its slot and was admitted under the current generation: what the fence rests on. |
| QuestionSlots.RetainedIsCurrent | src/lich_agent_bridge/engine.py:374-391 | Every retained dialogue turn was committed by a question admitted under the character's current generation since the last forget. |
| QuestionSlots.SourcesAreCurrent | src/lich_agent_bridge/engine.py:393-407 | The same for the retained answer sources. |
| QuestionSlots.Fence | src/lich_agent_bridge/engine.py:374-446 | After a forget or a generation change no question admitted earlier for that character is ever committed, in any later interleaving. |
| QuestionContents.AdmittedInItsSession | src/lich_agent_bridge/engine.py:191-201 | In every run an admitted question that expects a generation was admitted under exactly that generation. |
| QuestionContents.TurnIsOfItsSession | src/lich_agent_bridge/engine.py:191-232 | In every run each retained turn holds the question, the bounded answer and the bounded references of an answered question of that character, and if that question expected a generation it is the current one. |
| QuestionContents.SourcesAreOfTheAnswer | src/lich_agent_bridge/engine.py:226-232 | In every run the retained sources are those of the answer they are kept for. |
| QuestionPaths.CanBeAnswered | src/lich_agent_bridge/engine.py:183-248 | From every state in which a question is admitted there is a way to its answer: its turn is then the latest of its character with the question and answer given, and the slot is free. |
| QuestionPaths.CanTimeOut | src/lich_agent_bridge/engine.py:203-248 | From every such state the caller can give up on time; the worker left behind then frees the slot, and nothing is retained. |
| QuestionPaths.CanFailToStart | src/lich_agent_bridge/engine.py:203-248 | From every such state a failed start frees the slot, and nothing is retained. |
| CancelProtocol.StepOk | src/lich_agent_bridge/evidence_tools.py:287-347 | Every step of inspections and cancellers over the cancel lock and the admission locks preserves the protocol invariant. |
| CancelProtocol.NothingRunsAfterCancel | src/lich_agent_bridge/evidence_tools.py:287-347 | Once any cancel has returned, now and ever after: each started operation was interrupted exactly once or seen terminal by its owner, and no inspection can start another. |
| CancelProtocol.CallbacksRunOnce | src/lich_agent_bridge/question.py:22-58 | A callback runs at most once; exactly once after a returned cancel unless it was removed before, in which case never. |
| CancelProtocol.ReasonStays | src/lich_agent_bridge/question.py:22-37 | The reason, once given, never changes in any run. |
| CancelProtocol.LockOrder | src/lich_agent_bridge/evidence_tools.py:293-320 | Whoever holds an admission lock either does not wait for the cancel lock or already owns it. |
| CancelProtocol.NoDeadlock | src/lich_agent_bridge/evidence_tools.py:287-347 | In every reachable state with an unfinished thread some thread can step. |
| SessionClose.StepOk | src/lich_agent_bridge/evidence_tools.py:385-396 | Every step of inspections and closers over the closed flag and the pending set preserves the invariant. |
| SessionClose.LeavesNothingIff | src/lich_agent_bridge/evidence_tools.py:385-396 | After any run, a call of close leaves no operation running, that is started, not interrupted and not terminal, whatever happens next, if and only if no inspection, when the snapshot is taken, is between its check of the closed flag and the pending set with an operation still to start or not ended by itself. |
| SessionClose.CanBeLeft | src/lich_agent_bridge/evidence_tools.py:287-325 | From such a state there is a continuation in which close has returned and the operation of that very inspection is started, not interrupted and not terminal. |
| SessionClose.FinishedIsSettled | src/lich_agent_bridge/evidence_tools.py:340-347 | Even then an operation outlives close only until its own inspection ends: after that it was interrupted or is terminal. |
| SessionClose.SeenIsNotRevoked | src/lich_agent_bridge/evidence_tools.py:331-347 | An inspection that saw its operation terminal leaves without interrupting it. |
| SessionClose.UnseenIsRevoked | src/lich_agent_bridge/evidence_tools.py:340-347 | An inspection that leaves without having seen that interrupts its operation. |
| Headings.PathIsAncestors | src/lich_agent_bridge/passage_index.py:208-214 | The filtered path, the popped stack and the interval definition of ancestors give the same headings, outermost first with strictly rising levels. |
| Headings.EndIs | src/lich_agent_bridge/research.py:116-124 | A section contains a later heading exactly when it is still open there, and ends at the next heading of the same or a higher rank or with the text. |
| Headings.Laminar | src/lich_agent_bridge/research.py:116-124 | Two sections are nested or disjoint, nested exactly when the earlier is open at the later heading. |
| Headings.OutermostTile | src/lich_agent_bridge/research.py:112-132 | Each outermost section ends where the next outermost one starts, or with the text. |
| Layout.LaidMeans | src/lich_agent_bridge/passage_index.py:446-449 | A recursive layout means: ranges nonempty, ordered, disjoint, inside the text, with only whitespace outside them. |
| Layout.OrderedPass | src/lich_agent_bridge/passage_index.py:446-449 | Ordered nonempty ranges pass the range check of a focused read. |
| Layout.PassIsOrdered | src/lich_agent_bridge/passage_index.py:446-449 | Conversely, only nonempty ranges in order within the text pass that check. |
| PassageChunks.Paragraphs | src/lich_agent_bridge/passage_index.py:188-200 | The paragraph pattern yields ranges that lie over the stretch with only whitespace between them. |
| PassageChunks.BlankLineIff | src/lich_agent_bridge/passage_index.py:188-200 | A blank line is a newline followed by blanks and tabs only up to the next newline of the stretch. |
| PassageChunks.Blocks | src/lich_agent_bridge/passage_index.py:188-200 | Paragraphs and whole tables lie over the section in order, every table one block of its own. |
| PassageChunks.Protect | src/lich_agent_bridge/passage_index.py:216-224 | The protected ranges are disjoint, each holds only tables and their neighbours, and every table's neighbourhood lies in one of them. |
| PassageChunks.Groups | src/lich_agent_bridge/passage_index.py:225-231 | Each protected range becomes one group, every other block stays as it was, and the groups lie over the section. |
| PassageChunks.GroupBlocks | src/lich_agent_bridge/passage_index.py:225-231 | The grouping loop yields, range by range, the blocks before it as they are and the range merged into one, then the remaining blocks. |
| PassageChunks.SplitLong | src/lich_agent_bridge/passage_index.py:246-250 | The cutting loop ends; its pieces are nonempty, within the limit, lie end to end, and leave a rest within the limit. |
| PassageChunks.Emit | src/lich_agent_bridge/passage_index.py:232-254 | The emitted ranges lie over the section, each table group whole in one range, oversized exactly when longer than the limit. |
| PassageChunks.Sections | src/lich_agent_bridge/passage_index.py:204-214 | The sections cut the text at every kept heading and carry its path. |
| PassageChunks.EmittedEnd | src/lich_agent_bridge/passage_index.py:246-254 | A range ends at an edge of a block, after a space, or by a forced cut at the limit where the second half has no space. |
| PassageChunks.ChunkSection | src/lich_agent_bridge/passage_index.py:215-254 | One section is chunked with every table beside its neighbours in a single range. |
| PassageChunks.Chunks | src/lich_agent_bridge/passage_index.py:202-254 | For every text the ranges are nonempty, ordered, disjoint, leave only whitespace uncovered, stay in one section with its heading path, keep each table with its neighbours, pass the later range check, and end beside whitespace, at a heading, at a table's edge, with the text or by a forced cut. |
| PassageChunks.TableStaysInSection | src/lich_agent_bridge/passage_index.py:203-207 | Headings inside tables being dropped, every table lies in the section it starts in. |
| PassageChunks.ChunkCrossesNothing | src/lich_agent_bridge/passage_index.py:202-254 | No range crosses a kept heading, and exactly the ranges over the limit are flagged. |
| PassageChunks.ChunksCover | src/lich_agent_bridge/passage_index.py:202-254 | Every visible character lies in exactly one range. |
| PassageIndex.MirrorDatabase.DeleteDocument | src/lich_agent_bridge/passage_index.py:158-162 | Deleting a document deletes its passages and marks the index incomplete. |
| PassageIndex.MirrorDatabase.UpsertPage | src/lich_agent_bridge/gswiki.py:231-278 | A page equal in the four compared columns only has its sighting updated; any other write replaces the page, drops what was derived from it when its source changed, and marks the index incomplete; other pages stay. |
| PassageIndex.MirrorDatabase.DeletePage | src/lich_agent_bridge/passage_index.py:165-167 | Deleting a page deletes its document and passages and marks the index incomplete. |
| PassageIndex.MirrorDatabase.DropDerived | src/lich_agent_bridge/passage_index.py:179-185 | Dropping the derived tables leaves the pages and nothing else. |
| PassageIndex.MirrorDatabase.StartBuild | src/lich_agent_bridge/passage_index.py:257-276 | Tables of other versions are dropped, documents without a page go with their rows, and the index is incomplete while building. |
| PassageIndex.MirrorDatabase.BuildPage | src/lich_agent_bridge/passage_index.py:277-303 | A page is reused exactly when version, fingerprints, metadata and row count agree; otherwise its document and rows are derived afresh. |
| PassageIndex.MirrorDatabase.BuildPages | src/lich_agent_bridge/passage_index.py:277-303 | The page loop ends with every page built and counts reused and derived pages exactly, or stops at the failing page. |
| PassageIndex.MirrorDatabase.BuildIndex | src/lich_agent_bridge/passage_index.py:257-316 | On success every page has, column by column, what its normalized wikitext or else its plain text derives, or the stored entry where version, fingerprints, metadata and row count agree; on failure the index is as it was. |
| PassageIndex.MirrorDatabase.Rebuild | src/lich_agent_bridge/passage_index.py:319-355 | After a full rebuild every page's document and rows are, column by column, what the page derives, whatever the index held before; a failure keeps the original. |
| PassageIndex.RebuiltIffDerived | src/lich_agent_bridge/passage_index.py:279-303 | An index is a rebuild of its pages if and only if each document's text is the research text when that is nonempty and the plain text otherwise, its rows are the chunks of that text, and every other column is as derived. |
| PassageIndex.ReusesIff | src/lich_agent_bridge/passage_index.py:277-287 | A page is reused if and only if it has a document whose normalizer, source fingerprint, namespace, title, URL, revision and number of rows are all unchanged. |
| PassageIndex.UpsertedIs | src/lich_agent_bridge/passage_index.py:148-173 | The effect of a page write on pages, documents, rows and the completeness mark, and that no other page is touched. |
| PassageIndex.DeletedIs | src/lich_agent_bridge/passage_index.py:165-167 | The effect of a page delete, and that no other page is touched. |
| PassageIndex.BuiltIsDerived | src/lich_agent_bridge/passage_index.py:277-303 | For any index at all: after a build each page has its old entry where that was unchanged, or else what it derives. |
| PassageIndex.BuildRefinesRebuild | src/lich_agent_bridge/passage_index.py:257-316 | On every reachable index, reusing unchanged snapshots stores exactly what a from-scratch rebuild would. |
| PassageIndex.DroppedBuildIsRebuild | src/lich_agent_bridge/passage_index.py:319-355 | From any index, even a damaged one, building after dropping the derived tables is a rebuild. |
| PassageIndex.BuildIsRebuildIff | src/lich_agent_bridge/passage_index.py:257-316 | For any index at all: a build equals a rebuild if and only if no passage row lacks a document and every reused entry already held what its page derives. |
| PassageIndex.LeftIsShorter | src/lich_agent_bridge/passage_index.py:279-287 | Rows left after losses that are as many as derived are the derived rows: why comparing counts suffices. |
| PassageIndex.LostRowOk | src/lich_agent_bridge/passage_index.py:148-173 | Losing a passage row outside a build keeps the index invariant and marks it incomplete. |
| PassageIndex.NextOk | src/lich_agent_bridge/passage_index.py:148-173 | Page writes, deletes, lost rows and documents, builds and failed builds keep the index invariant. |
| PassageIndex.AcceptedIsRebuilt | src/lich_agent_bridge/passage_index.py:83-95 | Over every run, an index a query accepts equals a from-scratch rebuild of the current pages. |
| PassageIndex.AcceptedIsDerived | src/lich_agent_bridge/passage_index.py:83-95 | Over every run, each document of an index a query accepts has the research text of its page, or the plain text where that is empty, with the chunks of that text and every column as derived. |
| PassageIndex.BuildIsIdempotent | src/lich_agent_bridge/passage_index.py:257-316 | A build right after a build reuses every page. |
| Actions.EvaluateProposal | src/lich_agent_bridge/actions.py:749-790 | A proposal is admitted exactly when it is one allowed command, or two to twelve allowed inspection, inventory or crafting steps without controls within the total length; the steps keep their order. |
| ActionBroker.ActionBroker.Admit | src/lich_agent_bridge/actions.py:602-646 | The admission loop has exactly the specified effect: it cancels the replaced session's pending work, marks its started work, and reports the cancelled ids. |
| ActionBroker.ActionBroker.SetExecution | src/lich_agent_bridge/actions.py:648-679 | The kill-switch loop has exactly the specified effect on every action of the character and on no other. |
| ActionBroker.ActionBroker.Submit | src/lich_agent_bridge/actions.py:681-747 | A proposal is admitted exactly when no listed check fails; then exactly one action is appended with the proposal's room, session, launch and control fields, the active generation, the evaluated status and the earlier of its lifetime and deadline as expiry, with one log entry of the same values; otherwise the error of the first failing check and no change. |
| ActionBroker.ActionBroker.ExpirePending | src/lich_agent_bridge/actions.py:1109-1121 | The expiry loop expires and logs exactly the pending actions at or past their expiry reading. |
| ActionBroker.ActionBroker.NextInstruction | src/lich_agent_bridge/actions.py:1034-1090 | The delivery loop denies stale queued work and stops at the first notice or delivery, as specified. |
| ActionBroker.ActionBroker.Approve | src/lich_agent_bridge/actions.py:824-866 | Approval checks in order, binds the action to the approving room or denies it, and keeps the expiries it made when it refuses. |
| ActionBroker.ActionBroker.RecordResult | src/lich_agent_bridge/actions.py:868-914 | Only a dispatched action of the active session takes a result, with status and completion as the outcome says. |
| ActionBroker.ActionBroker.Look | src/lich_agent_bridge/actions.py:916-922 | Reading an action expires pending work first and reports the status. |
| ActionBroker.ActionBroker.Cancel | src/lich_agent_bridge/actions.py:924-954 | The owner cancels pending work, or marks dispatched supervised travel to stop; sent work is never undone. |
| ActionBroker.ActionBroker.RequestTestStop | src/lich_agent_bridge/actions.py:956-974 | Pending test work is cancelled, started test work marked, and the event tells which. |
| ActionBroker.ActionBroker.RevokeControl | src/lich_agent_bridge/actions.py:976-995 | An owned control is cancelled if pending and marked in any case. |
| ActionBroker.ActionBroker.RevokeRun | src/lich_agent_bridge/actions.py:1017-1032 | A controlled launch is cancelled if pending and marked in any case. |
| ActionBroker.ActionBroker.RequestReturn | src/lich_agent_bridge/actions.py:997-1015 | A return is requested exactly for an unmarked, started refuge launch of an enabled current session before its deadline, checked at a second clock reading. |
| ActionLaws.SubmitIs | src/lich_agent_bridge/actions.py:681-747 | The law of a submission on plain fields: each check, the new action field by field, its log entry, and that nothing else changes. |
| ActionLaws.AdmitIs | src/lich_agent_bridge/actions.py:602-646 | The law of an admission: which actions are cancelled or marked, the ids reported, what is logged, and that every other action stays. |
| ActionLaws.ControlIs | src/lich_agent_bridge/actions.py:648-679 | The law of the kill switch: who is enabled, which actions are cancelled or marked, and the events. |
| ActionLaws.PollIs | src/lich_agent_bridge/actions.py:1034-1090 | The law of a poll: every due action before the one handed out was misplaced and is denied, the one handed out is the first that is not, and nothing changes besides. |
| ActionLaws.ApproveIs | src/lich_agent_bridge/actions.py:824-866 | The law of an approval: each check in order, the room bound or the action denied, and nothing else. |
| ActionLaws.RecordIs | src/lich_agent_bridge/actions.py:868-914 | The law of a result: each check in order, and the status, result and completion of exactly that action. |
| ActionLaws.CancelIs | src/lich_agent_bridge/actions.py:924-954 | The law of a cancel by the owner: cancelled when pending, marked when dispatched supervised travel, refused otherwise. |
| ActionLaws.TestStopIs | src/lich_agent_bridge/actions.py:956-974 | The law of a stop of test work. |
| ActionLaws.RevokeControlIs | src/lich_agent_bridge/actions.py:976-995 | The law of a control revocation. |
| ActionLaws.RevokeRunIs | src/lich_agent_bridge/actions.py:1017-1032 | The law of a launch revocation. |
| ActionLaws.ReturnIs | src/lich_agent_bridge/actions.py:997-1015 | The law of a return request, with its guard at both clock readings. |
| ActionRuns.DoOk | src/lich_agent_bridge/actions.py:583-1121 | Every broker operation keeps the invariant: sound actions, a faithful log, and a log whose replay is the state. |
| ActionRuns.ReplacementReplays | src/lich_agent_bridge/actions.py:602-646 | The ids listed by a generation replacement are exactly those cancelled, so the bulk change can be replayed from the log. |
| ActionRuns.AuditLogIsSource | src/lich_agent_bridge/actions.py:602-1121 | After any run, replaying the audit log from the empty state gives who is enabled and every field of every action. |
| ActionRuns.GenerationsAreNotLogged | src/lich_agent_bridge/actions.py:614-640 | The concrete input: two first admissions with different generations write the same, empty, log. |
| GenerationLog.LoggedIsActive | src/lich_agent_bridge/actions.py:602-747 | After any run, the generation shown by the last replacement, enabling, kill switch or proposal of a character is its active one. |
| GenerationLog.UnloggedIsUndetermined | src/lich_agent_bridge/actions.py:602-747 | After any run whose log has no such event of a character, and for any generation at all, another run has the same log, actions and enabled characters and that generation active. |
| GenerationLog.GenerationIsLoggedIff | src/lich_agent_bridge/actions.py:602-747 | All runs that write this log agree on a character's active generation if and only if the log holds such an event of that character. |
| GenerationLog.WithoutAdmissions | src/lich_agent_bridge/actions.py:602-640 | A run that logs nothing about a character reaches the same state, but for its generation, without that character's admissions. |
| ActionRuns.PendingIsCurrent | src/lich_agent_bridge/actions.py:602-747 | In every reachable state pending work belongs to an enabled character and its active generation. |
| ActionRuns.StaleWorkIsStopped | src/lich_agent_bridge/actions.py:613-679 | In every reachable state started test, control, controlled-launch or travel work of a disabled character or replaced session carries the stop marker. |
| ActionRuns.NothingIsRevived | src/lich_agent_bridge/actions.py:583-1121 | Whatever operations follow, an action keeps its identity, moves only forward through its statuses, keeps a recorded result and never loses a notice, stop or return marker. |
| ActionRuns.DeliveredOnce | src/lich_agent_bridge/actions.py:1034-1090 | Over a whole run an action is announced for confirmation at most once and delivered at most once. |
| ActionRuns.DeliveredAsApproved | src/lich_agent_bridge/actions.py:824-866 | A confirmation-gated action is delivered only after its approval and only in the room it was approved in. |
| ActionRuns.InstructionIsTimely | src/lich_agent_bridge/actions.py:1034-1090 | An instruction goes to the enabled character's current session, strictly before the expiry reading, to queued work in its required room or to an unannounced confirmation. |
| ActionRuns.ExecutedAsProposed | src/lich_agent_bridge/actions.py:681-1121 | In every run an instruction to execute a proposal comes strictly before the proposal's lifetime and deadline end, to its character in the session it expected, in the room it named if it named one, with the evaluated commands. |
| ActionRuns.QuietMeansNothingDue | src/lich_agent_bridge/actions.py:1034-1090 | If a poll of the current session of an enabled character hands out nothing, then afterwards no action is due a notice or a delivery to it, in the terms of the actions' own fields. |
| Executor.CodeExecution.Resolve | mcp/src/executor.ts:121-133 | The first resolution closes dispatch and is turned into a failure when a mutation failed; later ones change nothing. |
| Executor.CodeExecution.LabCall | mcp/src/executor.ts:177-199 | A call after the deadline or before readiness ends the execution; the 21st is refused and fails it; others reach the bridge. |
| Executor.CodeExecution.BridgeCall | mcp/src/sdk-bridge.ts:38-74 | A call is refused for the first failing check or forwarded; mutation attempts are counted and a refused one latches its error. |
| Executor.CodeExecution.BridgeReply | mcp/src/sdk-bridge.ts:74-111 | A reply acknowledges, fails or refreshes steps as its kind and receipt call for and latches the first mutation failure; the laws on plain fields are `ExecutorLaws.ReplyIs` and `ExecutorReplies.SuccessMeansReceipts`. |
| Executor.CodeExecution.CallEnded | mcp/src/executor.ts:210-213 | Ending a call releases it and resolves a waiting result when it was the last one. |
| Executor.CodeExecution.ResultMessage | mcp/src/executor.ts:217-226 | A result closes dispatch and waits as success exactly if it is sound JSON with no unawaited mutation. |
| Executor.ConnectionSlots.Enter | mcp/src/executor.ts:99-103 | A connection's counter equals its running executions, and a third one is refused. |
| Executor.ConnectionSlots.Leave | mcp/src/executor.ts:232-235 | Leaving gives back exactly one slot of its own connection. |
| ExecutorLaws.BeginIs | mcp/src/sdk-bridge.ts:38-74 | The law of a valid call: the error of the first failing check, or one new step of the request's own route, character and operation, with the attempt counted. |
| ExecutorLaws.ForwardedIff | mcp/src/sdk-bridge.ts:38-74 | A call is forwarded if and only if it comes in time, ready, within the call limit, valid, and passes each check of its kind. |
| ExecutorLaws.ReplyIs | mcp/src/sdk-bridge.ts:74-111 | The law of a reply: a stop is acknowledged exactly by a receipt naming its character and operation that says stopped, a perform exactly by one with an operation and a status that is not bad; any other reply leaves the step in error and latches. |
| ExecutorLaws.ResultIs | mcp/src/executor.ts:217-226 | The law of a result message on plain fields: closing, waiting, and the outcome when nothing is in flight. |
| ExecutorLaws.ListenedIs | mcp/src/executor.ts:149-176 | While the child is listened to, readiness sets the deadline one timeout ahead, a log line is counted, and an error fails the execution; afterwards none of them changes anything. |
| ExecutorLaws.CloseIs | mcp/src/executor.ts:146-148 | The child's end fails the execution exactly when it is neither resolved nor waiting with an outcome. |
| ExecutorLaws.LimitIs | mcp/src/executor.ts:182-191 | The 21st call adds one failed step that was never sent and fails the execution. |
| ExecutorRuns.StepForward | mcp/src/executor.ts:107-235 | Every child message, reply, continuation and timer keeps the invariant and only moves forward. |
| ExecutorRuns.ResolvedOnce | mcp/src/executor.ts:121-141 | The execution resolves at most once, its resolution is final, and calls are in flight then only if the deadline passed. |
| ExecutorRuns.ForwardedWithinBudget | mcp/src/executor.ts:177-199 | In every interleaving at most 20 calls and 8 mutations are forwarded, and none after dispatch is closed. |
| ExecutorRuns.SuccessIsStrong | mcp/src/executor.ts:107-235 | Reported success means, in every interleaving and for every client message, that each attempted mutation was acknowledged without error or observed failure and nothing is in flight. |
| ExecutorReplies.SuccessMeansReceipts | mcp/src/sdk-bridge.ts:74-111 | In every run that reports success, each forwarded stop was answered by a receipt naming the character and operation of the very call that made it and saying stopped, and each forwarded perform by a reply with an operation and a good status. |
| ExecutorReplies.SuccessMeansNoFailure | mcp/src/sdk-bridge.ts:104-108 | In every run that reports success no reply reported a failed mutation. |
| ExecutorReplies.NoReceiptFails | mcp/src/sdk-bridge.ts:93-111 | Conversely: a forwarded mutation whose reply lacks such a receipt is in error from then on, latches, and the run never reports success. |
| ExecutorReplies.LatchingReply | mcp/src/sdk-bridge.ts:104-108 | A reply to a mutation that has an error or a bad status latches. |
| ExecutorRuns.ResultSucceedsIff | mcp/src/executor.ts:217-226 | With nothing in flight a result message succeeds if and only if it is sound JSON, awaited its mutations, and every attempted mutation is acknowledged and sound. |
| ExecutorRuns.SucceedsIff | mcp/src/executor.ts:125-226 | With any calls in flight: the execution succeeds if and only if the result is JSON and awaited everything, no forwarded mutation was unsettled when it came, the last call ended before the deadline and without the child breaking, and no failure was latched by then. |
| ExecutorRuns.NoPerformAfterFailure | mcp/src/sdk-bridge.ts:53-55 | After a mutation failure with a message no perform is forwarded in any later state. |
| ExecutorRuns.PerformForwardedIff | mcp/src/sdk-bridge.ts:49-60 | A valid perform within the attempt budget is forwarded if and only if no mutation failed or the first failure's message is empty. |
| ExecutorRuns.EmptyMessageDoesNotBlock | mcp/src/sdk-bridge.ts:105-108 | A run in which a perform is forwarded after a perform rejected with an empty message: the latch tests truth, not presence. |
| ExecutorRuns.FirstFailureStays | mcp/src/sdk-bridge.ts:105-108 | The latch keeps the first failure of a run. |
| Evidence.LocatorFits | src/lich_agent_bridge/evidence_workspace.py:126-150 | Every locator encodes within 200 characters, so a manifest never has to shorten it again. |
| Evidence.RenderedUpdate | src/lich_agent_bridge/evidence_workspace.py:106-113 | Replacing one record changes the rendered size by exactly the difference of the two records. |
| Evidence.DeduplicatedKeys | src/lich_agent_bridge/evidence_workspace.py:197-211 | Deduplication hides exactly the item keys already seen. |
| Evidence.ShownItemsKeepTheirSources | src/lich_agent_bridge/evidence_workspace.py:197-211 | Every item still shown keeps the source it came with. |
| EvidenceJson.RecordLength | src/lich_agent_bridge/evidence_workspace.py:67-76 | The size counted for a record, a manifest or an omission is the length of its JSON text. |
| EvidenceJson.RenderedIsLength | src/lich_agent_bridge/evidence_workspace.py:106-113 | The size a selection is measured by is the length of the evidence text put into the prompt. |
| EvidenceLaws.LocatorIs | src/lich_agent_bridge/evidence_workspace.py:125-150 | A locator has all of the data's short fields, or only the source where they take too much, or else up to six handles: each short source in order unless it would not fit with those before it. |
| EvidenceLaws.ManifestIs | src/lich_agent_bridge/evidence_workspace.py:152-164 | A manifest keeps the number, the locator and the request, or only its tool where the request is longer than 180 characters; an answer whose status is omitted stays as it is. |
| EvidenceLaws.DeduplicatedIs | src/lich_agent_bridge/evidence_workspace.py:197-211 | Deduplication takes out exactly the identified items already seen and the sources no shown item names, keeps order and number of all others, and changes nothing else but the note. |
| EvidenceLaws.AddedIs | src/lich_agent_bridge/evidence_workspace.py:54-94 | The law of adding on the fields of the store: reactivate what is cached, refuse at the ceiling, share what is the same knowledge, and otherwise append the whole result or its omission, with the diagnostics each adds. |
| EvidenceLaws.OrderIs | src/lich_agent_bridge/evidence_workspace.py:102-104 | What was reactivated goes first; then deliberate reads, observations, inventory searches and everything else; within these the latest touch. |
| EvidenceWorkspace.AddedOk | src/lich_agent_bridge/evidence_workspace.py:54-94 | Adding keeps the store valid; the request is answered afterwards unless the ceiling refuses a new one. |
| EvidenceWorkspace.HolderOk | src/lich_agent_bridge/evidence_workspace.py:59-66 | The entry that already answers a request, by cache or by identity, belongs to the same tool. |
| EvidenceWorkspace.EvidenceWorkspace.Activate | src/lich_agent_bridge/evidence_workspace.py:45-52 | A cached request is touched and reactivated, anything else changes nothing. |
| EvidenceWorkspace.EvidenceWorkspace.Add | src/lich_agent_bridge/evidence_workspace.py:54-94 | A result is stored whole, replaced by an omission over the per-result budget, or shared with the same knowledge; refused exactly at the request ceiling. |
| EvidenceProvenance.AddedFaithful | src/lich_agent_bridge/evidence_workspace.py:54-94 | Adding what an execution of a new request returned keeps the store faithful: every record is a result given, whole or omitted by its size, and every request given has its own result or an earlier one that is the same knowledge. |
| EvidenceProvenance.IndexedDistinct | src/lich_agent_bridge/evidence_workspace.py:58-66 | No two records stored whole are the same knowledge by read key, or by status, data and sources. |
| EvidenceWorkspace.EvidenceWorkspace.Order | src/lich_agent_bridge/evidence_workspace.py:102-104 | The order lists every entry once, reactivated and higher-priority evidence first, then the most recently touched. |
| EvidenceWorkspace.EvidenceWorkspace.Select | src/lich_agent_bridge/evidence_workspace.py:96-124 | The selection loop computes the greedy selection in that order with its sources, and clears the reactivation marks only. |
| EvidenceSelection.SelectionFitsIff | src/lich_agent_bridge/evidence_workspace.py:96-113 | A selection stays within the context if and only if the manifests alone fit, or one entry is smaller than its manifest by enough to make them fit. |
| EvidenceSelection.FitsAloneIff | src/lich_agent_bridge/evidence_workspace.py:106-113 | That comparison of sizes is the rendered size with one record in place of its manifest. |
| EvidenceSelection.EightManifestsFit | src/lich_agent_bridge/evidence_loop.py:98-106 | With at most eight entries, the configured limits, tool names of at most 169 characters and no answer declaring itself omitted, the manifests alone fit. |
| EvidenceSelection.SelectionFits | src/lich_agent_bridge/evidence_workspace.py:96-113 | Under the same conditions every selection stays within the context. |
| EvidenceSelection.DeclinedAnswersOverflow | src/lich_agent_bridge/evidence_workspace.py:152-154 | Two answers whose own status is "omitted", added one after the other to a new store, overflow the least context in any order: their manifest is the whole record. |
| EvidenceSelection.EveryEntryAppears | src/lich_agent_bridge/evidence_workspace.py:96-113 | Every entry appears, as its record without duplicates or as its manifest. |
| EvidenceSelection.NoItemTwice | src/lich_agent_bridge/evidence_workspace.py:197-211 | Two selected searches never show the same identified item. |
| EvidenceSelection.NoItemLost | src/lich_agent_bridge/evidence_workspace.py:197-211 | Every identified item of a selected search is shown by some selected record that has it. |
| EvidenceSelection.SourcesAreOfSelected | src/lich_agent_bridge/evidence_workspace.py:114-121 | The sources given are exactly those of the records selected. |
| EvidenceSelection.SourcesAreDistinct | src/lich_agent_bridge/evidence_workspace.py:114-121 | No source is given twice. |
| EvidenceSelection.FirstRankedIsShown | src/lich_agent_bridge/evidence_workspace.py:102-113 | The first-ranked entry is shown whole whenever it fits beside the other manifests. |
| EvidenceLoop.ParseTurn | src/lich_agent_bridge/evidence_loop.py:176-205 | A reply is a batch exactly if it is protocol JSON with only a list of one to four well-formed requests, and an answer exactly if it is plain text or a nonblank answer alone. |
| EvidenceLoop.ServeOne | src/lich_agent_bridge/evidence_loop.py:158-173 | A cached request is reactivated without execution; any other is executed once, and what the store then holds for it is what that execution returned. |
| EvidenceLoop.TakeBatch | src/lich_agent_bridge/evidence_loop.py:147-173 | A batch with an inadmissible member executes nothing; an admitted one, exactly when also the next deadline check finds time left, is served whole unless an execution that raised, an invalid result or an expired check ends the run. |
| EvidenceLoop.Run | src/lich_agent_bridge/evidence_loop.py:108-174 | For every model, session and clock: at most four model calls, three rounds and eight executions, no request twice, none from a rejected batch. Every call is shown a selection of exactly what the executions so far returned, and evidence within its limit. The run answers if and only if the last reply is an answer in time, with exactly its text and the sources last shown; reaches the limit if and only if the last reply is a batch at the final turn; and fails or is cancelled exactly for an unusable reply, an inadmissible batch, an invalid or raising execution, or an expired check. |
| ResearchSections.Register | src/lich_agent_bridge/research.py:110-138 | The loops store the introduction and each heading's section with its end and its ancestor path, or one whole-document section. |
| ResearchSections.SectionsAreLaminar | src/lich_agent_bridge/research.py:110-138 | Any two registered sections are nested or disjoint. |
| ResearchSections.PathListsContainingSections | src/lich_agent_bridge/research.py:119-132 | A stored path lists exactly the sections containing the heading, outermost first, with strictly rising levels. |
| ResearchSections.TopSectionsPartition | src/lich_agent_bridge/research.py:110-132 | Every position lies in the introduction or in exactly one outermost section, never both. |
| ReadCursors.PiecesReassemble | src/lich_agent_bridge/research.py:488-514 | The pieces of a range, read step by step, concatenate to exactly its text. |
| ReadCursors.PieceCount | src/lich_agent_bridge/research.py:488-514 | All pieces but the last are full and the last is not empty. |
| ReadCursors.ResearchSession.Register | src/lich_agent_bridge/research.py:95-138 | A document already registered under its identity is returned; a new one is stored under a fresh handle exactly while the session is open, has fewer than 64 documents and the text is within 1,000,000 characters; every issued continuation stays valid. |
| ReadCursors.ResearchSession.AddPassages | src/lich_agent_bridge/research.py:146-168 | Passage ranges are added to a document without touching its text or its other ranges, and every issued continuation stays valid. |
| ReadCursors.StillContinues | src/lich_agent_bridge/research.py:146-168 | Documents that keep their texts and ranges keep every continuation strictly inside its range. |
| ReadCursors.ResearchSession.Close | src/lich_agent_bridge/research.py:66-72 | A closed session accepts no read. |
| ReadCursors.ResearchSession.CursorFor | src/lich_agent_bridge/research.py:497-502 | A place has one cursor: the one issued before, or a fresh one; the two maps stay inverse and cursors strictly inside their ranges. |
| ReadCursors.ResearchSession.ReadPassage | src/lich_agent_bridge/research.py:488-514 | A read returns the next stretch of its own range; it is at the end exactly when it issues no continuation, and the continuation points where it stopped. |
| ReadCursors.ResearchSession.ReadOn | src/lich_agent_bridge/research.py:78-93 | Following continuations from any accepted read ends, and the pieces are exactly the rest of the range. |
| CoverageWindow.WordsGrow | src/lich_agent_bridge/discovery.py:17-29 | A range whose ends cut no word has all its words in every range around it. |
| CoverageWindow.KeptWords | src/lich_agent_bridge/discovery.py:17-29 | Every word of a range is a word of each range around it, except at most two fragments: the first word where the start cuts a word the larger range goes past, and the last one likewise. |
| CoverageWindow.KeptLeft | src/lich_agent_bridge/discovery.py:17-29 | Reading from before a position keeps every word after it but possibly the first. |
| CoverageWindow.KeptRight | src/lich_agent_bridge/discovery.py:17-29 | Reading on past a position keeps every word before it but the last, and that one too at a clean cut. |
| CoverageLaws.StemIs | src/lich_agent_bridge/discovery.py:25-29 | A plural ending goes from words of at least five letters unless they end in two of it, and nothing else. |
| CoverageWindow.BestIsPreferred | src/lich_agent_bridge/research.py:305-313 | The chosen hit is the earliest eligible one no other is preferred to, by most new words and then the smaller window; one is chosen if any is eligible. |
| CoverageLaws.BestIs | src/lich_agent_bridge/research.py:305-313 | In plain terms: the hit joined next has an uncovered focus word, keeps the window within the allowance, and before every other such hit has more uncovered words, then the smaller window, then the earlier place; none is joined exactly if there is none. |
| CoverageWindow.Choose | src/lich_agent_bridge/research.py:305-313 | The choosing loop finds exactly that hit. |
| CoverageWindow.Grow | src/lich_agent_bridge/research.py:298-318 | The growing loop joins the best eligible hit until none is left; it ends with the hull of the merged hits. |
| CoverageWindow.CommonPath | src/lich_agent_bridge/research.py:323-327 | The heading path is the longest common prefix of the merged paths. |
| CoverageWindow.CoverageWindow | src/lich_agent_bridge/research.py:286-337 | The hits unchanged exactly if there are fewer than two or nothing grows the window; otherwise the grown window, within the allowance and the hull of the merged hits with their common path, followed by the hits it does not contain. It keeps the first hit's query terms exactly if every fragment at an end it goes past is no query term or one of its words, so always when the first hit's ends cut no word; where no merged hit cuts a word it has strictly more query terms, and no joinable hit has another. |
| CoverageWindow.FirstTermsKeptIff | src/lich_agent_bridge/research.py:286-337 | That condition, for any hit and any window around it. |
| CoverageWindow.WindowLosesTerm | src/lich_agent_bridge/research.py:286-337 | The concrete input: in the text "x ab" the hits at "b" and "x" give a window that has the term "b" no more. |
| CoverageWindow.UncontainedKeeps | src/lich_agent_bridge/research.py:336-337 | Every input hit lies in the window or is returned after it. |
| CoverageLaws.UncontainedIs | src/lich_agent_bridge/research.py:336-337 | The hits after the window are exactly those that do not lie in it. |
| IndexedHits.EndIsClean | src/lich_agent_bridge/passage_index.py:246-254 | A stored range that does not end by a forced cut ends at a clean cut of the case-folded text. |
| IndexedHits.StartIsClean | src/lich_agent_bridge/passage_index.py:246-254 | A stored range that does not start where a forced cut ended the one before starts at a clean cut. |
| IndexedHits.UncutHitKeepsTerms | src/lich_agent_bridge/research.py:286-337 | So a stored range without a forced cut keeps its query terms in every window around it. |
| IndexedHits.CutsInsideWord | src/lich_agent_bridge/passage_index.py:246-250 | The splitting loop cuts such a text, with no space in the second half of the limit, inside a word. |
| IndexedHits.ForcedCutLosesTerm | src/lich_agent_bridge/research.py:286-337 | With the range after that cut as first hit, the window joins it to the one before and has its term no more. |
| ControllerCommands.MatchRebuilds | src/lich_agent_bridge/controller_manifest.py:312-326 | Whatever matches is, up to letter case, what its values render to. |
| ControllerCommands.CanonicalUpToCase | src/lich_agent_bridge/actions.py:481-489 | The canonical command of a matched command equals it up to letter case. |
| ControllerCommands.BuiltMatches | src/lich_agent_bridge/controller_manifest.py:284-326 | Every command the builder renders is matched. |
| ControllerCommands.CanonicalMatches | src/lich_agent_bridge/controller_manifest.py:284-326 | The same for arguments given by name. |
| ControllerCommands.MatchEither | src/lich_agent_bridge/controller_manifest.py:261-271 | Without action ids the matched arguments depend on the command only up to letter case. |
| ControllerCommands.RoundTrip | src/lich_agent_bridge/controller_manifest.py:284-326 | In a delimited template matching reads back exactly the rendered values. |
| ControllerCommands.CanonicalizationIsIdempotent | src/lich_agent_bridge/actions.py:481-489 | In a delimited template, or one without action ids, the canonical command is matched with the same arguments. |
| ControllerCommands.UndelimitedIsNotIdempotent | src/lich_agent_bridge/controller_manifest.py:118-125 | An undelimited template with a case-sensitive action id whose canonical command is read with other arguments. |
| CommandReadings.MatchReads | src/lich_agent_bridge/controller_manifest.py:312-326 | What the matcher returns is a reading of the command: the values fit their slots one after another. |
| CommandReadings.ReadMatches | src/lich_agent_bridge/controller_manifest.py:312-326 | Whatever has a reading is matched. |
| CommandReadings.CrossedAreSame | src/lich_agent_bridge/controller_manifest.py:312-326 | Of two commands that differ in letter case only, if the first reading of each is a reading of the other, they are the same reading. |
| CommandReadings.IdempotentIff | src/lich_agent_bridge/actions.py:481-489 | For any template and command: the canonical command is matched with the same arguments if and only if the way it is read is also a way to read the command itself, that is, the action ids it reads are in lower case there. |
| CommandReadings.PlainIsIdempotent | src/lich_agent_bridge/actions.py:481-489 | Whatever the template, that holds for every command without the capital letters A to F. |
| CommandReadings.PlainSelectsSameAction | src/lich_agent_bridge/controller_manifest.py:428-436 | The canonical command of such a command selects the same action of any manifest with the same arguments. |
| ControllerCommands.BuildMatchesReportIff | src/lich_agent_bridge/controller_manifest.py:284-310 | In a delimited template the built command matches exactly what the builder reports, if and only if no flag with a true default was passed as None. |
| ControllerCommands.ReportedIsMeantIff | src/lich_agent_bridge/controller_manifest.py:300-305 | A slot's reported value is what the command shows of it, except for a flag with a true default passed as None. |
| ControllerCommands.NoneFlagIsMisreported | src/lich_agent_bridge/controller_manifest.py:300-305 | The concrete case: the flag text is rendered and false reported. |
| ControllerCommands.Build | src/lich_agent_bridge/controller_manifest.py:284-310 | The builder refuses unknown or missing names and unrenderable values, and otherwise returns the command, the script arguments with the same values, and the values it reports. |
| CommandLaws.RenderIs | src/lich_agent_bridge/controller_manifest.py:127-153 | A slot writes exactly this: an action id as it is, the first value equal up to letter case, the digits without the white space around them, or the flag's text exactly when it is true or left to a true default; any other value is refused. |
| CommandLaws.CommandIs | src/lich_agent_bridge/controller_manifest.py:284-310 | The command is its literals and what its slots write, one after another, and there is one exactly if every slot writes something. |
| CommandLaws.BuildIs | src/lich_agent_bridge/controller_manifest.py:284-310 | The builder returns a command exactly if only declared names are given, all but the flags are, and every slot writes its part of it. |
| ControllerCommands.BuildScript | src/lich_agent_bridge/controller_manifest.py:306-310 | Where the command renders, so does every template over its placeholders. |
| ControllerCommands.CanonicalSelectsSameAction | src/lich_agent_bridge/controller_manifest.py:428-436 | The canonical command selects the same action of a manifest with the same arguments when no earlier action takes an action id. |
| PromptBudget.ShortText | src/lich_agent_bridge/context_assembler.py:588-595 | A bounded text is never longer than its bound, unchanged when it fits, and otherwise a prefix with the truncation marker. |
| PromptBudget.FitText | src/lich_agent_bridge/context_assembler.py:681-697 | The bisection ends with a cut that fits, and with the longest such cut if longer cuts never encode shorter. |
| PromptBudget.TextGrowsWithLimit | src/lich_agent_bridge/context_assembler.py:588-595 | That holds of every encoder that writes text character by character and the truncation marker as it is. |
| PromptBudget.ShortTextGrows | src/lich_agent_bridge/context_assembler.py:588-595 | What a bounded text costs to write grows with its bound. |
| PromptBudget.FitTurn | src/lich_agent_bridge/context_assembler.py:664-680 | A dialogue turn is cut to the most generous of the four limits at which it fits. |
| PromptBudget.BoundedRecord | src/lich_agent_bridge/context_assembler.py:652-719 | A record that fits is unchanged; otherwise a turn is cut at the first limit at which it fits, else a text as far as the bisection finds, else its fields that fit are kept, else the placeholder. |
| PromptBudget.FitRecords | src/lich_agent_bridge/context_assembler.py:627-646 | Each record in order is cut to what those before it left, or to an even share of that, and admitted whole; the section ends with the first that does not fit, and the space used is counted exactly. |
| PromptBudget.RenderSection | src/lich_agent_bridge/context_assembler.py:613-649 | A section is within its maximum or absent, absent exactly when its frame does not fit; it is its header, the admitted records, the mark of what was left out exactly where that fits, and its footer. |
| PromptBudget.AvailableIff | src/lich_agent_bridge/context_assembler.py:106-123 | The frame leaves room if and only if the name, the labels, one character of a nonblank question and the unused marker fit; without room it takes exactly that least form. |
| PromptBudget.UsualContextHasRoom | src/lich_agent_bridge/context_assembler.py:106-123 | With at least 256 characters and a name of at most 40 there is always room. |
| PromptBudget.LongNameOverflows | src/lich_agent_bridge/context_assembler.py:100-153 | In the least context a prompt for a name of more than 171 characters is too long, and one of more than 125 as soon as there is a record. |
| PromptBudget.RenderBlocks | src/lich_agent_bridge/context_assembler.py:124-151 | Each of the nine sections gets the lesser of its limit and what those before it left, never more than what is available, and nothing is shown once the frame alone is too long. |
| PromptBudget.Render | src/lich_agent_bridge/context_assembler.py:100-153 | The prompt stays within its limit if and only if its least frame fits with the unused marker, or fits without it when nothing is to be shown; it is exactly the prefix, the sections, the mark of omission if a section shows none of its records, and the question; every reference is a cut of a knowledge record that shows text and stands whole in the prompt. |
| PromptBudget.ShareIs | src/lich_agent_bridge/context_assembler.py:631-634 | The budget of a record is all that is left, or the greatest even share of it. |
| PromptLaws.BoundedIs | src/lich_agent_bridge/context_assembler.py:588-595 | A bounded text is whole, or cut after its last visible character that leaves room for the mark. |
| PromptLaws.CleanIs | src/lich_agent_bridge/context_assembler.py:588-590 | A cleaned text is the text without NUL characters and without the white space around that. |
| PromptLaws.TurnCutIs | src/lich_agent_bridge/context_assembler.py:664-680 | A cut turn has question and answer within the limit, at most 100 characters of the title and origin of each source, and every other field as it was. |
| PromptLaws.BodyCutIs | src/lich_agent_bridge/context_assembler.py:681-697 | A cut text has at most the limit or 16 characters, and every other field is as it was. |
| PromptLaws.SelectionIs | src/lich_agent_bridge/context_assembler.py:698-712 | One field after another is kept if the record so far fits with it and is named as omitted otherwise; an omitted spell list is declared incomplete. |
| PromptLaws.MarksReplaced | src/lich_agent_bridge/context_assembler.py:145-149 | What a record still shows is its text between the marks of cuts. |
| PromptLaws.BlocksAre | src/lich_agent_bridge/context_assembler.py:124-134 | The nine sections with their names, records and limits; only the reference texts share theirs evenly. |
| PromptLaws.QuestionIs | src/lich_agent_bridge/context_assembler.py:106-112 | The question takes at most 2000 characters, a third of the prompt and what the labels leave, and at least one. |
| PromptLaws.FollowUpIs | src/lich_agent_bridge/context_assembler.py:112-122 | The question before it takes what is left of that, or is left out. |

## Left out

- EvidenceSelection.EightManifestsFit: assumes tool names of at most 169 characters, which every catalog name is, that no answer has the status "omitted", and ignores escape expansion in JSON.
- CoverageWindow.CoverageWindow: that the window has strictly more query terms, and that no joinable hit has another, is stated where no merged hit cuts a word.
- ControllerCommands.CanonicalizationIsIdempotent: a sufficient condition on the template alone; the exact condition on template and command is `CommandReadings.IdempotentIff`.
- ControllerCommands.Build: the order in which several bad arguments are reported is not modelled.
- ReadCursors.ResearchSession.Register: unpublished registration and publication by a search are not modelled.
- ActionBroker.ActionBroker.Admit: actions are records in a sequence that the methods reassign, not objects on the heap, so aliasing of one action is not captured.
- EvidenceWorkspace.EvidenceWorkspace.Order: the library sort is a selection loop here; touched readings differ, so the order is the same.
- PassageIndex.MirrorDatabase.BuildIndex: row ids, the full-text tables and their integrity checks, and the order of pages are not modelled; the chunker is an uninterpreted function there and is proved on its own in `PassageChunks`.
- EvidenceLoop.Run: the diagnostics, including the one for a batch beyond the budget, and the timings returned with an answer are not modelled; white space is space, tab, line feed and carriage return.
- Waiting for an instruction (`poll_wait`) is a sequence of polls; waking up is not modelled.
- Closing a session and cancelling its question at once: each is modelled beside inspections on its own (`SessionClose`, `CancelProtocol`).
- Callbacks and audit writers that raise.
- Refreshed pages, replacements of a document and search results (`_search`, `_read_replacement`, `_pack_discovery`, `_candidate`).
- Field validators, manifest loading, request parsers and tool schemas: each is settled by reading one branch.
- The regular expressions of the command policy and the normalizer, Markdown and MediaWiki parsing: their results are inputs.
- HTTP, sockets, subprocesses, SQLite, files, model adapters, settings and the Ruby adapters: input and output.
- Liveness that depends on a model, a client or a game replying.
