# A verified model of the Feishu agent bot

The bot answers chat messages with an LLM agent.  A message is parsed, gated and mapped to a session key;
a handler goroutine takes a lock with a time limit in Redis, loads the session, lets the agent talk to a
provider in a loop of streamed answers and tool calls, saves the growing history after every append, and
shows the stream on a card that is patched while it grows.  This project models that story in Dafny, from
provider chunks to the final card and the stored history, and proves what the parts promise.

Strings are byte strings (`Bytes`): the Go code slices by bytes and `len` is a byte length.  Integers are
unbounded except where wrap-around can be reached (`IsoDuration` wraps to 64 bits).  Code that updates state
step by step is written as classes, methods and loops, each proved against a specification function; the
theorems are lemmas about those functions.

## How the files fit together

| file | what it models |
|---|---|
| `Bytes`, `Llm`, `Digits` | byte strings and white space; messages and stream events; decimal numerals |
| `EinoAdapter`, `StreamShape`, `ChunkStream` | `translateStream`: provider chunks to stream events, the shape of its output, and what it says of the chunks |
| `AgentSpec`, `AgentLoop` | one `Agent.Run` as a function of everything outside it, and the loop as it is written |
| `AgentHistory`, `RunTranscript`, `SaveFaults`, `Unanswered`, `AgentEvents`, `Announcements`, `ToolEnds`, `AgentSteps`, `Outcomes`, `Demux` | what a run appends and leaves in the session, which failing Saves matter and for how long, what it emits, what its outcome tells, how many streams it opens, how it reassembles interleaved calls |
| `SessionStore`, `Transcript` | trimming on every Save, and the shape of the histories it leaves |
| `CardState`, `CardSize`, `LongBody`, `Markdown`, `Fallback`, `CodeBlocks` | the card state machine and layout, the size cut, thread replies, clean-up and line-based downgrade of Markdown, and what they do to code blocks |
| `EmissionProtocol`, `Renderer`, `Channel`, `Hanging`, `TurnEnd` | the grammar of emitted events, `Feed`, the buffered channel between the two goroutines, when `Feed` can hang in a card that never gets built, and the whole way to the final card |
| `Redis`, `Sessions`, `Turns`, `Serial`, `Disorder`, `Conversations` | keys with expiry, store and locker, the timed transition system of turns and commands, exactly when it is serialisable in the order of its log, and agent runs inside it |
| `Handler`, `TurnProtocol` | `Handle` and `dispatchCommand`, their refinement of the turn protocol, and what they send |
| `Limiter`, `IsoDuration`, `Registry` | the callback rate limiter, the duration scanner, the tool registry |

A run depends on the outside through one `World` value: the streams the provider sends, whether each Save
reaches Redis, which strings are JSON, what each tool call does, and the order in which the goroutines of a
batch finish.  Theorems hold for all worlds; `Fair` only says that every goroutine finishes exactly once.

## Model

| member | source | states |
|---|---|---|
| Turns.TimedMutualExclusion | internal/session/lock.go:37-65 | in every reachable state of any interleaving, two unreleased turns on one key were granted at least one lock time limit apart |
| Turns.OverlapBound | internal/lark/handler.go:122-139 | if turns are cut off after `cap`, at most ceil(cap / ttl) of them can overlap on one key |
| Turns.OverlapBoundIsTight | internal/lark/handler.go:122-139 | the bound is met: for every limit and cap a trace in which that many turns on one key are under way at once |
| Turns.FiveTurnsAtMost | cmd/bot/main.go:200-206 | the five-minute turn limit under the one-minute lock lets at most five turns run on one key at a time, and a trace has five |
| Turns.ReleaseIsTokenMatched | internal/session/lock.go:26-33 | a release only ever removes an entry that holds its own token; all other locks stay |
| Turns.StaleReleaseKeepsHolder | internal/session/lock.go:55-65 | the release of a late turn leaves the entry of the turn that now holds the lock, so no third turn gets in |
| Turns.RefusedChangesNothing | internal/lark/handler.go:130-134 | a refused lock attempt changes nothing but the attempt counter |
| Turns.TraceInv | internal/lark/handler.go:122-139 | invariant over every trace: a turn within its limit holds a live lock entry with its own token, and turns on a key are spaced by the limit |
| Serial.StoreIsSerial | internal/lark/handler.go:110-157 | if no turn or command on a key starts inside another one, however long turns take, the stored session of the key is what its granted turns and commands leave when run one after another in the order of the log, whatever happens on other keys |
| Disorder.SerialisableExactly | internal/lark/handler.go:110-157 | serialisability in the order of the log (grants and commands as they come), exactly: at every point of a trace, whatever its turns and commands go on to write, finishing what has begun leaves the store as the replay of the log does, if and only if turns and commands on the key have not overlapped |
| Disorder.DisorderLoses | internal/lark/commands.go:29-68 | at the first grant, /clear or /model inside another turn or command, some writes that agree with everything seen so far make the store differ, at a later quiet state, from the replay of the log in its own order; other orders of the same entries are not considered |
| Serial.TimelyIsOrderly | internal/lark/handler.go:122-139 | what the lock contributes: if every grant finds the turns on the key within the time limit and commands keep out, turns do not overlap |
| Serial.TurnSeesSerialPrefix | internal/lark/handler.go:141-157 | without overlap a turn under way has read exactly what the entries before it left, and the store holds the last of its Saves so far |
| Serial.TraceSerial | internal/lark/handler.go:110-157 | the invariant behind both, kept by every action of every goroutine |
| Serial.ClearDuringTurnIsLost | internal/lark/commands.go:29-35 | a concrete trace in which /clear inside a turn is undone by the turn's next Save |
| Serial.LateTurnLosesUpdate | internal/lark/handler.go:18 | a concrete trace in which a turn that outlives its lock has its answer overwritten by the next one |
| Conversations.StoredConversationIsSound | internal/lark/handler.go:141-212 | with agent runs as turns that do not overlap, whatever Saves fail, what is stored between turns is the trimmed form of a transcript obeying the tool protocol as long as no Save of tool results has failed since the last /clear, and no window right after one has |
| Conversations.ConversationIsWindowExactly | internal/lark/handler.go:141-212 | with agent runs as turns that do not overlap and whichever Saves have failed at any time: between turns the stored history is a window (orphaned results, then a history obeying the tool protocol) exactly when every assistant message in it that asks for calls is followed by a result; so it is in order again as soon as the messages whose results were lost have been trimmed away |
| Conversations.TurnReadsSound | internal/lark/handler.go:141-157 | without overlap and with no failed Save of tool results before it since the last /clear, what a granted turn loads is a window onto a transcript that obeys the tool protocol |
| Conversations.TurnReadsWindowExactly | internal/lark/handler.go:141-157 | the same for what a granted turn loads, without any condition on earlier Saves |
| Conversations.ReplayKeepsSound | internal/lark/commands.go:40-68 | turns, /clear and /model replayed one after another leave a sound stored history as long as no Save of tool results has failed since the last /clear, and no window right after one has |
| Sessions.KeyCollisionsExactly | internal/lark/parser.go:108-113 | two events share a session key if and only if they are of one conversation, or both are group messages one chat id is the other followed by a colon and some x, while the sender id that goes with the shorter chat id is the other one with x and a colon in front |
| Sessions.KeysSeparateConversations | internal/lark/parser.go:105-113 | for sender ids without a colon, keys are equal exactly for the same conversation |
| Sessions.ColonsCollide | internal/lark/parser.go:112 | with a colon in a sender id two different group conversations share session and lock |
| Sessions.KeysApart | internal/session/lock.go:24 | lock keys and session keys never collide, and both prefixes are injective |
| Sessions.RedisLocker.TryAcquire | internal/session/lock.go:37-53 | grants a fresh token exactly when no live entry exists, stores it with the (defaulted) time limit, and changes nothing when refused or unreachable |
| Sessions.RedisLocker.Release | internal/session/lock.go:56-65 | deletes the entry only if it holds this token; the empty token is a no-op |
| Sessions.RedisStore.Save | internal/session/redis.go:44-62 | trims the session in place whether or not the write succeeds, refuses calls that are not JSON, and writes exactly one key |
| Sessions.RedisStore.Fetch | internal/session/redis.go:29-42 | an error exactly if the request fails or what is stored is no session; no session exactly if nothing is stored; otherwise the session stored |
| Sessions.RedisStore.Delete | internal/session/redis.go:64-69 | removes exactly the session's key |
| Redis.Server.DoSetNX | internal/session/lock.go:45 | an expired entry counts as absent; a live one is not touched |
| Redis.Server.DoDelIfEquals | internal/session/lock.go:27-33 | compare and delete in one step |
| Handler.Handler.Handle | internal/lark/handler.go:85-224 | a message is ignored, and then nothing changes and nothing is sent, exactly if it has no text or comes from any chat but a direct one without mentioning the bot; otherwise it is a command exactly if its text starts with a slash behind white space, has its effect and answer and never takes the lock; otherwise an unreachable or held lock changes nothing and answers so, and a granted lock leads to exactly the Redis state and the messages of one turn, the release coming as much later as the turn took; if the turn hangs in a card that never gets built, the Saves done so far stay, nothing more is sent and the lock is not released |
| TurnProtocol.CommandRepliesAreTrue | internal/lark/commands.go:22-81 | an answer "cleared" means that every later Get finds no session; "switched" that it finds the old or a blank session with the new provider and a trimmed history; any other answer that nothing has changed; no other key is touched |
| TurnProtocol.CommandFailsExactly | internal/lark/commands.go:29-68 | /clear and /model with a known alias report a failure exactly when a request to Redis fails, what is stored is no session, or the history holds a call whose arguments are not JSON |
| TurnProtocol.CommandAnswersExactly | internal/lark/commands.go:22-81 | which answer goes with which text: the four fixed commands, everything that starts with /model by what follows it, and the unknown ones; /whoami answers with the sender's own session key, id and chat type |
| TurnProtocol.TurnStoresQuestion | internal/lark/handler.go:141-184 | what a turn writes: every session is the one found, or a new one with key, sender, chat and default model, but for its messages; the first ends in the text of the message, cut to size, behind the history found, trimmed once; there is none exactly when the Get fails, no run begins or the first Save fails |
| Handler.Handler.SwitchModel | internal/lark/commands.go:40-68 | reads and saves the sender's session without the lock, changing provider and trimming messages |
| Handler.CommandsIgnoreLocks | internal/lark/commands.go:20-36 | no command changes any lock entry |
| Handler.Handler.UnderLock | internal/lark/handler.go:141-224 | every way out between grant and release: store error, no model, no card, a run with its writes and messages, or a run that hangs with the writes and messages it got to |
| TurnProtocol.TurnSendsAre | internal/lark/handler.go:190-221 | a turn sends first the patches of Feed, then the closing patch if it can be built and gets through, then, unless the run failed, the thread replies up to the first that fails; if Feed hangs or the closing card is never built, only the patches of Feed |
| TurnProtocol.EveryTurnAnswers | internal/lark/handler.go:141-212 | after a grant the initial card goes out first exactly when a run begins, and if Handle then returns, at least one patch has replaced it, provided the closing request and every encoding succeed; if no run begins nothing is written, and the one notice is that of the failed Get or that of the missing provider, as the case may be, or none if the initial card itself failed |
| Handler.Handler.ReplyInThread | internal/lark/handler.go:214-221 | sends the chunks in order and stops at the first failure |
| TurnProtocol.TurnFreesLock | internal/lark/handler.go:135-139 | on every path after the grant and however long it takes: the lock stays held at a later time exactly if it was not released (the request failed, or the turn hangs) and the time limit is not over; the entry is gone exactly if the release came through in time; only this conversation's session has changed |
| TurnProtocol.HandleIsAProtocolTurn | internal/lark/handler.go:122-224 | Handle on a free lock, with any duration and whether or not its Get succeeds, leaves Redis exactly as the protocol actions acquire, load, save*, advance, release do with the agent run's writes; a turn that hangs is one that never takes its release and, if it is Feed that hangs, only some of its saves |
| TurnProtocol.FinalCardShows | internal/render/state.go:217-313 | with the size cut, over any encoder: if Feed returns and the recursion ends on the closing card, the card that is encoded shows the whole text taken from the provider when the run finished and either the JSON of the whole card is within 25 KiB or the text within 20000 bytes, the first 20000 bytes and the marker when it finished with neither, and no text when it did not finish; after a failed run it holds nothing but the trace id and the message for the step bound, for an empty answer or for any other failure; Handle is stuck exactly if Feed hangs or that recursion does not end |
| TurnProtocol.UserSeesWholeAnswer | internal/lark/handler.go:190-221 | over everything a run sends: if Feed returns and the closing card gets built, the last patch, if it gets through, is the encoding of that card, which shows the whole finished answer up to 20000 bytes and at least the first 20000 bytes of a longer one; replies go out only behind a run that did not fail and only for what lies behind these bytes, and together with them they give a prefix of the text, all of it exactly when the run did not fail and no reply did; otherwise there is neither a closing patch nor a reply |
| TurnProtocol.QuotedAnswerIsLost | internal/render/state.go:307-312 | with any encoder that escapes quotes, a finished answer of more than 20000 bytes that starts with 20000 quotes leaves Feed hanging at every pace: no closing patch, no reply, no error card |
| CardState.CardShowsText | internal/render/state.go:217-292 | of all elements a card is laid out with, the answer shows its whole text, unless it is an error card, which shows none |
| CardState.CardShowsTheRest | internal/render/state.go:217-292 | of the elements a card is laid out with: all rows in order, the first 300 bytes of the thinking until text arrives and then that it is over, the start-up note exactly on an idle card without text, trace and model exactly on a finished card; an error card shows the first 120 bytes of the error and the trace and nothing else |
| CardState.ErrorIsShown | internal/render/state.go:133-140 | a card that has just taken an error event shows the start of that error, or the generic one for a nil error, and nothing else |
| TurnEnd.FinalCard | internal/lark/handler.go:199-212 | after any run: text, leading thinking, no pending rows, distinct rows; phase Error exactly when Run returned an error or the provider sent a nil error, phase Done exactly when it finished |
| TurnEnd.TextConservation | internal/lark/handler.go:180-197 | for every interleaving of sender, receiver and ticks in which Feed returns, the card text equals the consumed text deltas and its thinking what precedes the first of them; on nil or the step bound and tidy streams the text is the concatenation of the appended assistant contents |
| TurnEnd.RowsAreSavedCalls | internal/render/state.go:102-115 | after any run the rows of the card are the calls of the messages it has appended, one per id and in order, each with its name and the first 60 bytes of its arguments; only the calls of a last answer that could not be saved have none |
| TurnEnd.ShownIsCurrent | internal/render/renderer.go:79-143 | at every moment of every run, error runs included, and of every schedule of sender, receiver, ticks and failing patches: if the card is clean and was ever patched, the last body that went out is that of the current card |
| TurnEnd.RunHangsExactly | internal/lark/handler.go:180-197 | in a run with any outcome, some schedule leaves Feed hanging exactly when, for some times of the events, the card after some prefix of the emitted events never gets built |
| TurnEnd.QuotedRunsHang | internal/render/state.go:307-312 | with the size cut: a run that takes at most 20000 bytes of text never leaves Feed hanging in any schedule; one that takes more, starting with 20000 quotes, and sends no error event, lets Feed return in no schedule and hang in some |
| Channel.FeedReceivesAll | internal/lark/handler.go:181-197 | when Feed returns it has applied every emitted event exactly once and in order |
| Channel.ScheduleInv | internal/lark/handler.go:181-193 | received events plus buffer are a prefix of the emitted ones, at most 64 are buffered, nothing is sent after the close, Feed stops only when closed and drained |
| Channel.NoDeadlock | internal/lark/handler.go:181-195 | in every reachable state in which Feed has neither returned nor begun a build that never ends, some step other than a tick can be taken: the two goroutines never wait for each other |
| Channel.ScheduleIsComplete | internal/lark/handler.go:181-197 | to Feed every schedule in which it returns or hangs is a complete sequence of turns (the emitted events with ticks in between, then the close), of which it takes all, or those up to the build that hangs |
| Channel.CompleteIsScheduled | internal/lark/handler.go:181-197 | every sequence of turns made of the emitted events, ticks and the close comes from a schedule, followed to its end or up to the build that hangs; so running Feed behind the agent covers every interleaving of the two goroutines |
| Channel.StepsAreBounded | internal/lark/handler.go:181-195 | besides ticks, a schedule has exactly the steps that move an event or the close along, at most two per event and two more |
| Hanging.ReturnsExactly | internal/render/renderer.go:116-146 | some schedule lets Feed return exactly when, for some times of the events, every card that a forced flush or the close has to build gets built |
| Hanging.HangsExactly | internal/render/renderer.go:79-146 | from a card that gets built, and with no event after an error event: some schedule leaves Feed hanging exactly when, for some times of the events, the card after some prefix of them never gets built |
| Hanging.ShortAnswersNeverHang | internal/render/state.go:307-312 | when the emitted text stays within 20000 bytes no schedule hangs, whatever the encoder |
| Hanging.QuotedAnswersHang | internal/render/state.go:307-312 | with any encoder that escapes quotes, an emitted text of more than 20000 bytes that starts with 20000 quotes, without an error event, returns in no schedule and hangs in some |
| Hanging.FirstDeltaHangs | internal/render/renderer.go:130-143 | a concrete schedule: such a text in one delta is sent, Feed takes it, and the flush it forces never comes back |
| AgentLoop.Agent.Run | internal/agent/loop.go:77-209 | the loop with its session, store and emit effects computes exactly `AgentSpec.Run`; Redis holds the last history written and nothing else changed |
| RunTranscript.RunStartsWithInput | internal/agent/loop.go:85-92 | every run, in any world and with any outcome, appends the user's input, as it is and with nothing else, in front of all other messages, and no other message of a user |
| RunTranscript.InputIsStored | internal/agent/loop.go:85-92 | the first Save, if it gets through, stores the history with the input behind it, trimmed once, so that the input, cut to size, is the last message stored; if not, nothing is stored and the run is over |
| AgentLoop.Agent.Range | internal/agent/loop.go:110-201 | the range loop over one event channel stops where Run returns, with the specified effects |
| AgentLoop.Agent.Dispatch | internal/agent/loop.go:111-200 | the switch over one event |
| AgentLoop.Agent.OnEnd | internal/agent/loop.go:141-194 | the message-end branch: empty answers, saving, announcing, executing, writing back |
| AgentLoop.Agent.ExecTools | internal/agent/loop.go:222-249 | results come back in call order whatever order the goroutines finish in; one End event per goroutine in finishing order |
| AgentLoop.Agent.RunOne | internal/agent/loop.go:253-298 | one call as `AgentSpec.ExecOne` has it; what that gives the model is stated by `RunTranscript.RunReportsTools` |
| RunTranscript.RunReportsTools | internal/agent/loop.go:169-298 | in the transcript of every run, behind the n-th message that asks for tools and in the order of its calls: call i is reported with what call i of the n-th batch returned, as it is, and no error, exactly if the tool is known, the arguments are absent or JSON, and the call returns; an error for the user in its own words; an unknown tool, bad JSON, a failure or a panic as an error carrying the name, the JSON error, the error or the panic value; only an answer that could not be saved has no reports |
| AgentLoop.Agent.SaveSession | internal/agent/loop.go:300-305 | a Save trims the session in memory even when it fails |
| AgentLoop.AllSlotsWritten | internal/agent/loop.go:223-248 | once all goroutines are done every slot of the result slice holds its own result |
| AgentHistory.RunKeepsProtocol | internal/agent/loop.go:88-208 | on every return: unless a Save failed, the stored history equals the one in memory and the run's messages obey the tool protocol with matching ids and names in call order; if the user message could not be saved nothing was written; if an answer could not, what is stored is an earlier conforming history; if tool results could not, it is a conforming history with their calls behind it |
| AgentHistory.RunLeavesSoundExactly | internal/agent/loop.go:88-208 | whatever Saves fail, a run takes a history left by earlier appends and Saves to another such history, and to a window, exactly unless the Save of some tool results failed |
| SaveFaults.StrandsExactly | internal/agent/loop.go:141-196 | on tidy streams, a run ends at a failed Save of tool results exactly when the user message is saved and the first Save that fails is one of tool results, behind answers whose calls carry JSON |
| AgentHistory.ReplayIsSound | internal/agent/loop.go:88-208 | over any number of runs on one session, each continuing on what the one before left in the store: a sound history until a Save of tool results fails, and no window right after that |
| Unanswered.ReplayIsWindowExactly | internal/agent/loop.go:141-196 | over any number of runs on one session, whichever Saves fail in them, what is stored is a window exactly when every assistant message in it that asks for calls is followed by a result; a history whose results were lost is a window again as soon as the message that asks for them has been trimmed away, and not before |
| Unanswered.RequestsAreWindowsExactly | internal/agent/loop.go:93-98 | at every Stream call of a run on such a history, the messages sent are a window exactly when every call in them is followed by a result |
| Unanswered.ConformsExactly | internal/session/store.go:57-69 | a history obeys the tool protocol exactly when it does so but for calls left without results, and there are no such calls |
| AgentHistory.RequestsAreWindows | internal/agent/loop.go:93-98 | at every Stream call of a run the messages sent are orphaned tool results followed by a conforming history |
| AgentHistory.SoundIsWindow | internal/session/store.go:57-69 | a sound history is a window |
| AgentHistory.MalformedArgumentsEndTheRun | internal/agent/loop.go:157-160 | with the Redis store, calls whose arguments are not JSON end the run at the Save, before any tool is announced or executed |
| AgentHistory.FailedSaveStrandsCalls | internal/agent/loop.go:192-194 | if Redis is gone for the Save of tool results, the stored history ends in unanswered calls and is no window |
| AgentSteps.MaxStepsExactly | internal/agent/loop.go:93-208 | at most MaxSteps streams are opened, twelve if none is given; the step bound is reported exactly when all of them ended in tool calls and no Save failed |
| Outcomes.OutcomeTells | internal/agent/loop.go:93-208 | the outcome of any run tells how its streams went: a provider error exactly if the last event taken is an error event with that error, and no earlier event is one; a failed Stream call exactly if the last call failed, and no earlier one did; a message end finishes a run, finds the answer empty or cannot save; an argument delta is too much |
| AgentSteps.EmittedTextIsAssistantText | internal/agent/loop.go:110-165 | on nil or the step bound the emitted text is the concatenation of the appended assistant contents |
| AgentSteps.StepAppendsDirectFold | internal/agent/loop.go:110-157 | a step on an adapter stream whose fragments announce their calls under distinct ids aborts exactly when some call is over the cap, and otherwise, unless there are no calls and the content is blank, appends a message with the content of the chunks, their reasoning and one call per index with all of its arguments |
| AgentSteps.AdapterIsTidy | internal/llm/eino_adapter.go:97-110 | adapter streams have one terminator and it is last |
| Demux.DemuxEqualsDirectFold | internal/agent/loop.go:107-150 | for any chunks whose fragments, however interleaved, announce their calls under distinct ids, the two-stage pipeline yields the content of the chunks, their reasoning, and one call per index in first-appearance order with all its argument text; it gives up exactly when some call exceeds the cap |
| Demux.ClosingIgnored | internal/agent/loop.go:138-140 | the End events, whose order is the map's, never influence the message |
| AgentEvents.RunEmitsAccepted | internal/agent/loop.go:110-200 | every run emits a sequence of the grammar: Starts behind a message end, then one End per Start with the same id, all before the next step; at most one error event and it is last; nothing left open |
| Announcements.StartsAreSavedCalls | internal/agent/loop.go:152-191 | however a run ends, the Start events it emits are, in order and once each, exactly those of the calls in the messages it has appended, with their ids, names and the first 200 bytes of their arguments, but for the calls of a last answer that could not be saved |
| AgentEvents.RunLeavesNoPendingRow | internal/render/state.go:102-142 | after any run no card row is pending, rows have distinct ids, and the card is an error card exactly when an error event was sent |
| AgentEvents.BatchScans | internal/agent/loop.go:169-179 | one batch is in the grammar for every finishing order, also with repeated ids |
| AgentEvents.RowTellsOutcome | internal/agent/loop.go:233-244 | a row ends as success exactly when the tool message is no error, and otherwise shows the start of its content |
| ToolEnds.EndsReportResults | internal/agent/loop.go:230-246 | however a run ends, its End events are, batch after batch and within a batch in finishing order, one for each call: its id and name, "success" or the first 80 bytes of the error that its tool message reports, and its time; only a last answer that could not be saved has none |
| AgentEvents.CardShowsConsumedText | internal/agent/loop.go:112-117 | after any run, however it ended, the card holds all text deltas taken from the provider and the thinking before the first of them |
| EmissionProtocol.ErrorOnlyLast | internal/agent/loop.go:132-136 | an accepted sequence has at most one error event, at its end |
| EmissionProtocol.CardTracksOpen | internal/render/state.go:102-127 | rows without an end belong to calls that are still open |
| EinoAdapter.TranslateStream | internal/llm/eino_adapter.go:77-172 | the loop's output is a possible output for the chunks, only the map order of the closing Ends being open; what every such output says of the chunks is stated by the `ChunkStream` rows |
| ChunkStream.OutputCarriesChunks | internal/llm/eino_adapter.go:115-158 | for every output and however the stream ends: its text is the content of all chunks, its thinking their reasoning, and its Starts and Args, in order, are those their fragments call for: a Start when an id first has a name, and the arguments of a fragment whose id is known |
| ChunkStream.ChunkByChunk | internal/llm/eino_adapter.go:111-158 | each further chunk adds to what comes before the Ends a thinking delta if it has reasoning, then a text delta if it has content, then Starts and Args only; a nil chunk adds nothing |
| ChunkStream.TerminatorTells | internal/llm/eino_adapter.go:97-110 | the last event is, on EOF, a MessageEnd with the usage of the last chunk that reports one and the last finish reason that is not empty, and after another error that error |
| ChunkStream.OneEndPerIndex | internal/llm/eino_adapter.go:99-103 | on EOF the Ends are, as a multiset, one for every index the fragments mention (0 where none is given), with the first id and the first name that are not empty; otherwise there are none |
| EinoAdapter.Translation.OnFragment | internal/llm/eino_adapter.go:121-158 | one tool-call fragment: populate by index, start once id and name are known, pass arguments on once the id is known |
| EinoAdapter.Translation.CloseCalls | internal/llm/eino_adapter.go:101-103 | one End per index for every order in which the map yields them |
| StreamShape.OutputShape | internal/llm/types.go:83-89 | exactly one terminator, last; on EOF, behind all Starts and Args, as a multiset exactly one End per index with the first id and name seen, also when indices share an id |
| StreamShape.AtMostOneStartPerId | internal/llm/eino_adapter.go:138-146 | at most one Start per id, whatever the chunks |
| StreamShape.ArgsFromIdOn | internal/llm/eino_adapter.go:147-157 | the Args of an index are its argument text from the fragment on that brings the id; exactly the earlier part is lost |
| ChunkStream.StartBeforeArgsExactly | internal/llm/types.go:86-87 | the promised order Start before Args holds exactly when no fragment brings argument text for a known id that has no name yet |
| StreamShape.LateNameBreaksOrder | internal/llm/eino_adapter.go:138-157 | a name one fragment late breaks the promise |
| ChunkStream.ThinkingBeforeTextExactly | internal/llm/types.go:88-89 | thinking precedes text in the output exactly when no chunk with reasoning comes after one with content |
| SessionStore.TrimMessages | internal/session/store.go:57-69 | the in-place loop cuts every long content and keeps the last 40 messages |
| SessionStore.IteratedTrimIsOneWindow | internal/session/redis.go:48-49 | after any appends and Saves the history is a suffix of the full transcript, each message cut once per Save it has seen, and right after a Save exactly the last min(40, n) |
| SessionStore.SaveEqualsOneTrim | internal/session/redis.go:48-49 | after a Save roles, ids, names and calls are those of one trim of the transcript |
| SessionStore.TruncationStages | internal/session/store.go:59-64 | the exact content of a long message after one, two, and three or more Saves |
| SessionStore.TruncationKeepsHead | internal/session/store.go:59-64 | the first 20480 bytes survive any number of Saves and the length stays within the marker |
| SessionStore.TruncationStabilises | internal/session/store.go:59-64 | from the third Save on a content does not change |
| SessionStore.TruncationFixedPoints | internal/session/store.go:59-64 | exactly which contents a Save leaves alone |
| SessionStore.TwoSavesAreNotEnough | internal/session/store.go:59-64 | an overflow of five bytes settles only at the third Save |
| SessionStore.TrimStabilises | internal/session/store.go:57-69 | from the third application on TrimMessages is a fixed point |
| Digits.Itoa | internal/session/store.go:72-86 | the fill-and-reverse loop yields the decimal numeral; negative numbers give the empty string |
| Digits.NumeralUnique | internal/session/store.go:72-86 | a numeral without superfluous zeros is the one `Decimal` gives for its value |
| Digits.DecimalLength | internal/session/store.go:72-86 | a number has at most k digits exactly when it is below 10^k |
| Transcript.ConformsSuffix | internal/session/store.go:65-67 | dropping any number of oldest messages of a conforming history leaves a window |
| Transcript.TrimmedHistoryIsWindow | internal/session/store.go:57-69 | whatever appends and Saves produced it, the kept history of a conforming transcript is a window |
| Transcript.TrimKeepsWindow | internal/session/store.go:57-69 | trimming a window leaves a window |
| CardState.State.ApplyEvent | internal/render/state.go:80-142 | the state with its list and map of shared entries behaves as the pure card machine, and list and map keep describing the same distinct ids |
| CardState.State.StartTool | internal/render/state.go:102-115 | a repeated Start adds no row and reports no change |
| CardState.State.EndTool | internal/render/state.go:116-127 | an End for an unknown id changes nothing; otherwise exactly that row ends |
| CardState.State.SetDone | internal/render/state.go:145-150 | an error card stays one |
| CardState.State.SetError | internal/render/state.go:153-160 | the card becomes an error card with the message, or the generic one for a blank message |
| CardState.CardTextIsAllText | internal/render/state.go:82-101 | for every event sequence the text is all text deltas and the thinking is what precedes the first of them |
| CardState.RowsStayDistinct | internal/render/state.go:102-115 | no event sequence makes two rows with one id |
| CardState.RowsAreFirstStarts | internal/render/state.go:102-115 | on a card without rows, after any events: one row for each id that is started, in the order of the first Starts, with the name and the first 60 bytes of the preview of that Start |
| CardState.RowsTellLastEnd | internal/render/state.go:116-127 | on a card without rows, after any events: a row is running until an End of its id comes behind its Start, and then tells what the last of them said: success exactly without the error prefix, and otherwise the text behind the prefix, trimmed |
| CardState.IdleUntilStirred | internal/render/state.go:80-142 | an idle card stays idle exactly until the first thinking or text delta, Start or error |
| CardState.NoChangeIsInvisible | internal/render/state.go:78-142 | on any card, an Apply that reports no change leaves everything a card can show as it was exactly unless the event is a thinking delta on an idle card that has text or a repeated Start on a card that is not executing |
| CardState.RepeatedStartHidesError | internal/render/state.go:102-106 | on any card with rows: after an error event a repeated Start silently turns the error card back into a running one |
| Renderer.Loop.Feed | internal/render/renderer.go:116-146 | the event loop over any turns of the select statement, with its flush closure and patch outcomes |
| Renderer.Loop.DoFlush | internal/render/renderer.go:79-114 | a flush as the closure has it; when a body goes out and what becomes of the dirty flag is stated by `Renderer.PatchesExactly` |
| Renderer.PatchesExactly | internal/render/renderer.go:79-146 | at any turn of any run a patch with the body of the current card is tried exactly if the card can be encoded and either the channel or context ended, the first text, a tool end, an error or a message end arrived, or a tick finds the card dirty and the body other than the one that went out last; exactly if it gets through the body is sent and the card clean, otherwise the card is as dirty as before or dirty because of the event; exactly a refusal for too many requests sets the back-off |
| Renderer.EveryEventAppliedOnce | internal/render/renderer.go:116-146 | ticks, forced flushes and failing patches never lose, repeat or reorder an event |
| Renderer.DirtyFlagCoherence | internal/render/renderer.go:79-143 | from any consistent card and over every sequence of events, ticks and patch outcomes in which no event follows an error event: if the card is clean and has been patched, the last body that went out is that of the current card |
| Renderer.HiddenChangeIsStale | internal/render/renderer.go:79-143 | an event that hides a change on a clean card leaves the last body sent stale exactly when the change makes a difference to the body |
| Renderer.FinalPatchShowsFinalState | internal/render/renderer.go:124-128 | the patch at the close shows the final state even after an error |
| Renderer.BackOffStays | internal/render/renderer.go:99-107 | the back-off lasts for the rest of the run |
| CardSize.TrimIdempotent | internal/render/state.go:339-351 | cutting a long text twice is cutting it once |
| CardSize.RetryEndsExactly | internal/render/state.go:307-312 | the "retry once" recursion ends, then within two calls, exactly unless both the card and its cut form are too large and there is text to cut |
| CardSize.QuotedTextNeverEnds | internal/render/state.go:307-312 | with any encoder that escapes quotes, a text of more than 20000 bytes that starts with 20000 quotes never ends for any number of calls |
| CardSize.BuiltFits | internal/render/state.go:307-313 | the card finally encoded fits, or has nothing left to cut |
| CardSize.CardAndThreadsCoverText | internal/render/renderer.go:164-189 | the built card shows the whole text, or its first 20000 bytes and the marker, and the thread chunks are exactly the remainder |
| CardSize.BuiltCardShows | internal/render/state.go:307-351 | the recursion ends exactly under the condition on the two encodings, and then the encoded card shows no text if it is an error card, the whole text if the JSON of the whole card is within 25 KiB or the text within 20000 bytes, and otherwise the first 20000 bytes and the marker; an error card is laid out as before |
| LongBody.SplitLongBody | internal/render/renderer.go:164-189 | the loop that shrinks `rest` and appends chunks |
| LongBody.IndexByteFromEnd | internal/render/renderer.go:203-210 | the last index of a byte, or -1 |
| LongBody.ChunksLossless | internal/render/renderer.go:176-187 | the chunks concatenate to the rest, each non-empty and at most 18000 bytes |
| LongBody.ChunkEndsAtNewline | internal/render/renderer.go:177-181 | a chunk followed by another ends at the last newline that leaves it non-empty, or at 18000 bytes |
| LongBody.TwoCutsCoverChunk | internal/render/renderer.go:176-184 | two consecutive non-final chunks hold at least 18000 bytes together |
| LongBody.SplitIsLosslessAndShort | internal/render/renderer.go:164-189 | nothing is lost, and at most 2 * ((L - 20001) / 18000) + 1 replies are needed for L > 20000 bytes |
| LongBody.NaiveReplyBoundFails | internal/render/renderer.go:176-184 | one reply per 18000 bytes is not enough: 18002 bytes can take three, which meets the bound |
| Markdown.CleanupRenderedMarkdown | internal/render/markdown.go:118-129 | the line loop with its in-place writes computes the specified clean-up |
| Markdown.CleanupNormalForm | internal/render/markdown.go:118-129 | no line ends in a space or tab, no three newlines in a row, no outer white space |
| Markdown.CleanupFixedPoints | internal/render/markdown.go:118-129 | the normal forms are exactly the fixed points, so a second clean-up changes nothing |
| Markdown.CleanupKeepsInk | internal/render/markdown.go:118-129 | up to white space at the two ends every visible byte survives, in order |
| Markdown.CollapseRun | internal/render/markdown.go:127 | a run of newlines becomes at most two |
| Fallback.Downgrade | internal/render/markdown.go:64-95 | the line loop with its fence flag, for arbitrary table-separator and heading patterns |
| Fallback.DowngradeLineByLine | internal/render/markdown.go:68-95 | line by line: fences and fenced lines as they are; of the others a table rule goes, a heading becomes its text between double stars or an empty line, and any other line loses the spaces and tabs at its end and nothing else |
| Fallback.CodeBlocksSurvive | internal/render/markdown.go:68-95 | fences and the lines inside them come out verbatim and in order, and no fence is opened or closed |
| Fallback.NormalizedLines | internal/render/markdown.go:107-110 | after normalisation splitting at newlines yields the input's lines, whichever of the three line-end conventions it mixes |
| CodeBlocks.CleanupByLines | internal/render/markdown.go:118-129 | the clean-up of a text read line by line: trailing blanks, one of every two empty lines in a row between others, and leading and trailing white space go |
| CodeBlocks.CodeSurvivesExactly | internal/render/markdown.go:97 | the fences and the lines inside them survive the clean-up exactly when no fenced line ends in a blank, no two empty lines in a row stand inside a fence, a fence that comes first is not indented, and a fenced last line has no white space behind it, nor an open block further lines |
| CodeBlocks.MessageCodeSurvivesExactly | internal/render/markdown.go:55-98 | the code blocks of a message come out of line loop and clean-up together as they went in exactly when no fenced line of the message ends in a blank, no two empty lines in a row stand inside a fence of it with a line behind them, and of the lines the loop leaves, the first with anything on it is not an indented fence and the last, if it is fenced, is followed by no white space on it nor, in an open block, by further lines |
| CodeBlocks.CleanupCutsCodeLine | internal/render/markdown.go:97 | a code line between two fences that ends in a blank is changed |
| CodeBlocks.CleanupSqueezesCode | internal/render/markdown.go:97 | a code block with two empty lines in a row is changed |
| Limiter.CallbackLimiter.Allow | internal/oauth/server.go:330-369 | for clock readings in any order, the limiter with its in-place filtering and collection decides as the bucket functions say and keeps following them |
| Limiter.AllowedExactly | internal/oauth/server.go:354-368 | a call whose reading is not behind any other is allowed exactly when fewer than `burst` calls of that IP were allowed in the last window; collection never changes a decision |
| Limiter.CallbackLimiter.Collect | internal/oauth/server.go:336-352 | the collection pass filters every bucket, for every map order |
| Limiter.CallbackLimiter.KeepRecent | internal/oauth/server.go:354-361 | the filter that overwrites the slice from its front keeps exactly the recent entries |
| Limiter.NeverMoreThanBurst | internal/oauth/server.go:310-316 | for readings in any order, no interval as long as the window less the greatest lateness of a reading, wherever it lies, holds more than `burst` allowed calls of one IP; with readings in order that is the full window |
| Limiter.LateReadingBreaksWindow | internal/oauth/server.go:330-352 | the shortened interval is the best possible: for every burst from one on and every lateness up to the window there are calls with more than `burst` allowed in an interval one unit longer, the collection pass that another IP sets off having dropped the bucket |
| IsoDuration.ParseISODuration | internal/tool/builtin/datetime.go:95-138 | the scanner loop ends and returns the exact value wrapped to 64 bits, or an error where the grammar fails |
| IsoDuration.ParseAcceptsExactly | internal/tool/builtin/datetime.go:93-138 | accepted are exactly a P and day items, then optionally a T with hour, minute and second items and further Ts, of length at least two; the value is the sum of the items |
| IsoDuration.UnitLengths | internal/tool/builtin/datetime.go:121-133 | the units are the day before the T and hour, minute and second behind it, of 86400, 3600, 60 and 1 seconds, in nanoseconds |
| IsoDuration.ScanOfPrint | internal/tool/builtin/datetime.go:102-137 | parsing a printed duration gives it back |
| IsoDuration.Rfc3339DurationsParse | internal/tool/builtin/datetime.go:93-94 | every day or time duration of the grammar in Appendix A of RFC 3339 is accepted with its value |
| Registry.Registry.Register | internal/tool/registry.go:24-42 | a tool is added exactly if it has a name that is not taken and the MCP prefix marks exactly MCP tools, and refused with the first of the four reasons otherwise; names stay unique |
| Registry.Registry.List | internal/tool/registry.go:54-70 | collecting in map order and sorting yields the listing of the registered set |
| Registry.ListingUnique | internal/tool/registry.go:52-69 | there is only one listing of a set, so registration and map order do not matter |
| Registry.ListingOrder | internal/tool/registry.go:60-69 | in a listing built-in tools come before MCP tools, and within a source names ascend byte by byte |
| Registry.Registry.Available | internal/tool/registry.go:73-82 | the in-place filter yields the available tools in listing order |
| Registry.Registry.RemoveByPrefix | internal/tool/registry.go:87-95 | drops exactly the names with the prefix |
| Registry.FilterIsListing | internal/tool/registry.go:72-82 | a filtered listing is the listing of the filtered set |

## Where the code and its documentation disagree

The model follows the code in each of these places.

- Trimming drops single oldest messages, not pairs, so a history can start with tool results whose call is gone (`Transcript.ConformsSuffix`).
- The event contract in `internal/llm/types.go` promises Start before Args; this depends on when ids and names arrive (`ChunkStream.StartBeforeArgsExactly`).
- `BuildCardJSON` says it retries once; the recursion has no guard, and some answers keep it going for ever (`CardSize.RetryEndsExactly`, `CardSize.QuotedTextNeverEnds`); which runs that leaves hanging, and what the user then gets, is `TurnEnd.RunHangsExactly` and `TurnProtocol.QuotedAnswerIsLost`.
- `Apply` says its result tells whether a visible field changed; a repeated Start on an error card changes the phase and reports nothing (`CardState.NoChangeIsInvisible`). No run emits such a sequence (`TurnEnd.ShownIsCurrent`).
- The clean-up behind the line loop does not spare code blocks, although the loop does (`CodeBlocks.CodeSurvivesExactly`).
- The limiter reads the clock before it takes its mutex, so its bound holds for a shorter interval than the window when readings come late (`Limiter.NeverMoreThanBurst`).
- The tool layer answers arguments that are not JSON, but with the Redis store such a call never gets there (`AgentHistory.MalformedArgumentsEndTheRun`).
- A provider error event with a nil error makes `Run` return nil although the card shows an error (`TurnEnd.FinalCard`).

## Left out

- Cancellation of contexts: `Feed` can return on cancellation while the agent is still sending, so delivery is claimed only without it (`Renderer` has the cancelled turn, `Channel` does not).
- What becomes of a process whose recursion never ends: the model has the call that never returns, not the stack overflow that ends the process some time later. How many Saves the agent gets done behind a Feed that hangs is a parameter (`reached` in `Handler.Outside`).
- A crash between grant and release, and Redis requests that take effect but are reported as failed.
- The 24-hour time limit of sessions, timestamps, trace ids of stored sessions, and tool and stream timeouts.
- JSON encoding and decoding of sessions is the identity except that calls must carry JSON; that encoding compacts call arguments and replaces broken UTF-8 on reload is not modelled.
- Sharing of backing arrays between histories before and after trimming: `TrimMessages` works on a sequence value that it updates and returns.
- Concurrent tool calls are one finishing order per batch; data races inside tools and the mutex of the renderer are not modelled.
- In `Handler` the renderer runs after the agent; `Channel.ScheduleIsComplete` and `Channel.CompleteIsScheduled` show that this loses no interleaving of the two goroutines.
- An agent without a store, an agent without an emit function, and a nil event.
- The goldmark renderer, HTML stripping, emoji replacement and the regular expressions of the fallback renderer: library behaviour.
- The JSON behind `BuildCardJSON` (an arbitrary encoder that does not fail stands for it in the results about what is shown, an arbitrary builder that may fail elsewhere; `CardState.Layout` has the elements), the Markdown inside its elements, and the wording of command replies.
- Parsing of Lark events (message type, mention detection and stripping): the model starts from a `MessageEvent`.
- Lark SDK calls, OAuth code exchange, MCP transports, web tools, configuration and logging.
- TurnProtocol.HandleIsAProtocolTurn: relates one uninterrupted `Handle` to the protocol; other handlers between its steps are what `Turns` and `Serial` quantify over, one action at a time.
- Disorder.SerialisableExactly: only the order of the log counts as serial; a /clear between the grant of a turn and its Load has the effect of one before the grant, but is counted as an overlap.
- CodeBlocks.MessageCodeSurvivesExactly: starts behind the removal of HTML tags and entities, which can also change code.
