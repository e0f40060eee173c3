# Agentwire: a verified model

Agentwire bridges an IRC channel to a coding agent. This project models its protocol and state in
Dafny 4.11 and proves what the code promises over all inputs, all delivery orders, all poll
schedules and all interleavings. `dafny verify dfyconfig.toml` checks all of it.

Where the source updates state in place, the model is a class whose methods carry the source's
loops and are proved against a specification function; the properties are lemmas about that
function. Where several tasks race, the model is a transition system whose steps are the stretches
of code between two awaits, with store transactions as single steps; a step that is not enabled
changes nothing, and a theorem speaks of every sequence of steps.

| file | models |
|---|---|
| Common, Json, Base64, Utf8 | shared types; JSON values and rendering; RFC 4648; RFC 3629 |
| Text, TextLaws, Irc | line cleaning and cutting; tag escaping, the message line, the 350-byte split |
| Envelopes, Fragments | the protocol envelope and its strict reader; cutting an envelope into fragments |
| Reassembly, Delivery, Refusals | rebuilding envelopes under limits; the any-order theorem; what is refused, over any input |
| Actions, ActionResults, Serving, Outcomes | the durable life of an action: claim, queue, dispatch, finish, suspension, removal, restart; serial service; what the journal says of it |
| PromptQueue, Draining, DrainResults | the prompt table and its sequences; prompts, drains and rebinding |
| DrainOverlap, DrainOnce, DrainFlags | when two drains can meet; how often a prompt is delivered; who raised the busy flag |
| Coalescing | the timed rate limiter for observed status and subagent lists |
| HistoryChunks, HistoryPages, HistoryLaws | greedy packing; turn grouping, times and the cursor walk; what each message gives |
| TranscriptTail, TailDelivers | the incremental reader; what it delivers |
| Follow, FollowLaws | the follow state machine fed by it; what each entry means |
| Omp, OmpLaws | the strict in-order chunk decoder; what it takes and answers |
| ReferenceClient, ClientLaws | the client replica; what it shows, said of the events it received |

Three properties fail in the code as written, and are stated with their exact conditions:
`DrainOnce.SecondSendIff` (the comment at `src/agentwire/bridge.py:2184-2185` says that claiming
delivery keeps two dispatches of one queue head apart, but a turn event that clears the busy flag
under a drain, or attaching the same session again, lets a second drain send it, as does losing the
answer of the send), `Omp.RunConsistentIff` (a chunk that overflows its declared length is refused
but stays in the shared list, and `Omp.OverflowLeavesChunk` shows it in the frame answered later)
and `Text.SafeOneLineLimit` (limits below 4 bytes are exceeded by the dots). `Irc.TagsRoundTripIff`,
`ReferenceClient.OneEntryIff` and `ReferenceClient.ConvergesIff` are exact conditions of the same
kind. Where documentation and code differ, the model follows the code.

## Model

| member | source | states |
|---|---|---|
| Irc.UnescapeTag | src/agentwire/irc.py:90-104 | the loop over characters with its escaped flag computes the recursive unescaping, a trailing backslash kept |
| Irc.UnescapeEscaped | src/agentwire/irc.py:90-109 | unescaping undoes escaping for every string |
| Irc.UnescapeMeans | src/agentwire/irc.py:90-104 | an escape stands for the character it is written for, an unknown one for itself, and a backslash at the end is kept |
| Irc.EscapedHasNoDelimiter | src/agentwire/irc.py:107-109 | an escaped value holds no `;`, space, CR or LF, so it cannot end its tag or its block |
| Irc.TagWireSize | src/agentwire/protocol.py:401-409 | one count per escaped character plus the UTF-8 size is the UTF-8 size of the escaped value |
| Irc.EscapedSize | src/agentwire/protocol.py:401-409 | the same, as a law: escaping costs exactly one byte per escapable character |
| Irc.ParseIrcLine | src/agentwire/irc.py:116-135 | the parser with its dictionary and optional source computes the line function, empty lines an error |
| Irc.ReadPairs | src/agentwire/irc.py:121-123 | the loop over tag pairs: later keys win, a pair without `=` has no value |
| Irc.ReadRest | src/agentwire/irc.py:127-135 | command, parameters and trailing text; nothing left is an error |
| Irc.LineRoundTrip | src/agentwire/irc.py:112-135 | a line written from any legal tags or none, a source, any number of middle words, and text parses back to exactly these |
| Irc.EmptyIff | src/agentwire/irc.py:127-135 | a line is refused as empty exactly when nothing but spaces is left of it after tags and source |
| Irc.TagsRoundTripIff | src/agentwire/irc.py:112-123 | a tag block reads back as what was written exactly when there is at least one tag |
| Irc.ProtocolValueSurvives | src/agentwire/irc.py:689-691 | any protocol value written on its line is read off the line unchanged |
| Irc.SplitLogical | src/agentwire/irc.py:696-701 | the inner loop, which shrinks the encoded bytes of one logical line, computes its pieces, an empty last one replaced by a space |
| Irc.SplitText | src/agentwire/irc.py:692-701 | the outer loop over the logical lines of a text, an empty text being one empty line |
| Irc.LinesAreTheText | src/agentwire/irc.py:693 | the logical lines are the text without its line ends, in order, and none holds a line end |
| Irc.SplitTerminated | src/agentwire/irc.py:693 | lines that hold no line end, each followed by a line feed, split back into exactly these lines |
| Irc.AllSendable | src/agentwire/irc.py:692-701 | whatever the text, every line sent is 1 to 350 bytes long and holds no line end |
| Irc.SentIsTheText | src/agentwire/irc.py:692-701 | the lines sent concatenate to the logical lines, a blank one sent as a space |
| Irc.PieceIsFit | src/agentwire/irc.py:697-700 | a cut of more than 350 bytes takes the longest whole-character prefix, 347 to 350 bytes, so the loop ends |
| Irc.PiecesAreTheText | src/agentwire/irc.py:696-701 | pieces of a non-empty line concatenate to it, each 1 to 350 bytes, all but the last at least 347 |
| Text.TruncateIsLongest | src/agentwire/text.py:19-23 | truncate_utf8 returns a prefix, and a prefix fits exactly when it is no longer than that one |
| Text.SafeOneLineIsOneLine | src/agentwire/text.py:26-30 | the result is one line: no C0 controls and no DEL, words joined by single spaces |
| Text.SafeOneLineLimit | src/agentwire/text.py:26-30 | the byte limit holds for every text exactly when it is at least 4 |
| Text.SafeOneLineUnchanged | src/agentwire/text.py:26-30 | a line that is already clean and short enough is returned unchanged |
| TextLaws.WordsAreTokens | src/agentwire/text.py:27 | splitting gives, character by character, the runs that hold no space |
| TextLaws.CleanedWords | src/agentwire/text.py:12-16 | cleaning a text, stripping and line ends included, leaves the words of the text without its controls |
| TextLaws.PrintedPicks | src/agentwire/text.py:12-16 | these are its other characters, in order |
| TextLaws.SafeOneLineIs | src/agentwire/text.py:26-30 | for every text and limit the result is those words joined by single spaces if that fits, and else its longest prefix that leaves room for the dots, less a space at its end, and the dots |
| Utf8.RoundTrip | src/agentwire/text.py:20-23 | strict decoding undoes encoding, section 3 of RFC 3629 |
| Utf8.CutDecodes | src/agentwire/text.py:23 | bytes cut anywhere decode, dropping errors, to the longest whole-character prefix |
| Base64.RoundTrip | src/agentwire/backends/omp.py:77-83 | the lenient decoder undoes the encoder, section 4 of RFC 4648 |
| Base64.StripEncode | src/agentwire/protocol.py:495 | stripping `=` from encoded text leaves exactly the unpadded encoding |
| Base64.StrippedRoundTrip | src/agentwire/protocol.py:642-645 | unpadded base64url text with its padding restored decodes to the original bytes |
| Envelopes.DictRoundTrip | src/agentwire/protocol.py:208-292 | from_dict accepts what to_dict wrote exactly when the envelope is acceptable, and then returns the same envelope |
| Envelopes.TextRoundTrip | src/agentwire/protocol.py:382-398 | encoded text decodes to the same envelope exactly when the envelope is acceptable |
| Envelopes.FromDictIff | src/agentwire/protocol.py:228-292 | any object is read as an envelope exactly when it has no unknown field, its fields tell that envelope, and that is acceptable |
| Envelopes.DecodeIff | src/agentwire/protocol.py:382-398 | any text is read as an envelope exactly when it is not too long and parses to such an object |
| Json.WireIntegerIff | src/agentwire/protocol.py:549-558 | a value is read as an integer exactly if it is that integer, written as one or as a whole float |
| Fragments.FragmentRoundTrip | src/agentwire/protocol.py:504-518 | a fragment object is read back by the strict fragment reader exactly when the fragment is well formed |
| Fragments.ParsedIsBounded | src/agentwire/protocol.py:579-612 | whatever the reader accepts has 1 to 64 parts, an index in range and a size of 1 to 131072 |
| Fragments.ParsedIff | src/agentwire/protocol.py:579-612 | any object is read as a fragment exactly when it has no unknown field, tells that fragment, and that is well formed |
| Fragments.CompressedIff | src/agentwire/protocol.py:488-494 | bytes are sent compressed exactly when that makes fewer pieces |
| Fragments.SentFits | src/agentwire/protocol.py:499-526 | at most 64 values are sent, and each fits the budget it was cut for |
| Fragments.FailsIff | src/agentwire/protocol.py:478-526 | which error an envelope meets, if any: its size, the budget, the number of pieces, and last a piece that does not fit |
| Fragments.CutJoins | src/agentwire/protocol.py:496-498 | the chunks concatenate to the encoded payload |
| Fragments.CutCount | src/agentwire/protocol.py:496-500 | the number of chunks is the length over the chunk size, rounded up |
| Fragments.CountIsReal | src/agentwire/protocol.py:530-532 | the predicted fragment count equals the real number of chunks and is computed from the payload length |
| Fragments.FragmentEnvelope | src/agentwire/protocol.py:478-527 | the loop over chunks, with its errors on the way, returns the specified fragments, raw or compressed |
| Fragments.FragmentRaw | src/agentwire/protocol.py:487-527 | the choice between raw and compressed, and the limit of 64 fragments |
| Fragments.RenderAll | src/agentwire/protocol.py:503-527 | all rendered fragments in order, or the size error as soon as one does not fit |
| Fragments.FragmentSize | src/agentwire/protocol.py:504-525 | a rendered fragment takes at most 246 bytes plus chunk, epoch, kind and session id, for a 36-character id |
| Fragments.FragmentsAlwaysFit | src/agentwire/protocol.py:483-526 | when epoch, kind and session id total at most 114 plain characters, no budget raises the fragment size error |
| Fragments.PartsBound | src/agentwire/protocol.py:488-500 | the packing chosen never needs more parts than the raw bytes |
| Fragments.PartsAtDefault | src/agentwire/protocol.py:16-19 | at the default budget every envelope that encodes needs at most 48 parts |
| Fragments.DefaultNeverFails | src/agentwire/protocol.py:478-527 | so a modest envelope that encodes is always fragmented without error |
| Reassembly.Reassembler.Expire | src/agentwire/protocol.py:681-690 | removes exactly the messages 30 seconds old or older and says which |
| Reassembly.Reassembler.Add | src/agentwire/protocol.py:565-679 | new state and result of every call, errors included, are those of the step function |
| Reassembly.Reassembler.File | src/agentwire/protocol.py:613-649 | limits, metadata agreement, duplicates and completion are those of the step function, of which Refusals.RefusedIff and Refusals.FiledIff say what it refuses and stores |
| Reassembly.Reassembler.StoreChunk | src/agentwire/protocol.py:638-649 | a chunk is stored, and the last missing one takes the message out and joins it in order |
| Reassembly.Reassembler.TotalSize | src/agentwire/protocol.py:617 | the sum over stored messages, in whatever order they are visited |
| Reassembly.FullIffCount | src/agentwire/protocol.py:639-642 | as many in-range chunks as parts means every part is there, so joining them cannot miss one |
| Reassembly.FileKeepsSafe | src/agentwire/protocol.py:565-690 | one call on any input keeps the limits and does not exceed the memory budget |
| Reassembly.AlwaysSafe | src/agentwire/protocol.py:565-690 | with a clock that does not run backwards, after every call at most 16 messages are stored, each incomplete, in range, bounded and under 30 seconds old |
| Reassembly.LimitsHold | src/agentwire/protocol.py:615-618 | hence declared sizes never total more than 2 MiB |
| Reassembly.BudgetNeverExceeded | src/agentwire/protocol.py:617-618 | and the memory budget error is unreachable, whatever texts arrive |
| Refusals.RefusedIff | src/agentwire/protocol.py:622-638 | a fragment for a stored, unexpired message is refused, and the message dropped, exactly when its header, or its chunk for a stored part, differs |
| Refusals.NewRefusedIff | src/agentwire/protocol.py:613-618 | the first fragment of a message is refused exactly when sixteen are under way, and then changes nothing |
| Refusals.FiledIff | src/agentwire/protocol.py:638-649 | a fragment that is not refused adds its chunk, and completes the message exactly when every other part was stored |
| Refusals.OthersStay | src/agentwire/protocol.py:565-649 | no message is touched but the expired ones and the fragment's own |
| Refusals.FirstChunkStays | src/agentwire/protocol.py:635-638 | over any inputs a part keeps the chunk it first arrived with for as long as its message stays stored |
| Refusals.PieceIff | src/agentwire/protocol.py:565-612 | any text is taken as a fragment exactly when it parses to an object that says so and is one |
| Refusals.WholeIff | src/agentwire/protocol.py:569-578 | and answered at once as an envelope exactly when it parses to an object that does not and is an envelope |
| Refusals.RebuiltIff | src/agentwire/protocol.py:642-679 | whatever text was joined: an envelope is answered exactly when the text unpacks to bytes of the declared size and digest that decode to it, and its fields agree with the fragments' |
| Delivery.FragmentedIsReadable | src/agentwire/protocol.py:478-527 | every value fragment_envelope makes is read back as the fragment (or whole envelope) it was made from |
| Delivery.FragmentedRebuilds | src/agentwire/protocol.py:642-679 | the joined chunks of one envelope rebuild exactly that envelope, through base64url, zlib, checksum, UTF-8 and JSON |
| Delivery.AnyOrder | src/agentwire/protocol.py:565-679 | under any lawful order, interleaving and repetition a call returns nothing, except the one with the last missing part, which returns exactly that envelope |
| Delivery.PrefixLawful | src/agentwire/protocol.py:565-679 | every prefix of a lawful schedule is lawful, so AnyOrder speaks of every call in it |
| Delivery.EnvelopesSurvive | src/agentwire/protocol.py:478-679 | the same from envelopes: what fragment_envelope cuts for any budget, any lawful delivery puts together |
| Delivery.NothingLeftBehind | src/agentwire/protocol.py:640-649 | when every message has arrived whole, the reassembler stores nothing |
| Delivery.LinesCarryValues | src/agentwire/irc.py:689-691 | a value read off its IRC line makes the reassembler take the same step as the value sent |
| Omp.StrictDecodeIff | src/agentwire/backends/omp.py:77-83 | chunk data is accepted exactly when it is what the encoder writes for some bytes, and then as these bytes |
| Omp.FrameDecoder.Call | src/agentwire/backends/omp.py:38-53 | every call returns or raises, and leaves pending, as the step function says |
| Omp.FrameDecoder.FileChunk | src/agentwire/backends/omp.py:86-115 | filing a chunk, including the shared chunk list that keeps an overflowing chunk |
| Omp.FileConsistentIff | src/agentwire/backends/omp.py:86-115 | from agreement of counters and stored chunks, filing a chunk keeps it exactly when the chunk does not overflow, and refuses it as too long exactly when it does |
| Omp.StepConsistentIff | src/agentwire/backends/omp.py:38-115 | the same for any line: every other line, errors included, keeps the agreement |
| Omp.RunConsistentIff | src/agentwire/backends/omp.py:38-115 | over any run, errors included, counters and chunks agree after every line exactly when no line overflows its sequence |
| Omp.StepKeepsConsistent | src/agentwire/backends/omp.py:38-115 | a call that does not raise keeps index, count, byte total and declared length in agreement with the stored chunks |
| Omp.RunStaysConsistent | src/agentwire/backends/omp.py:38-115 | the same over any run of lines without an error |
| Omp.OverflowLeavesChunk | src/agentwire/backends/omp.py:98-115 | when an overflowing chunk comes before the right one, it is refused, yet the frame answered at the end has its bytes in it |
| Omp.OverflowExample | src/agentwire/backends/omp.py:98-101 | such a chunk: 301 bytes where 300 of a declared 600 were still to come |
| Omp.SplitRoundTrip | src/agentwire/backends/omp.py:38-115 | any split within the limits answers nothing until its last line, then the original frame, and nothing stays pending |
| OmpLaws.ReadChunkIff | src/agentwire/backends/omp.py:54-85 | any object is taken as a chunk exactly when its fields tell that chunk, within all limits |
| OmpLaws.RefusedIff | src/agentwire/backends/omp.py:86-115 | a chunk that is not the next of its sequence, or the first of a new one, is refused and changes nothing unless it overflows; the next one is added |
| OmpLaws.PlainLine | src/agentwire/backends/omp.py:38-53 | a whole frame is answered exactly if no sequence is under way, which it leaves as it is |
| OmpLaws.OtherLine | src/agentwire/backends/omp.py:38-85 | a line that carries no chunk within the limits leaves the sequence as it was, and answers at most itself |
| OmpLaws.AlwaysMade | src/agentwire/backends/omp.py:86-115 | over any run without an overflow what is pending are the chunks 0, 1, 2 and so on of one sequence, from lines that came in this order |
| OmpLaws.AnswerWasSent | src/agentwire/backends/omp.py:38-115 | over any run without an overflow a frame is answered only if it is on the line itself, or if lines that came carry, in order, all chunks of one sequence of its declared length |
| ActionResults.InvHolds | src/agentwire/bridge.py:593-1121 | every reachable state keeps custody of claimed rows, dispatch counts, object numbers and provenance |
| ActionResults.DispatchedAtMostOnce | src/agentwire/bridge.py:947-1121 | over every interleaving, cancellation and restart, a mutation whose row was not deleted reaches a handler at most once |
| ActionResults.DispatchedOnlyWhenCurrent | src/agentwire/bridge.py:1064-1080 | and only while the runtime and the activation captured at ingress were in force, and the bridge open |
| ActionResults.ClaimsAreConserved | src/agentwire/bridge.py:980-1121 | an accepted row has exactly one holder (ingress task, queue slot, worker or drain) or was abandoned by a cancelled one, never both; other rows have none |
| ActionResults.TerminalIsFinal | src/agentwire/state.py:370-375 | a terminal status never changes again although the UPDATE is unconditional, and is not written twice in a run |
| ActionResults.SettledAtMostOnce | src/agentwire/state.py:370-375 | between restarts at most one terminal status is written for a row, and an accepted row has none |
| ActionResults.OnlyHoldersFinish | src/agentwire/state.py:370-375 | no step writes a row that nobody holds |
| ActionResults.BeforeExecutionNeverRan | src/agentwire/bridge.py:1082-1084 | a row that failed before execution never reached a handler; the converse is Outcomes.RowTellsWhetherRan |
| ActionResults.RestartSettlesLeftovers | src/agentwire/state.py:271-278 | restart turns exactly the rows still held or abandoned into uncertain ones, and only expired rows go |
| ActionResults.StaleForever | src/agentwire/bridge.py:1069-1080 | a descriptor that stops being current never becomes so again, also after reinstall under the same name |
| ActionResults.NewActionIsQueued | src/agentwire/bridge.py:947-1062 | uninterrupted, the three stretches of ingress claim a new mutation on an active channel and put it at the tail of the queue |
| ActionResults.HeadIsRun | src/agentwire/bridge.py:593-625 | uninterrupted, an idle worker runs a current head to its outcome, recorded in the journal |
| Outcomes.RowTellsWhetherRan | src/agentwire/bridge.py:593-625 | over every run, a retained settled row that no restart gave up says that a handler ran exactly when one was called, once, and that none ran exactly when none was |
| Outcomes.NeverRan | src/agentwire/bridge.py:593-604 | over every run, a row whose mutation was called for zero times is accepted, failed before execution, or uncertain by a restart |
| Outcomes.OutcomeIsTheHandlers | src/agentwire/bridge.py:1086-1121 | a row that says a handler ran holds an outcome its handler ended with, at some moment of the run |
| Outcomes.OutcomeStands | src/agentwire/bridge.py:1086-1121 | from then on, over any run, that outcome is on its way to the row, in the row, or lost with its worker to a restart, and never another |
| Outcomes.RowGetsVerdict | src/agentwire/state.py:370-375 | each write, of a rejection, refusal, outcome or drain, puts its own verdict in its row, and no other step but a restart touches a row |
| Outcomes.IngressIff | src/agentwire/bridge.py:947-979 | an action is captured exactly while the bridge is open and its channel active, with the runtime and the activation of that moment |
| Outcomes.ClaimedIff | src/agentwire/state.py:350-368 | a claim is taken exactly when the journal has no row for the id |
| Outcomes.EnqueuedIff | src/agentwire/bridge.py:1038-1062 | in every reachable state a row goes to the tail of its channel queue exactly when its descriptor is current, and else is rejected |
| Outcomes.TopicTakesEffect | src/agentwire/bridge.py:774-829 | no descriptor captured before a topic is current after it; the channel is active afterwards exactly when the whole marker is valid, and else its queue is drained, unless it was inactive and the topic has no marker |
| Outcomes.DrainTakesOrEnds | src/agentwire/bridge.py:1323-1336 | a drain takes the next descriptor that waits, or is over, and a removal then forgets its channel |
| Outcomes.DrainsFor | src/agentwire/bridge.py:272-275 | removal and closing drain the queue of the present runtime, each for its own reason |
| Outcomes.TakenIff | src/agentwire/bridge.py:593-616 | an idle worker takes the head that waits and calls its handler exactly while the bridge is open and the channel has the runtime and the owner activation captured at ingress |
| Outcomes.WorkerStartsIff | src/agentwire/bridge.py:261-266 | a queue gets a worker exactly if it has none |
| Outcomes.WorkerComesBack | src/agentwire/bridge.py:593-625 | whatever a worker does, its own next steps bring it back to its queue |
| Outcomes.DrainFailsAll | src/agentwire/bridge.py:1323-1336 | left alone, a drain gives exactly the mutations that wait its reason, and is over; a removal has then forgotten its channel |
| Outcomes.ClosedForGood | src/agentwire/bridge.py:593-625 | a closed bridge captures nothing and calls no handler, whatever happens short of a restart |
| Outcomes.SuspensionStops | src/agentwire/bridge.py:774-777 | suspending a channel leaves no descriptor of it in force and touches no other channel |
| Outcomes.InstalledIsNew | src/agentwire/bridge.py:246-259 | in every reachable state installing a channel changes nothing if it is there, and else makes a runtime that no earlier descriptor is for |
| Outcomes.RestartLeaves | src/agentwire/state.py:271-278 | a restart leaves the journal and nothing else |
| Serving.OneAtATime | src/agentwire/bridge.py:261-266 | over every interleaving, while a handler of a channel queue runs no other handler of it runs or is called |
| Serving.CalledInQueueOrder | src/agentwire/bridge.py:593-616 | over every interleaving, the handler calls of a queue are what was taken from it, in queue order, less what was refused or drained |
| Serving.ServingHolds | src/agentwire/bridge.py:593-625 | in every reachable state a queue has one worker at most |
| Actions.SettleStep | src/agentwire/bridge.py:1086-1121 | recording an outcome keeps the ledger of holders, dispatches and terminal writes |
| Actions.DrainNextStep | src/agentwire/bridge.py:1323-1336 | a drain taking the next descriptor, or ending and removing the channel, keeps the ledger |
| Actions.TakeStep | src/agentwire/bridge.py:593-616 | a worker taking a head, dispatching or refusing it, keeps the ledger |
| Actions.EnqueueStep | src/agentwire/bridge.py:1038-1062 | queueing after the announcement hands the row from the task to the slot |
| Actions.ClaimStep | src/agentwire/state.py:350-368 | a claim inserts the row once and gives it to the ingress task |
| PromptQueue.QueueStore.SetPosition | src/agentwire/state.py:490-496 | one row of an UPDATE succeeds exactly when no other row of the queue sits at the position |
| PromptQueue.QueueStore.List | src/agentwire/state.py:441-447 | reading rows by position yields the sequence the table stands for |
| PromptQueue.QueueStore.Enqueue | src/agentwire/state.py:449-464 | appends at the tail under the limit; otherwise an error and no change |
| PromptQueue.QueueStore.Edit | src/agentwire/state.py:466-473 | changes one text, or returns None for an unknown id |
| PromptQueue.QueueStore.Move | src/agentwire/state.py:475-497 | removes and reinserts at the clamped index; unknown ids and queues too long to park fail and change nothing |
| PromptQueue.QueueStore.Park | src/agentwire/state.py:490-494 | parking the rows one by one meets a taken position exactly when the queue has more than 1000000 rows |
| PromptQueue.QueueStore.Renumber | src/agentwire/state.py:495-496 | rewriting positions in the new order never meets a taken one |
| PromptQueue.QueueStore.CloseUp | src/agentwire/state.py:508-513 | the shift after a deletion, in ascending order, never meets a taken position |
| PromptQueue.QueueStore.Delete | src/agentwire/state.py:499-514 | removes one item and returns its row, or returns None |
| PromptQueue.QueueStore.Clear | src/agentwire/state.py:516-521 | empties one queue and returns how many rows it had |
| PromptQueue.Replaced | src/agentwire/state.py:441-521 | a statement on one queue leaves every other queue as it was and the table consistent |
| PromptQueue.RepresentsOne | src/agentwire/state.py:441-447 | the rows determine the sequences |
| PromptQueue.ParkingStep | src/agentwire/state.py:490-494 | at every intermediate row of the park no two rows of the queue share a position |
| PromptQueue.RenumberingStep | src/agentwire/state.py:495-496 | nor at any intermediate row of the rewrite |
| PromptQueue.ClosingStep | src/agentwire/state.py:508-513 | nor at any intermediate row of the delete shift |
| PromptQueue.MovedIff | src/agentwire/state.py:483-489 | a queue is the result of a move exactly when the item is at the clamped index and the others are unchanged in order |
| PromptQueue.MoveBack | src/agentwire/state.py:475-497 | moving the item back to its old index undoes the move |
| PromptQueue.EditedIff | src/agentwire/state.py:466-473 | a queue is the result of an edit exactly when the item has the new text and nothing else differs |
| PromptQueue.WithoutIff | src/agentwire/state.py:499-514 | and of a deletion exactly when the item is gone and the others are there in order |
| PromptQueue.ClampIs | src/agentwire/state.py:483-487 | a wanted index is the nearest one the queue has |
| PromptQueue.OrderStands | src/agentwire/state.py:441-521 | over any run that neither moves nor removes two prompts, their order stands |
| PromptQueue.OthersUntouched | src/agentwire/state.py:441-521 | an operation changes no queue but the one it names |
| DrainResults.PromptsAreConserved | src/agentwire/bridge.py:1765-1803 | over all interleavings every queued prompt is still stored where it was queued, or was accepted for that session, or was removed on request |
| DrainResults.AcceptedWhereQueued | src/agentwire/bridge.py:2172-2216 | a backend accepts from a queue only prompts queued for that very session |
| DrainResults.StoredWhereQueued | src/agentwire/bridge.py:1791-1797 | a prompt is stored under no other channel or session than it was queued under |
| DrainResults.OutlivedIsHarmless | src/agentwire/bridge.py:2187-2206 | however long a drain outlives its binding, none of its steps changes any busy flag or turn |
| DrainResults.OutlivedForGood | src/agentwire/bridge.py:2187-2206 | a drain that lost its binding never has it again, also when the same session is attached anew |
| DrainOverlap.StepGuards | src/agentwire/bridge.py:2172-2206 | with one drain of a queue at most and its busy flag up, a step keeps it so exactly when it does not free the queue under the drain: a turn event clearing the flag, or attaching the session without it |
| DrainOverlap.DrainsExclude | src/agentwire/bridge.py:2184-2187 | over any run from the start without such a step for a queue, at most one drain works on that queue at any time |
| DrainOverlap.GuardedIff | src/agentwire/bridge.py:2184-2187 | the guarded states are exactly those from which drains of the queue never meet in a run without such a step |
| DrainOnce.StepOnce | src/agentwire/bridge.py:2172-2206 | short of freeing the queue under its drain, and of losing an answer for a prompt still stored, every step keeps what rules out a second delivery |
| DrainOnce.DeliveredOnce | src/agentwire/bridge.py:2172-2206 | so over any run without either for the queue, each of its prompts is accepted once at most |
| DrainOnce.SecondSendIff | src/agentwire/bridge.py:838-850 | while a drain delivers a stored prompt, a step can be followed by a second delivery, without another such step, exactly when it is one of the two |
| DrainOnce.OneDeliveryFails | src/agentwire/bridge.py:1985-1997 | and for every queue such a drain is reached from the start, where a turn event, attaching the session again, and a lost answer each lead to a second delivery |
| DrainResults.RunKeeps | src/agentwire/bridge.py:2172-2216 | the invariant behind these holds in every reachable state; what drains owe the busy flag is in the rows of DrainFlags |
| DrainFlags.DrainLowersIff | src/agentwire/bridge.py:2187-2206 | no step of a drain raises a flag, and one lowers a flag exactly when the drain ends before a backend accepted, its binding in place: its runtime's |
| DrainFlags.EndedIsFree | src/agentwire/bridge.py:2189-2206 | so a drain that ends with nothing delivered leaves its runtime free |
| DrainFlags.FlagIsAccounted | src/agentwire/bridge.py:2184-2206 | over every run a raised flag was raised by a turn event or an attach, or by a drain that is still at work or whose prompt was accepted, and stood ever since |
| DrainFlags.StartsIff | src/agentwire/bridge.py:2172-2187 | a drain starts exactly on an active, bound, idle channel whose session is not being closed |
| DrainFlags.HandsOverIff | src/agentwire/bridge.py:2189-2200 | what a drain read is handed to the backend exactly if the channel is still as the drain found it |
| DrainFlags.InstalledIsNew | src/agentwire/bridge.py:246-259 | a removed channel has no drain; installed again it has a runtime that no drain captured, idle and unbound |
| DrainFlags.AnswerIsTheTurn | src/agentwire/bridge.py:2200-2202 | the turn a backend answers becomes the runtime's exactly while the binding is in place |
| DrainFlags.EntersIff | src/agentwire/bridge.py:1765-1803 | a prompt for a bound, busy channel sets out for the queue of the session bound there, and none for an idle one |
| DrainFlags.CommitsIff | src/agentwire/bridge.py:1791-1797 | it reaches the tail of that queue exactly when there is room |
| Draining.StoredAfter | src/agentwire/state.py:441-521 | a store operation adds only what it was given and takes out only what it names |
| Coalescing.Coalescer.Offer | src/agentwire/bridge.py:2376-2404 | an offer is dropped, replaces, cancels, waits or is sent as the step function says |
| Coalescing.Coalescer.Fire | src/agentwire/bridge.py:2406-2416 | a flush sends what waits |
| Coalescing.Coalescer.Reset | src/agentwire/bridge.py:2417-2422 | rebinding cancels what waits and forgets what was sent |
| Coalescing.RunAgrees | src/agentwire/bridge.py:2357-2484 | at every moment of every timed run the state agrees with the history of offers and sends |
| Coalescing.NewestWins | src/agentwire/bridge.py:2377-2403 | the visible payload is always the newest offer |
| Coalescing.SendsAreSpacedOffers | src/agentwire/bridge.py:2377-2416 | sent payloads are a subsequence of the offers, no two neighbours equal, consecutive sends at least the window apart |
| Coalescing.OneFlush | src/agentwire/bridge.py:2384-2402 | one flush sleeps for a key exactly when a payload waits, due when the window closes |
| Coalescing.FlushDelivers | src/agentwire/bridge.py:2406-2416 | once due, that flush sends the newest offer |
| Coalescing.SentAtOnceIff | src/agentwire/bridge.py:2377-2404 | over any timed run an offer is sent by that very call exactly when nothing waits, it is not what was offered last, and no send since the last reset lies less than the window before |
| Coalescing.HeldIff | src/agentwire/bridge.py:2393-2402 | with nothing waiting, it is held exactly when it is new and such a send does lie less than the window before |
| Coalescing.NewFlushIsLater | src/agentwire/bridge.py:2393-2402 | a new flush comes from an offer and is due when the window closes, later than the offer |
| Coalescing.FlushSleepsOn | src/agentwire/bridge.py:2384-2392 | a flush is cancelled only by an offer of what was sent last, or by a reset, and keeps its deadline until it wakes |
| Coalescing.WaitsIff | src/agentwire/bridge.py:2377-2380 | a payload waits exactly when the newest offer is not the last send |
| HistoryChunks.PackHistory | src/agentwire/bridge.py:1529-1550 | the loop computes the greedy packing |
| HistoryChunks.FirstIsLongest | src/agentwire/bridge.py:1542-1547 | a prefix is within the first chunk exactly when it could be a chunk |
| HistoryChunks.PackedIsValid | src/agentwire/bridge.py:1529-1550 | chunks concatenate to the input, none is empty, each is a singleton or at most 96 KiB |
| HistoryChunks.PackedIsOptimal | src/agentwire/bridge.py:1529-1550 | no other split in order that meets the rule uses fewer chunks |
| HistoryPages.TurnIds | src/agentwire/backends/claude.py:1195-1204 | the loop gives each message the turn of the latest prompt |
| HistoryPages.TurnIsLatestPrompt | src/agentwire/backends/claude.py:1195-1204 | a prompt opens its own turn, any other message continues the one before |
| HistoryPages.MessageTimes | src/agentwire/backends/claude.py:1206-1230 | the loop computes recorded or spaced times, clamped forward |
| HistoryPages.TimesIncrease | src/agentwire/backends/claude.py:1222-1230 | message times strictly increase |
| HistoryPages.ListHistory | src/agentwire/backends/claude.py:1150-1193 | one page: cursor, window, grouping, times and clamped events, bad cursors an error |
| HistoryPages.CollectEvents | src/agentwire/backends/claude.py:1172-1189 | the loop over the page window, with last-of-turn looked up in a dictionary |
| HistoryPages.LastOfTurn | src/agentwire/backends/claude.py:1170 | the dictionary holds each turn at exactly its last message |
| HistoryPages.CursorRoundTrip | src/agentwire/backends/claude.py:1156-1161 | a cursor reads back as the offset it was made from |
| HistoryPages.NextCursorReadsBack | src/agentwire/backends/claude.py:1190-1193 | the next page starts exactly where this one ended |
| HistoryPages.WalkIsAll | src/agentwire/backends/claude.py:1165-1193 | following cursors from any offset terminates and yields every earlier message once, in order |
| HistoryPages.WalkIsFullPage | src/agentwire/backends/claude.py:1150-1193 | for any limits of at least 1, the pages put oldest first are the one full page |
| HistoryPages.EventsInWindow | src/agentwire/backends/claude.py:1171-1189 | every event time lies in its own message window |
| HistoryPages.PagesAreDisjoint | src/agentwire/backends/claude.py:1173-1175 | every event of an older page comes before every event of a newer one |
| HistoryPages.OneStartPerTurn | src/agentwire/backends/claude.py:1168-1187 | however a turn is split, exactly one message starts it: its prompt, the first of the turn |
| HistoryLaws.TimeIff | src/agentwire/backends/claude.py:1206-1230 | a message has its recorded time, or its spaced one, exactly unless that is not later than the one before, and then the next |
| HistoryLaws.MessageGives | src/agentwire/backends/claude.py:1287-1424 | which events a message gives, in order: a prompt, its results, or its text and calls, and the end of its turn |
| HistoryLaws.ToolsAreCalls | src/agentwire/backends/claude.py:1331-1390 | the calls of a message are its tool uses with an id, in order |
| HistoryLaws.CallsGiveEvents | src/agentwire/backends/claude.py:1331-1390 | each call gives one event, in order, each later than the one before; a plan is progress |
| HistoryLaws.ResultsGiveEvents | src/agentwire/backends/claude.py:1392-1424 | each result with an id gives one event, in order, at its place in the message |
| HistoryLaws.DoneAtIff | src/agentwire/backends/claude.py:1168-1187 | a turn is reported done exactly by its last message, once, unless that is the last of all and the session is busy |
| HistoryLaws.DoneIff | src/agentwire/backends/claude.py:1176-1187 | and there it is the last event |
| HistoryLaws.StampKeeps | src/agentwire/backends/claude.py:1172-1189 | an event keeps the time it was given, unless that is none, or beyond the window |
| HistoryLaws.StartedAtIff | src/agentwire/backends/claude.py:1168-1187 | a turn is reported started exactly by a prompt whose turn the message before is not in |
| HistoryLaws.CursorIff | src/agentwire/backends/claude.py:1156-1161 | a cursor is taken exactly when it is digits and not empty |
| TranscriptTail.TranscriptTailer.Read | src/agentwire/backends/claude_follow.py:56-97 | offset, inode, seen set and delivered entries after any poll are those of the step function |
| TranscriptTail.TranscriptTailer.ReadLines | src/agentwire/backends/claude_follow.py:81-97 | the loop drops blank, malformed and repeated lines and remembers uuids, as the step function does; TailDelivers.ScanPicks says which lines those leave |
| TranscriptTail.LinesAppend | src/agentwire/backends/claude_follow.py:75-82 | complete lines followed by more text split as they would alone |
| TranscriptTail.AlwaysCaught | src/agentwire/backends/claude_follow.py:56-97 | for an append-only file and any poll times, what was delivered is one scan up to the offset |
| TranscriptTail.PollsEqualScan | src/agentwire/backends/claude_follow.py:56-97 | after any polls, a poll that reads the file leaves delivered exactly one scan of the bytes it could see |
| TranscriptTail.NeverTwice | src/agentwire/backends/claude_follow.py:12-25 | no uuid is delivered twice, across truncation, replacement and deletion too |
| TailDelivers.ScanPicks | src/agentwire/backends/claude_follow.py:81-97 | one scan delivers, in order, exactly the objects of the complete lines that have no uuid or whose uuid no earlier object has |
| TailDelivers.PollsPick | src/agentwire/backends/claude_follow.py:56-97 | whatever polls went before, a poll that reads an append-only file leaves delivered exactly these |
| TailDelivers.PollPicks | src/agentwire/backends/claude_follow.py:56-97 | any poll of any file reads on where the reader was, or from the top of a file that was replaced or has shrunk, and delivers these of the lines complete from there on, relative to what is known |
| TailDelivers.TextOfLines | src/agentwire/backends/claude_follow.py:75-82 | a complete text is its lines put together again, each with its newline, and none holds one |
| TailDelivers.CompleteIff | src/agentwire/backends/claude_follow.py:75-80 | the complete part of a text ends with its last newline, or is empty if it has none |
| TailDelivers.HoldsIff | src/agentwire/backends/claude_follow.py:82-90 | a line holds an entry exactly when it is not blank and parses to an object |
| Follow.Session.FollowOne | src/agentwire/backends/claude.py:644-668 | one entry: which kinds are dropped, and what the others do to the session |
| Follow.Session.FollowUserEntry | src/agentwire/backends/claude.py:670-739 | tool results, interruptions, commands and prompts |
| Follow.Session.FollowAssistantEntry | src/agentwire/backends/claude.py:741-800 | text, its completion of the turn, and tool calls |
| Follow.Session.FollowBoundary | src/agentwire/backends/claude.py:802-817 | closes the open turn once |
| Follow.Session.CloseTools | src/agentwire/backends/claude.py:675-704 | the loop over results, hidden tools closed silently |
| Follow.Session.OpenTools | src/agentwire/backends/claude.py:776-800 | the loop over calls, plans replaced by progress when they changed |
| Follow.TurnsAlternate | src/agentwire/backends/claude.py:644-817 | from a fresh session turn_started and turn_done alternate with matching ids, and every event carries the turn it lies in |
| FollowLaws.TurnIff | src/agentwire/backends/claude.py:644-817 | a prompt opens a turn; an interruption, a concluding reply or a turn marker ends the open one; any other entry leaves it; the last reply is the last text that narrates no call |
| FollowLaws.UserEvents | src/agentwire/backends/claude.py:670-739 | a user entry gives its results' events, or, if no card closes, what its text means |
| FollowLaws.AssistantEvents | src/agentwire/backends/claude.py:741-800 | an agent's entry gives its text, the end of the turn it concludes, and its calls |
| FollowLaws.SystemEvents | src/agentwire/backends/claude.py:644-668 | a system entry only ends the open turn, and only as a turn marker |
| FollowLaws.EntryWithout | src/agentwire/backends/claude.py:644-668 | entries of side chains, of other kinds, and meta or compacted ones change nothing |
| FollowLaws.ResultsClose | src/agentwire/backends/claude.py:675-704 | each result of a tool that is not hidden closes its card with one event, in order |
| FollowLaws.CallsOpen | src/agentwire/backends/claude.py:776-800 | each call opens its card with one event, in order; a plan is hidden, and reported exactly when it changed |
| Follow.SessionFollows | src/agentwire/backends/claude.py:644-817 | from any state, over any entries, events continue the turn of the state |
| Follow.EventsAreScheduleIndependent | src/agentwire/backends/claude.py:635-642 | the live events of an append-only transcript do not depend on when it was polled |
| ReferenceClient.HarnessState.ApplyAny | src/agentwire/reference_client.py:62-100 | every event, and every history chunk up to a malformed entry, changes the fields as the step function says |
| ReferenceClient.HarnessState.ApplyEvent | src/agentwire/reference_client.py:62-200 | one event of any kind but a chunk |
| ReferenceClient.HarnessState.TakeSnapshot | src/agentwire/reference_client.py:71-86 | a channel snapshot replaces the live fields, and the timeline when the session differs |
| ReferenceClient.HarnessState.Select | src/agentwire/reference_client.py:72-82 | another session than before starts an empty timeline |
| ReferenceClient.HarnessState.Greet | src/agentwire/reference_client.py:65-70 | a hello of another epoch forgets which events were applied |
| ReferenceClient.HarnessState.Rebind | src/agentwire/reference_client.py:101-108 | a binding change selects the session and resets the timeline |
| ReferenceClient.HarnessState.UpdateLive | src/agentwire/reference_client.py:139-148 | live turns, plans, subagents and requests of the bound session |
| ReferenceClient.HarnessState.UpdateQueue | src/agentwire/reference_client.py:272-277 | an item event drops the entries of its id, then appends its payload and sorts, unless it removes; a snapshot replaces the queue |
| ReferenceClient.StableSortIff | src/agentwire/reference_client.py:277 | the sort is the one list ordered by position that has the same items at every position in the same order |
| ReferenceClient.QueueItemCounts | src/agentwire/reference_client.py:272-277 | after an item event every entry of another id is there as often as before, and the payload once more |
| ReferenceClient.OneEntryIff | src/agentwire/reference_client.py:272-277 | after a removal no entry has the id; after any other item event exactly one has, if and only if the payload names the id, and else none |
| ReferenceClient.HarnessState.TakeOutputs | src/agentwire/reference_client.py:128-138 | outputs of a session snapshot with the last position of each identity |
| ReferenceClient.HarnessState.CompleteAssistant | src/agentwire/reference_client.py:149-159 | an output is applied once, at its position or at the end |
| ReferenceClient.HarnessState.UpdateTool | src/agentwire/reference_client.py:166-182 | a tool card merges newer data, and history never lowers its stage |
| ReferenceClient.HarnessState.MergeReceipt | src/agentwire/reference_client.py:109-123 | a receipt replaces one of no higher rank |
| ReferenceClient.ForeignChangesOnlyReceipts | src/agentwire/reference_client.py:202-240 | once bound, an event of another session changes nothing but receipts, unless it rebinds |
| ReferenceClient.HistoryLeavesLiveState | src/agentwire/reference_client.py:87-100 | any history chunk leaves binding, live fields and receipts alone and lowers no tool stage |
| ReferenceClient.ReplayIsNoOp | src/agentwire/reference_client.py:242-249 | a chunk applied before, at once or after any events that do not rebind, is a no-op |
| ReferenceClient.SettledChunkIsNoOp | src/agentwire/reference_client.py:87-100 | a chunk whose output and tool ids were all applied is a no-op |
| ReferenceClient.RunKeepsInjective | src/agentwire/reference_client.py:128-159 | over any run output positions stay an injection into the list |
| ReferenceClient.RunFolds | src/agentwire/reference_client.py:109-123 | whatever else arrives, an action receipt is the fold of its own live receipt events |
| ReferenceClient.FoldIsLatestOfHighest | src/agentwire/reference_client.py:219-234 | the stored receipt is the latest one of the highest rank received |
| ReferenceClient.StoredRankIsHighest | src/agentwire/reference_client.py:219-234 | so its rank ends at the maximum received |
| ReferenceClient.RankNeverFalls | src/agentwire/reference_client.py:219-234 | no event lowers a stored rank |
| ReferenceClient.ConvergesIff | src/agentwire/reference_client.py:219-234 | the final status is the same for every order and duplication of the receipts exactly when the terminal ones among them, if any, agree |
| ClientLaws.LatestTurnStands | src/agentwire/reference_client.py:139-148 | over any run the client is busy with the turn of the latest live turn event of its session, if that started one |
| ClientLaws.LatestPlanStands | src/agentwire/reference_client.py:160-161 | and shows the latest live plan |
| ClientLaws.LatestAgentsStand | src/agentwire/reference_client.py:162-165 | and the latest live subagents |
| ClientLaws.LatestRequestStands | src/agentwire/reference_client.py:183-196 | and a request, with the data it was opened with, exactly when the latest live event on it opened it |
| ClientLaws.SnapshotShows | src/agentwire/reference_client.py:71-86 | what a snapshot says is shown; only another session than before empties the timeline and the plan |
| ClientLaws.BindingChangeClears | src/agentwire/reference_client.py:101-108 | a binding change empties turn, plan and timeline and keeps the rest |
| ClientLaws.HelloGreets | src/agentwire/reference_client.py:65-70 | a hello makes the channel active; one of another epoch forgets which events were applied |
| ClientLaws.SessionStateMerges | src/agentwire/reference_client.py:124-138 | settings are merged, and the busy flag is kept when none is told |
| ClientLaws.OutputsReplace | src/agentwire/reference_client.py:128-138 | outputs of a snapshot replace those shown, each identity found at its last place |
| ClientLaws.OutputLands | src/agentwire/reference_client.py:149-159 | an output not applied before is shown at the place of its identity, or at the end if it has none yet |
| ClientLaws.ShownIsData | src/agentwire/reference_client.py:149-159 | its data is shown as it came, with the item the event names unless the data names one |
| ClientLaws.ToolLands | src/agentwire/reference_client.py:166-182 | a tool event not applied before merges its data into its card, unless history is behind the card |
| ClientLaws.QueueFollows | src/agentwire/reference_client.py:197-200 | queue events of the session shown, of none, or before any is shown decide the queue; others leave it |
| ClientLaws.RankOrder | src/agentwire/reference_client.py:226-234 | no receipt ranks below an unknown status, that below acceptance, and that below any outcome |
| ClientLaws.ReceiptInIff | src/agentwire/reference_client.py:109-123 | receipts are those of live action events that reply to an action, and of live status events that name one |
| ClientLaws.ChunkApplies | src/agentwire/reference_client.py:87-100 | a chunk applies its entries in order, up to the first that does not belong, where it stops with an error |
| ClientLaws.CompletedReplaces | src/agentwire/reference_client.py:124-159 | an output completed after a snapshot that shows it replaces it where it is, and nothing is shown twice |
| ClientLaws.StrangersLeave | src/agentwire/reference_client.py:202-207 | an event of another session than shown, if any is, is not even remembered, so that it can be applied later |
| ClientLaws.ItemKeysIff | src/agentwire/reference_client.py:251-267 | two events speak of one output or tool exactly when session, turn and item agree |
| ClientLaws.RemovedIsGone | src/agentwire/reference_client.py:272-277 | the entries of an item go with an event that names it, or else whose data does |
| ClientLaws.TextOfIff | src/agentwire/reference_client.py:71-86 | a field is read as a text exactly if it is that text, or another value that counts and is written so |
| ClientLaws.FlagIff | src/agentwire/reference_client.py:71-86 | a flag is raised by every value but null, false, zero and what is empty |

## Left out

- DrainResults.PromptsAreConserved: does not bound how often a prompt is delivered, because drains may overlap and a lost answer is followed by another send; DrainOnce.DeliveredOnce and DrainOnce.SecondSendIff say when.
- DrainResults.AcceptedWhereQueued: speaks of queued prompts; those sent or steered at once, while the session is idle or steering, appear only as changes of flag and turn.
- ActionResults.DispatchedAtMostOnce: says nothing of rows the 30-day sweep deleted, whose ids may be claimed afresh.
- ActionResults.NewActionIsQueued: one script of three uninterrupted stretches; what holds under interleaving is ActionResults.ClaimsAreConserved and Serving.CalledInQueueOrder.
- ActionResults.HeadIsRun: one script of three uninterrupted stretches; what holds under interleaving is Serving.OneAtATime and Serving.CalledInQueueOrder.
- Outcomes.DrainFailsAll: one uninterrupted script; what holds under interleaving is Outcomes.RowGetsVerdict and ActionResults.ClaimsAreConserved.
- OmpLaws.AnswerWasSent: says nothing of a run in which a chunk overflowed; Omp.OverflowLeavesChunk shows what may come of it.
- Serving.OneAtATime: a worker that was cancelled may be started again for the same queue, which the bridge does not do.
- DrainOnce.SecondSendIff: says nothing of a prompt no longer stored or of a closed bridge.
- Delivery.AnyOrder: a lawful schedule has no delivery after its message is complete and none 30 seconds after its first; a late repeat starts a new message that later expires.
- Coalescing.SendsAreSpacedOffers: assumes a sleeping task never wakes before its deadline; the event loop may fire within its clock resolution.
- TranscriptTail.PollsEqualScan: an in-place rewrite that keeps the inode and does not shrink the file is outside it, as the tailer documents.
- ReferenceClient.HarnessState.ApplyAny: payload fields of the wrong JSON type, for which Python raises TypeError, count as empty.
- ReferenceClient.HarnessState.UpdateQueue: queue entries that are not objects stay in place instead of raising, and a position is read by a parameter.
- Envelopes.DictRoundTrip: the check of kind-specific data and of UUID syntax are parameters.
- JSON parsing, zlib, SHA-256, UUID generation and secret scanning are parameters; each theorem names the values it relies on. Fragment rendering is concrete, other JSON text is not.
- Text is a sequence of Unicode scalar values: lone surrogates, and upper-casing beyond ASCII, are not part of the model; the decimal test of a cursor knows ASCII digits only.
- The bridge's concurrency is modelled on values, as transition systems over the stretches between awaits; update in place and aliasing of its runtime objects appear only as identities and serial numbers.
- A store write that is cancelled is done or not done; a thread that finishes a cancelled write later is covered by the order of write and cancellation, database failures are not.
- The journal's read-only actions, the status queue, sync, device and epoch checks only reduce what reaches the queue and are left out.
- Expired message ids are a set, without the order in which expiry reports them.
- Follow reads entries through a view of the transcript line; field lookups on the raw JSON, tool labels, outputs and the staleness test after attaching are left out.
- HistoryPages takes the visible text and the blocks of a message as given; event ids, tool data and texts carried by events are left out.
- Queue rows of one UPDATE are changed in ascending position order; SQLite promises no order.
- Topic parsing, configuration, diagnostics validation, voice, the control socket, sockets, TLS and SASL, and the other backends are easier members or input and output.
- Memory held by fragment text is not bounded by the reassembler; only declared sizes are.
- The order of the client's queue against the store's is not compared: the client does not renumber on removal.
