# ADK Go examples, modelled in Dafny

This project models the example programs of the Go documentation of the Agent
Development Kit (ADK): the custom agents, tools, callbacks and driver loops that
the documentation's Go snippets build on top of the ADK runtime. Every example
is a small program of its own: a tool that looks something up, a callback that
edits a model request, a loop that drains a runner's event stream and prints
what the agent said, or a custom agent that runs other agents in stages. The
model follows the source file by file, one Dafny module per example file, plus
a few shared modules:

- `Wrappers`: `Option`, `Result`, and `Outcome`, where `Crash` stands for a Go panic.
- `Text`: the parts of Go's `strings` and `strconv` packages the examples call.
- `Values`: the `any` values stored in session state and tool arguments. It also holds `StateStore`, a state whose writes an oracle may refuse.
- `Genai`: parts, contents, model requests and responses, events and their actions.
- `Workflow`: the runtime's sequential, loop and parallel agents, state deltas and output keys. These are stated as reference definitions that the examples rely on; they are not verified runtime code.
- `ArtifactStore` and `Sessions`: the artifact and session services as the examples use them.

Code that changes state in place is modelled as imperative Dafny:

- the session, artifact and state stores;
- request editing in callbacks;
- the loops that scan parts or drain event streams.

Each method is proved against a specification function, and the properties the
examples promise are proved about those functions as lemmas. Pure tools and
branching are modelled as functions.

Everything outside the example code becomes a parameter or an oracle. This
covers the model behind an agent, the runner's event stream, and the consumer
of a yielded stream, which is the number of items it accepts.

Several example files carry their own copy of the same helper: `isFinalResponse`,
`textParts`, and the loop that prints each event's first part. Such a helper is
modelled once, and the table cites one copy. The other copies are the following:

- `textParts` in examples/go/snippets/tools/overview/weather_sentiment/weather_sentiment.go:227-237
  and examples/go/snippets/sessions/memory_example/memory_example.go:181-191;
- `isFinalResponse` in examples/go/snippets/tools/overview/weather_sentiment/weather_sentiment.go:185-193;
- `run` in examples/go/snippets/tools-custom/weather_sentiment/main.go:119-139.

## Model

| member | source | states |
|---|---|---|
| Workflow.PassBound | examples/go/snippets/agents/multi-agent/main.go:72-73 | one loop pass runs each child at most once, and every child when none escalates |
| Workflow.LoopBound | examples/go/snippets/agents/multi-agent/main.go:68-73 | a loop agent makes at most MaxIterations × children runs, and exactly that many when nothing escalates |
| Workflow.LoopStateFollowsEvents | examples/go/snippets/agents/multi-agent/main.go:309-311 | the state a loop agent ends in is its start state with the deltas of its own events applied in order |
| Workflow.PassStateFollowsEvents | examples/go/snippets/agents/multi-agent/main.go:309-311 | the same for a single pass |
| Workflow.RunParallel | examples/go/snippets/agents/multi-agent/main.go:36-43 | a parallel agent without children yields nothing (every branch starting from the same state is stated by MultiAgent.GatherBoth) |
| Workflow.OutputKeyRecorded | examples/go/snippets/agents/multi-agent/main.go:24 | after an agent with an output key runs, the key holds its answer |
| Workflow.SequentialHandsOver | examples/go/snippets/agents/multi-agent/main.go:27-30 | in a two-step sequential agent the second step starts from the state the first left behind; both run once |
| Workflow.StepThenLoop | examples/go/snippets/agents/workflow-agents/loop/main.go:133-153 | in a sequential agent of a step and a loop agent, the step runs once, first, and the loop starts from the state the step left |
| MultiAgent.CheckerStatus | examples/go/snippets/agents/multi-agent/main.go:54-59 | the status the Checker compares is the stored value, or "pending" when the key is missing |
| MultiAgent.Checker | examples/go/snippets/agents/multi-agent/main.go:52-61 | the Checker yields one event, authored "Checker", that escalates if and only if the status is "completed", and changes no state |
| MultiAgent.StopChecker | examples/go/snippets/agents/multi-agent/main.go:294-303 | the StopChecker yields one event that escalates if and only if quality_status is "pass", and changes no state |
| MultiAgent.PollerBounded | examples/go/snippets/agents/multi-agent/main.go:66-73 | whatever the processing step does, the configured poller runs its two children at most 20 times in all, and exactly 20 times when nothing escalates |
| MultiAgent.PollerStopsOnCompleted | examples/go/snippets/agents/multi-agent/main.go:72-73 | when the processing step leaves the status "completed", the poller stops after those two runs, escalated |
| MultiAgent.PollerRunsAllIterations | examples/go/snippets/agents/multi-agent/main.go:72-73 | when no processing run ever completes the status or escalates, a loop of n iterations never escalates and makes exactly 2n child runs |
| MultiAgent.RefinementBounded | examples/go/snippets/agents/multi-agent/main.go:280-308 | whatever the refiner and the quality checker answer, the configured loop runs its three children at most 15 times in all, and exactly 15 times when the StopChecker never sees "pass" |
| MultiAgent.RefinementStopsOnPass | examples/go/snippets/agents/multi-agent/main.go:309-311 | when the quality checker answers "pass" in the first iteration, the loop escalates after three runs |
| MultiAgent.CityInfoHandsOver | examples/go/snippets/agents/multi-agent/main.go:97-104 | AgentB starts from a state whose capital_city holds AgentA's answer |
| MultiAgent.GatherBoth | examples/go/snippets/agents/multi-agent/main.go:206-211 | both parallel fetchers answer from the same starting state, so neither sees the other's result |
| MultiAgent.GatheredState | examples/go/snippets/agents/multi-agent/main.go:218 | after the gatherer, the state holds both fetchers' results under their output keys |
| MultiAgent.FetchAndSynthesize | examples/go/snippets/agents/multi-agent/main.go:215-219 | the synthesizer after the gatherer starts from a state holding api1_data and api2_data |
| StoryFlow.NewStoryFlowAgent | examples/go/snippets/agents/custom-agent/storyflow_agent.go:33-75 | a loop-constructor error and a sequential-constructor error are returned wrapped, in that order of precedence; on success the agent is "StoryFlowAgent" with the generator, a 2-iteration CriticReviserLoop and the PostProcessing pipeline as children |
| StoryFlow.Drain | examples/go/snippets/agents/custom-agent/storyflow_agent.go:84-92 | the for-range loop over a sub-agent stream yields exactly what Forward describes and says whether Run may go on |
| StoryFlow.Run | examples/go/snippets/agents/custom-agent/storyflow_agent.go:81-145 | Run yields the items and starts the stages given by the stage-by-stage specification |
| StoryFlow.BeforeStopAccepted | examples/go/snippets/agents/custom-agent/storyflow_agent.go:84-92 | every item before the stopping point is an event the consumer accepts |
| StoryFlow.StopAtFacts | examples/go/snippets/agents/custom-agent/storyflow_agent.go:84-92 | forwarding stops at the first error or the first refused event, and runs to the end of an error-free stream the consumer takes whole |
| StoryFlow.ForwardClosed | examples/go/snippets/agents/custom-agent/storyflow_agent.go:84-92 | closed form of one stage: the events before the stopping point pass unchanged, the item there is yielded (an error wrapped) and Run stops |
| StoryFlow.ForwardAll | examples/go/snippets/agents/custom-agent/storyflow_agent.go:84-92 | an error-free stream to a willing consumer is forwarded whole and Run goes on |
| StoryFlow.ForwardStopsAtError | examples/go/snippets/agents/custom-agent/storyflow_agent.go:85-88 | the first error is yielded once, wrapped, after the events before it, and Run stops |
| StoryFlow.ForwardConsumerStop | examples/go/snippets/agents/custom-agent/storyflow_agent.go:89-91 | when yield returns false, the refused event was the last one yielded and Run stops |
| StoryFlow.StagesInOrder | examples/go/snippets/agents/custom-agent/storyflow_agent.go:81-145 | the stages started are a non-empty prefix of generate, revise, post-process, regenerate |
| StoryFlow.StageShape | examples/go/snippets/agents/custom-agent/storyflow_agent.go:84-92 | a stage never shrinks what was yielded, and when Run goes on nothing yielded so far is an error |
| StoryFlow.ErrorIsLastAndWrapped | examples/go/snippets/agents/custom-agent/storyflow_agent.go:85-88 | only the last yielded item can be an error, and it carries the prefix of the last stage started |
| StoryFlow.GeneratorErrorStops | examples/go/snippets/agents/custom-agent/storyflow_agent.go:84-92 | a generator error ends Run after the events before it plus "story generator failed: ..." |
| StoryFlow.LoopErrorStops | examples/go/snippets/agents/custom-agent/storyflow_agent.go:102-110 | a loop error after a clean first stage ends Run with "loop agent failed: ..." and post-processing never starts |
| StoryFlow.ConsumerStopEndsRun | examples/go/snippets/agents/custom-agent/storyflow_agent.go:89-91 | a consumer that stops during the first stage ends Run there |
| StoryFlow.NoStoryStops | examples/go/snippets/agents/custom-agent/storyflow_agent.go:94-99 | a missing or empty current_story ends Run after the first stage, with no error yielded |
| StoryFlow.RegeneratesIffNegative | examples/go/snippets/agents/custom-agent/storyflow_agent.go:123-143 | the generator runs again if and only if the first three stages completed and tone_check_result is the string "negative" |
| StoryFlow.HappyPath | examples/go/snippets/agents/custom-agent/storyflow_agent.go:81-145 | with clean streams, a willing consumer and a story, every event of every stage is yielded in stage order; the fourth stage runs exactly on a negative tone |
| StoryFlow.OtherToneKeepsStory | examples/go/snippets/agents/custom-agent/storyflow_agent.go:130-143 | any tone value other than the string "negative" keeps the current story |
| LoopWorkflow.ExitLoop | examples/go/snippets/agents/workflow-agents/loop/main.go:37-41 | the exitLoop tool sets the escalate action, touches no other action and returns an empty result |
| LoopWorkflow.PipelineOrder | examples/go/snippets/agents/workflow-agents/loop/main.go:133-153 | whatever its agents answer, the configured pipeline yields the initial writer's events first and then those of the critic/refiner loop, which starts from the state the writer left |
| LoopWorkflow.WritingLoopBounded | examples/go/snippets/agents/workflow-agents/loop/main.go:133-145 | whatever the critic and the refiner answer, the configured loop runs them at most 10 times in all, and exactly 10 times when neither escalates |
| LoopWorkflow.RefinerExitStopsLoop | examples/go/snippets/agents/workflow-agents/loop/main.go:120-138 | when the refiner calls exitLoop in the first iteration, the loop escalates after two child runs, and its events are the critic's followed by the refiner's |
| LoopWorkflow.EventReports | examples/go/snippets/agents/workflow-agents/loop/main.go:195-209 | the counter goes up on each critique only; a refinement line is printed exactly for a non-escalating RefinerAgent event; the termination notice is printed exactly when the event escalates |
| LoopWorkflow.ConcatTexts | examples/go/snippets/agents/workflow-agents/loop/main.go:189-192 | the loop's result is the concatenation of the part texts, left to right |
| LoopWorkflow.ReportEvent | examples/go/snippets/agents/workflow-agents/loop/main.go:195-209 | the author switch and the escalation notice print what EventReports describes and return the new counter |
| LoopWorkflow.RunAgent | examples/go/snippets/agents/workflow-agents/loop/main.go:180-212 | the event loop ends as the specification function Process describes: finished, with a wrapped error, or with a panic on an event without content |
| LoopWorkflow.IterationsCountCritiques | examples/go/snippets/agents/workflow-agents/loop/main.go:198-200 | when runAgent finishes, its iteration counter equals the number of CriticAgent events |
| LoopWorkflow.ReportsOnlyGrow | examples/go/snippets/agents/workflow-agents/loop/main.go:182-210 | whatever way runAgent ends, the lines printed before are kept, in order |
| LoopWorkflow.ErrorAborts | examples/go/snippets/agents/workflow-agents/loop/main.go:185-187 | the first error in the stream ends runAgent with "error during agent execution: " and that error, whatever follows |
| CustomerSupportOverview.UrgencyIgnoresCase | examples/go/snippets/tools/overview/customer_support_agent/customer_support_agent.go:52 | the urgency test gives the same answer on an upper-cased query |
| CustomerSupportOverview.QueryIsUrgent | examples/go/snippets/tools/overview/customer_support_agent/customer_support_agent.go:131 | the query the driver sends first is urgent |
| CustomerSupportOverview.CheckAndTransfer | examples/go/snippets/tools/overview/customer_support_agent/customer_support_agent.go:51-64 | an urgent query sets the transfer target to support_agent and answers "transferring"; any other query leaves the actions alone and answers "processed" with the query quoted |
| CustomerSupportOverview.LastTransferKeeps | examples/go/snippets/tools/overview/customer_support_agent/customer_support_agent.go:144-146 | a round in which no event sets a transfer target leaves the target as it was |
| CustomerSupportOverview.LastTransferIsLast | examples/go/snippets/tools/overview/customer_support_agent/customer_support_agent.go:144-146 | the target after a round is the one set by the last event that set one |
| CustomerSupportOverview.ScanItem | examples/go/snippets/tools/overview/customer_support_agent/customer_support_agent.go:140-149 | one event: errors are skipped; a non-empty transfer target replaces the current one; the first part's text is printed when there is one |
| CustomerSupportOverview.ScanRound | examples/go/snippets/tools/overview/customer_support_agent/customer_support_agent.go:138-150 | one round returns the last transfer target set and prints the first-part texts of its events in order |
| CustomerSupportOverview.DriveStops | examples/go/snippets/tools/overview/customer_support_agent/customer_support_agent.go:152-166 | a round whose target is not support_agent is the last one |
| CustomerSupportOverview.DriveContinues | examples/go/snippets/tools/overview/customer_support_agent/customer_support_agent.go:152-163 | a round whose target is support_agent is followed by a round on the support agent with the hand-off message |
| CustomerSupportOverview.Drive | examples/go/snippets/tools/overview/customer_support_agent/customer_support_agent.go:131-167 | the driver starts main_agent on the urgent query and runs the rounds the specification DriveFrom describes |
| CustomerSupportOverview.RunRounds | examples/go/snippets/tools/overview/customer_support_agent/customer_support_agent.go:137-167 | the outer for-loop runs exactly the rounds DriveFrom describes, with their printed lines |
| CustomerSupportOverview.DriveRounds | examples/go/snippets/tools/overview/customer_support_agent/customer_support_agent.go:135-163 | the first round is the given agent and message, every later round is support_agent with the hand-off message, and there is at most one round per stream |
| CustomerSupportOverview.DriveContinuesIffTransfer | examples/go/snippets/tools/overview/customer_support_agent/customer_support_agent.go:152-166 | another round starts exactly when the round before ended with support_agent as its target; the driver stops early only after a round that did not |
| CustomerSupportOverview.DrivePrintsRounds | examples/go/snippets/tools/overview/customer_support_agent/customer_support_agent.go:147-149 | the printed lines are those of the rounds that ran, in order |
| CustomerSupportCustom.CheckAndTransfer | examples/go/snippets/tools-custom/customer_support_agent/main.go:27-34 | an urgent query sets the transfer target to support_agent and its status is the transfer message; otherwise the status quotes the query and the actions are unchanged |
| CustomerSupportCustom.StatusesDiffer | examples/go/snippets/tools-custom/customer_support_agent/main.go:31-33 | the urgent status never equals a "processed" status, whatever the query |
| LongRunning.CreateTicket | examples/go/snippets/tools/function-tools/long-running-tool/long_running_tool.go:34-38 | no contract of its own: the immediate answer is the constant "started", whatever the urgency |
| LongRunning.PartsCaptureConcat | examples/go/snippets/tools/function-tools/long-running-tool/long_running_tool.go:89-95 | scanning two runs of parts one after the other is the same as scanning them joined, so the ID kept across events is that of the whole turn |
| LongRunning.PartsCaptureKeeps | examples/go/snippets/tools/function-tools/long-running-tool/long_running_tool.go:89-95 | parts without a create_ticket_long_running call leave the stored ID as it was |
| LongRunning.PartsCaptureIsLast | examples/go/snippets/tools/function-tools/long-running-tool/long_running_tool.go:89-95 | the stored ID is that of the last create_ticket_long_running call among the parts |
| LongRunning.ScanParts | examples/go/snippets/tools/function-tools/long-running-tool/long_running_tool.go:89-95 | the inner loop over one event's parts stores what PartsCapture describes |
| LongRunning.RunTurn | examples/go/snippets/tools/function-tools/long-running-tool/long_running_tool.go:74-102 | runTurn returns the stored ID or "" and prints the errors it skips, or panics on an event without content, as TurnSpec describes |
| LongRunning.TurnReturnsLastCall | examples/go/snippets/tools/function-tools/long-running-tool/long_running_tool.go:74-102 | when every event has content, runTurn does not panic and returns the ID of the last ticket call over all the turn's parts, or "" when there is none |
| LongRunning.NoCallNoID | examples/go/snippets/tools/function-tools/long-running-tool/long_running_tool.go:98-101 | a turn without a ticket call returns "" |
| LongRunning.RunProtocol | examples/go/snippets/tools/function-tools/long-running-tool/long_running_tool.go:104-166 | main's three turns produce what ProtocolSpec describes; the two resumptions share one willContinue variable, which reads false once the third turn is prepared |
| LongRunning.ProtocolShape | examples/go/snippets/tools/function-tools/long-running-tool/long_running_tool.go:122-164 | without a call ID from turn 1 the program stops fatally before sending anything; otherwise it sends two responses to the captured call with the same ticket, "pending" with more to come and then "approved" as the final one |
| CallbackTypes.OnBeforeAgent | examples/go/snippets/callbacks/types_of_callbacks/main.go:32-45 | the agent is skipped, with one model-role text part, exactly when skip_llm_agent is stored as the boolean true |
| CallbackTypes.OnlyBooleanTrueSkips | examples/go/snippets/callbacks/types_of_callbacks/main.go:35 | any other value under skip_llm_agent, such as the string "true", lets the agent run |
| CallbackTypes.OnAfterAgent | examples/go/snippets/callbacks/types_of_callbacks/main.go:84-107 | a run error is passed through; otherwise the output is replaced by the concluding note exactly when add_concluding_note is the boolean true |
| CallbackTypes.PrefixInstruction | examples/go/snippets/callbacks/types_of_callbacks/main.go:147-156 | a present system instruction gets the prefix on its first part's text, or a single prefix part when it has none; an absent one stays absent |
| CallbackTypes.OnBeforeModel | examples/go/snippets/callbacks/types_of_callbacks/main.go:143-175 | the system instruction is prefixed in place and the contents are unchanged; the call is blocked, with the fixed model reply, exactly when some part's upper-cased text contains "BLOCK" |
| CallbackTypes.Replacement | examples/go/snippets/callbacks/types_of_callbacks/main.go:237-245 | the intended replacer turns every match into "Funny story" or "funny story" |
| CallbackTypes.NoMatchUnchanged | examples/go/snippets/callbacks/types_of_callbacks/main.go:230-233 | a text without a whole-word, case-insensitive "joke" is left as it is |
| CallbackTypes.AsciiMatchesAgree | examples/go/snippets/callbacks/types_of_callbacks/main.go:237-245 | for a match spelled with ASCII letters the replacer as written and the intended one agree |
| CallbackTypes.KelvinJokeKept | examples/go/snippets/callbacks/types_of_callbacks/main.go:229-245 | "jo" + U+212A + "e" is a match of the pattern, yet the replacer as written hands it back unchanged |
| CallbackTypes.CorrectedRewritesEveryMatch | examples/go/snippets/callbacks/types_of_callbacks/main.go:237-245 | the intended rewrite turns the Kelvin-sign spelling into "funny story" and "Joke" into "Funny story" |
| CallbackTypes.OnAfterModel | examples/go/snippets/callbacks/types_of_callbacks/main.go:210-249 | an error passes through; a missing or empty response, a leading function call or a text without a match proceeds unchanged; otherwise the response comes back with only its first part's text run through the replacer as written, so a Kelvin-sign match stays as it was |
| CallbackTypes.AsciiTextAgrees | examples/go/snippets/callbacks/types_of_callbacks/main.go:237-245 | on a text without the Kelvin sign the replacer as written and the intended one give the same text |
| CallbackTypes.OnAfterModelIntended | examples/go/snippets/callbacks/types_of_callbacks/main.go:210-249 | the intended callback makes the same pass-through decisions as onAfterModel and differs only in rewriting every match of the pattern |
| CallbackTypes.IntendedAgreesWithoutKelvin | examples/go/snippets/callbacks/types_of_callbacks/main.go:229-249 | unless the reply's first text holds the Kelvin sign, onAfterModel as written and as intended return the same reply |
| CallbackTypes.KelvinReplyKept | examples/go/snippets/callbacks/types_of_callbacks/main.go:229-249 | for the model reply "jo" + U+212A + "e" onAfterModel takes the rewriting branch and returns the text unchanged, while the intended callback returns "funny story" |
| CallbackTypes.GetCapitalCity | examples/go/snippets/callbacks/types_of_callbacks/main.go:287-299 | the capital of a country listed under its lower-cased name, else "<Unknown>" |
| CallbackTypes.CapitalIgnoresCase | examples/go/snippets/callbacks/types_of_callbacks/main.go:294 | the lookup does not depend on the case of the country |
| CallbackTypes.UnknownOnlyWhenMissing | examples/go/snippets/callbacks/types_of_callbacks/main.go:294-297 | "<Unknown>" comes back exactly for a country that is not listed |
| CallbackTypes.OnBeforeTool | examples/go/snippets/callbacks/types_of_callbacks/main.go:304-323 | for getCapitalCity a country equal to "canada" in any case is rewritten to "France" in the caller's map, which is returned; "BLOCK" in any case gets the blocked result; everything else proceeds with the arguments untouched |
| CallbackTypes.CanadaAnsweredWithParis | examples/go/snippets/callbacks/types_of_callbacks/main.go:308-313 | a question about Canada, once rewritten, is answered with Paris instead of Ottawa |
| CallbackTypes.CopyEntries | examples/go/snippets/callbacks/types_of_callbacks/main.go:378-381 | the copy loop yields a map equal to the tool's result |
| CallbackTypes.OnAfterTool | examples/go/snippets/callbacks/types_of_callbacks/main.go:366-390 | a tool error passes through; an exact "Washington, D.C." result of getCapitalCity is answered with a new map holding every original entry, the annotated result and the note flag; anything else proceeds |
| CallbackBasics.OnBeforeModelBasic | examples/go/snippets/callbacks/main.go:24-29 | the basic callback never answers in the model's place and never fails, so the model call always proceeds |
| CallbackBasics.OnBeforeModelGuardrail | examples/go/snippets/callbacks/main.go:93-116 | the call is blocked with the fixed refusal exactly when some part of some content contains "finance" as written |
| CallbackBasics.GuardrailIsCaseSensitive | examples/go/snippets/callbacks/main.go:99 | "FINANCE" in capitals does not trigger the guardrail |
| CallbackBasics.PrintAll | examples/go/snippets/callbacks/main.go:172-179 | the drain loop prints every part's text of every event in order; an error is fatal and an event without content panics |
| CallbackBasics.RunAndPrint | examples/go/snippets/callbacks/main.go:157-181 | every prompt runs in a new session of GuardrailApp for "test_user", created empty; a failed creation is fatal before anything is printed |
| CallbackBasics.GuardrailExample | examples/go/snippets/callbacks/main.go:150-154 | the two prompts of the guardrail example run in two different sessions |
| ArtifactStore.LoadAfterSave | examples/go/snippets/artifacts/main.go:243 | in the assumed artifact service, loading a name after saving it gives the saved part, and each save adds one version |
| ArtifactStore.SaveKeepsOthers | examples/go/snippets/artifacts/main.go:40 | saving one name leaves what every other name loads unchanged |
| ArtifactStore.SaveKeepsListing | examples/go/snippets/artifacts/main.go:262 | saving never removes a listed name, and a new name is listed after the existing ones |
| ArtifactStore.Store.Save | examples/go/snippets/artifacts/main.go:40 | a save either fails and changes nothing, or stores the part as the name's next version and returns that version number |
| ArtifactStore.Store.List | examples/go/snippets/artifacts/main.go:262 | the listing is the stored names, or the service's error |
| ArtifactStore.Store.Load | examples/go/snippets/artifacts/main.go:128 | a load succeeds exactly for a stored name when the service does not fail, and gives the latest version |
| ArtifactCallbacks.UpToSlash | examples/go/snippets/artifacts/main.go:38 | the text before the first "/", i.e. element 1 of the split of the MIME type's remainder |
| ArtifactCallbacks.ShorterNumberDiffers | examples/go/snippets/artifacts/main.go:38 | names built from digit strings of different lengths differ, whatever the extensions |
| ArtifactCallbacks.NumberedNamesDistinct | examples/go/snippets/artifacts/main.go:38 | user_image_<i>.<ext> names of different part indexes never collide |
| ArtifactCallbacks.ImageNamesDistinct | examples/go/snippets/artifacts/main.go:38 | two image parts at different indexes are saved under different file names |
| ArtifactCallbacks.SaveAll | examples/go/snippets/artifacts/main.go:34-46 | saving a sequence of artifacts keeps the store well formed |
| ArtifactCallbacks.SaveAllKeeps | examples/go/snippets/artifacts/main.go:40 | saving a different name does not change what a name loads |
| ArtifactCallbacks.SaveAllLatest | examples/go/snippets/artifacts/main.go:40 | after a save, the name loads the part just saved |
| ArtifactCallbacks.ImageSaved | examples/go/snippets/artifacts/main.go:34-46 | when no save fails, every image part of the user's last message loads back under its user_image_<index>.<subtype> name |
| ArtifactCallbacks.OnlyImagesSaved | examples/go/snippets/artifacts/main.go:36 | only parts with inline data of an image/ MIME type are saved |
| ArtifactCallbacks.Names | examples/go/snippets/artifacts/main.go:38 | the names of the saved artifacts, one per save, in order |
| ArtifactCallbacks.SaveImageAt | examples/go/snippets/artifacts/main.go:35-45 | one loop step saves part i when it is an image and logs a failed save without stopping |
| ArtifactCallbacks.SaveUserImages | examples/go/snippets/artifacts/main.go:23-51 | the callback saves exactly the image parts of the last content when it is the user's, in part order, and always lets the model call proceed |
| ArtifactCallbacks.ReportIn | examples/go/snippets/artifacts/main.go:220-231 | a report is found exactly when report_bytes is stored as bytes |
| ArtifactCallbacks.AfterSave | examples/go/snippets/artifacts/main.go:218-252 | saving the report keeps the artifact store well formed |
| ArtifactCallbacks.SavedReportListed | examples/go/snippets/artifacts/main.go:233-243 | after a successful save, generated_report.pdf is listed and loads the PDF part built from the stored bytes |
| ArtifactCallbacks.SaveReport | examples/go/snippets/artifacts/main.go:218-252 | the callback saves the report exactly as AfterSave describes, and always lets the model call proceed |
| ArtifactCallbacks.LinesPrefix | examples/go/snippets/artifacts/main.go:274-276 | the listing for the first k names is a prefix of the listing for all of them |
| ArtifactCallbacks.LineFollowsHeader | examples/go/snippets/artifacts/main.go:272-276 | behind any header, the listing contains a "- name" line for every name |
| ArtifactCallbacks.ListingNamesEach | examples/go/snippets/artifacts/main.go:272-276 | the built listing contains a "- name" line for every listed name |
| ArtifactCallbacks.BuildListing | examples/go/snippets/artifacts/main.go:272-276 | the builder loop produces the header followed by one line per name |
| ArtifactCallbacks.WithListing | examples/go/snippets/artifacts/main.go:278-284 | only the first part of the last content changes, to the listing, a newline and its old text; without a last content or a part nothing changes |
| ArtifactCallbacks.ListingInFront | examples/go/snippets/artifacts/main.go:282 | whatever the listing contains, the first part of the latest message then contains |
| ArtifactCallbacks.ListedNameInFront | examples/go/snippets/artifacts/main.go:271-285 | every listed name appears in the first part of the latest message |
| ArtifactCallbacks.ListUserFiles | examples/go/snippets/artifacts/main.go:259-293 | the callback leaves the system instruction alone and changes the contents as AfterList describes; a listing error or an empty listing leaves them as they were |
| ArtifactCallbacks.WithLoaded | examples/go/snippets/artifacts/main.go:137-145 | the loaded part is appended to the last content; with no contents a single content is created first, holding the context note |
| ArtifactCallbacks.LoadedPartLast | examples/go/snippets/artifacts/main.go:143-145 | after a load the loaded part ends the prompt and the first part of the latest message is kept |
| ArtifactCallbacks.LoadArtifacts | examples/go/snippets/artifacts/main.go:121-150 | the callback appends generated_report.pdf to the prompt when it loads, and leaves the prompt as it was when the load fails |
| ArtifactCallbacks.ReportReachesPrompt | examples/go/snippets/artifacts/main.go:328-332 | with a report in the state and a store that refuses nothing, the save, list and load callbacks in their order put the report at the end of the prompt and its file name in front of the latest message |
| ArtifactCallbacks.ReportCallbacks | examples/go/snippets/artifacts/main.go:328-332 | the three callbacks run in order save exactly the report and yield the prompt ReportPrompt describes |
| ArtifactStore.Stored | examples/go/snippets/artifacts/main.go:40 | a save adds one version of the name holding the part, numbered after the earlier ones, keeps every other name's versions and keeps the store well formed |
| ResponseHelpers.HasFunctionCalls | examples/go/snippets/sessions/state_example/state_example.go:278-288 | no contract of its own; stated inside ResponseHelpers.FinalResponseCharacterized |
| ResponseHelpers.HasFunctionResponses | examples/go/snippets/sessions/state_example/state_example.go:290-300 | no contract of its own; stated inside ResponseHelpers.FinalResponseCharacterized |
| ResponseHelpers.HasTrailingCodeExecutionResult | examples/go/snippets/sessions/state_example/state_example.go:302-308 | no contract of its own; stated inside ResponseHelpers.FinalResponseCharacterized |
| ResponseHelpers.IsFinalResponse | examples/go/snippets/sessions/state_example/state_example.go:268-276 | no contract of its own; stated by ResponseHelpers.FinalResponseCharacterized |
| ResponseHelpers.IsFinalResponseOpt | examples/go/snippets/tools/overview/toolset_example/toolset_example.go:201-209 | no contract of its own; stated by ResponseHelpers.VariantsAgreeWithContent and ResponseHelpers.VariantsDifferOnEmptyPartial |
| ResponseHelpers.FinalResponseCharacterized | examples/go/snippets/sessions/state_example/state_example.go:268-275 | outside skipped summarization and pending long-running tools, an event is final exactly when it has no content, or has no function call, no function response, is not partial and does not end in a code-execution result |
| ResponseHelpers.VariantsAgreeWithContent | examples/go/snippets/tools/overview/toolset_example/toolset_example.go:201-209 | the toolset example's isFinalResponse, which tests for a missing response, agrees with the state example's on every event that has content |
| ResponseHelpers.VariantsDifferOnEmptyPartial | examples/go/snippets/tools/overview/toolset_example/toolset_example.go:201-209 | on a partial event without content the two variants disagree: the state example calls it final, the toolset example does not |
| ResponseHelpers.NonEmptyTextsSound | examples/go/snippets/sessions/state_example/state_example.go:310-320 | every text textParts returns is non-empty and is the text of one of the parts |
| ResponseHelpers.NonEmptyTextsConcat | examples/go/snippets/sessions/state_example/state_example.go:310-320 | textParts of two runs of parts joined is the two results joined |
| ResponseHelpers.TextParts | examples/go/snippets/sessions/state_example/state_example.go:310-320 | textParts of a missing content is empty, and otherwise the non-empty part texts in order |
| ConsoleRuns.FirstPartRun | examples/go/snippets/tools-custom/customer_support_agent/main.go:106-114 | the loop prints what FirstPartSpec describes: non-empty first-part texts, with an error fatal and an event without parts a panic |
| ConsoleRuns.FirstPartCompletes | examples/go/snippets/tools-custom/customer_support_agent/main.go:106-114 | the loop completes exactly when no element is an error or lacks a first part; then it prints every non-empty first-part text in order and logs nothing |
| ConsoleRuns.FirstPartHalts | examples/go/snippets/tools-custom/customer_support_agent/main.go:107-111 | the first error ends the loop fatally with that error, and the first event without a readable first part panics; what was printed before stays |
| ConsoleRuns.FirstPartPrintsNonEmpty | examples/go/snippets/tools-custom/customer_support_agent/main.go:111-113 | no printed line is empty |
| ConsoleRuns.TextPartsStep | examples/go/snippets/sessions/instruction_provider/instruction_provider_example.go:129-139 | one element: an error is logged, an event with parts prints its non-empty texts |
| ConsoleRuns.TextPartsRun | examples/go/snippets/sessions/instruction_provider/instruction_provider_example.go:128-140 | the instruction examples' loop prints and logs what TextPartsSpec describes |
| ConsoleRuns.TextPartsIgnoresErrors | examples/go/snippets/sessions/instruction_template/instruction_template_example.go:85-97 | that loop always completes, logs one line per error and prints the same as it would without the errors, and never prints an empty text |
| ConsoleRuns.FinalTextStep | examples/go/snippets/tools/overview/toolset_example/toolset_example.go:185-196 | one element: an error is logged, a final response prints its first non-empty text |
| ConsoleRuns.FinalTextRun | examples/go/snippets/tools/overview/weather_sentiment/weather_sentiment.go:170-182 | the overview examples' loop prints, logs and ends as FinalTextSpec describes |
| ConsoleRuns.FinalTextPrintsFinalOnly | examples/go/snippets/tools/overview/toolset_example/toolset_example.go:185-196 | at most one non-empty line per element; nothing is printed when no response is final, and the loop completes unless a final event has no response |
| PromptScan.Scan | examples/go/snippets/callbacks/types_of_callbacks/main.go:159-171 | the nested loops report a hit exactly when some part of some content contains the keyword, upper-cased first when folding |
| PromptScan.FoldedIgnoresCase | examples/go/snippets/callbacks/types_of_callbacks/main.go:161 | with folding, lower-casing the text first does not change whether it hits |
| MemorySearch.FlattenConcat | examples/go/snippets/sessions/memory_example/memory_example.go:65-70 | the results for two runs of hits joined are the two results joined |
| MemorySearch.EmptyHitAddsNothing | examples/go/snippets/sessions/memory_example/memory_example.go:67 | a hit without content contributes nothing to the results |
| MemorySearch.FlattenSound | examples/go/snippets/sessions/memory_example/memory_example.go:65-70 | no result is an empty text |
| MemorySearch.SearchTool | examples/go/snippets/sessions/memory_example/memory_example.go:56-72 | the tool answers the error line on a search error, and otherwise the non-empty texts of every hit with content, in order |
| MemorySearch.Must | examples/go/snippets/sessions/memory_example/memory_example.go:174-179 | must gives the value exactly when there is no error, and exits fatally otherwise |
| Sessions.Persisted | examples/go/snippets/sessions/state_example/state_example.go:118-123 | the persisted part of a state delta holds exactly its keys without the temp: prefix, with their values |
| Sessions.GeneratedID | examples/go/snippets/sessions/session_management_example/session_management_example.go:68-72 | a session created without an ID gets a non-empty generated one |
| Sessions.GeneratedIDsDistinct | examples/go/snippets/sessions/session_management_example/session_management_example.go:68-72 | generated IDs never repeat |
| Sessions.SessionService.constructor | examples/go/snippets/sessions/session_management_example/session_management_example.go:38 | a new in-memory service holds no sessions |
| Sessions.SessionService.Create | examples/go/snippets/sessions/session_management_example/session_management_example.go:68-75 | a new session is keyed by application, user and ID, starts with the given state and no events; an empty ID takes the next generated one; an ID in use is an error that changes nothing |
| Sessions.SessionService.Get | examples/go/snippets/sessions/state_example/state_example.go:141 | Get gives the stored session exactly for a known key |
| Sessions.SessionService.AppendEvent | examples/go/snippets/sessions/state_example/state_example.go:131 | appending to a known session records the event and applies the persisted part of its delta; an unknown session is an error that changes nothing |
| Sessions.SessionService.Delete | examples/go/snippets/sessions/session_management_example/session_management_example.go:94-101 | Delete removes the session and nothing else |
| Sessions.AppendedStateFacts | examples/go/snippets/sessions/state_example/state_example.go:141-150 | after an append, the persisted keys read back as written, temp: keys are not changed, and keys outside the delta are as before |
| Sessions.ManagementExample | examples/go/snippets/sessions/session_management_example/session_management_example.go:29-104 | a Vertex AI set-up failure is only logged; the created session reports the requested application and user, initial_value under initial_key and no events, and deleting it by its own triple leaves the service as it was |
| DocAnalysis.StoryIn | examples/go/snippets/tools-custom/doc_analysis/main.go:24-35 | a story is found exactly when story_bytes is stored as bytes |
| DocAnalysis.AfterStorySave | examples/go/snippets/tools-custom/doc_analysis/main.go:22-57 | saving the story keeps the artifact store well formed |
| DocAnalysis.SaveStoryBytes | examples/go/snippets/tools-custom/doc_analysis/main.go:22-57 | the callback saves my_document.pdf from the stored bytes as AfterStorySave describes, and always lets the model call proceed |
| DocAnalysis.FirstSessionSavesNothing | examples/go/snippets/tools-custom/doc_analysis/main.go:102-105 | in the first session, created without state, the callback saves nothing |
| DocAnalysis.SecondSessionSavesStory | examples/go/snippets/tools-custom/doc_analysis/main.go:110-119 | in the second session my_document.pdf then loads the PDF part built from the story bytes |
| DocAnalysis.ProcessSucceeds | examples/go/snippets/tools-custom/doc_analysis/doc_analysis.go:22-71 | the tool succeeds exactly when listing, loading and saving all succeed and the document carries inline data; it then reports analysis_<document> with the version the store gave it, and the analysis is that name's latest version |
| DocAnalysis.FailureSavesNothing | examples/go/snippets/tools-custom/doc_analysis/doc_analysis.go:27-63 | whenever the tool does not succeed, the store is unchanged |
| DocAnalysis.FailureMessages | examples/go/snippets/tools-custom/doc_analysis/doc_analysis.go:27-63 | a failure names its step: "Failed to list artifacts.", then "Document '<name>' not found.", then "Failed to save artifact." |
| DocAnalysis.Process | examples/go/snippets/tools-custom/doc_analysis/doc_analysis.go:22-71 | the tool's outcome keeps the artifact store well formed |
| DocAnalysis.ProcessDocument | examples/go/snippets/tools-custom/doc_analysis/doc_analysis.go:22-71 | the tool's steps produce what Process describes; the memory count it prints is the number of memories, or zero without a response |
| DocAnalysis.SecondRunAnalyses | examples/go/snippets/tools-custom/doc_analysis/main.go:126-128 | in the second run the document is found and its analysis is saved as version 0 |
| DocumentAnalyzer.DocumentText | examples/go/snippets/tools/overview/document_analyzer/document_analyzer.go:73-76 | a load without a part reads as empty text, otherwise as the part's text |
| DocumentAnalyzer.Analyze | examples/go/snippets/tools/overview/document_analyzer/document_analyzer.go:50-99 | the tool's outcome keeps the artifact store well formed |
| DocumentAnalyzer.AnalyzeSucceeds | examples/go/snippets/tools/overview/document_analyzer/document_analyzer.go:50-99 | the tool succeeds exactly when listing, loading and saving all succeed for an existing document; it then names analysis_<document>, whose latest version is the analysis; otherwise it reports "error" and the store is unchanged |
| DocumentAnalyzer.ListFailureStops | examples/go/snippets/tools/overview/document_analyzer/document_analyzer.go:53-58 | a failed listing reports "failed to list artifacts: " and the store's error, and nothing is loaded or saved |
| DocumentAnalyzer.PartlessDocumentIsEmpty | examples/go/snippets/tools/overview/document_analyzer/document_analyzer.go:73-76 | a document stored without a part is read as empty text and still analysed |
| DocumentAnalyzer.ProcessDocument | examples/go/snippets/tools/overview/document_analyzer/document_analyzer.go:50-99 | the tool's steps produce what Analyze describes |
| ContextTools.InstructionFor | examples/go/snippets/context/main.go:106-114 | the read-only instruction provider never fails |
| ContextTools.InstructionNamesTier | examples/go/snippets/context/main.go:106-114 | the instruction is the fixed sentence around the tier: the stored user_tier as %v prints it, "standard" when none is stored |
| ContextTools.InstructionsTellTiersApart | examples/go/snippets/context/main.go:106-114 | sessions whose tiers print differently get different instructions |
| ContextTools.CallsCounted | examples/go/snippets/context/main.go:120-135 | k counted model calls leave the stored model_calls at its old value plus k (from 0 when absent) and change no other key |
| ContextTools.CountModelCall | examples/go/snippets/context/main.go:120-135 | the callback lets the model call proceed after storing the count plus one; a refused write is returned as the error and a non-int stored count fails the type assertion |
| ContextTools.SearchExternal | examples/go/snippets/context/main.go:178-194 | no contract of its own; stated by ContextTools.SearchNeedsKey |
| ContextTools.SearchNeedsKey | examples/go/snippets/context/main.go:178-194 | the tool answers "Auth Required" exactly when no non-empty api_key is stored, and otherwise returns "Data for <query> fetched." with the query recoverable from it |
| ContextTools.GetUserProfile | examples/go/snippets/context/main.go:467-476 | the tool stores random_user_456 under temp:current_user_id and reports "ID generated"; a refused write leaves state alone and reports the error text |
| ContextTools.GetUserOrders | examples/go/snippets/context/main.go:490-499 | no contract of its own; stated by ContextTools.OrdersNeedUser and ContextTools.ProfileThenOrders |
| ContextTools.OrdersNeedUser | examples/go/snippets/context/main.go:490-499 | orders are returned exactly when a user ID is in state; otherwise the error says it was not found |
| ContextTools.ProfileThenOrders | examples/go/snippets/context/main.go:467-499 | after getUserProfile's write getUserOrders returns order123 and order456, and the hand-over key is a temporary one |
| ContextTools.CheckInitialIntent | examples/go/snippets/context/main.go:369-382 | the callback never replaces the agent's output and always reports some input text |
| ContextTools.PreferenceKey | examples/go/snippets/context/main.go:569 | a preference is stored under a user-scoped, non-temporary key |
| ContextTools.PreferenceKeysDistinct | examples/go/snippets/context/main.go:569 | different preferences are stored under different keys |
| ContextTools.SetUserPreference | examples/go/snippets/context/main.go:567-575 | the tool writes the value under user:<preference> and reports "Preference updated"; a refused write is returned as the error with state unchanged |
| ContextTools.SaveDocRef | examples/go/snippets/context/main.go:664-675 | the tool saves the path as the text artifact document_to_summarize.txt and then records that name in temporary state; a failed save changes nothing and a refused write keeps the saved artifact |
| ContextTools.SummarizeDocument | examples/go/snippets/context/main.go:610-637 | no contract of its own; stated by ContextTools.SummaryOrError and ContextTools.SavedReferenceSummarized |
| ContextTools.SummaryOrError | examples/go/snippets/context/main.go:610-637 | every summary outcome has exactly one of a summary and an error |
| ContextTools.SavedReferenceSummarized | examples/go/snippets/context/main.go:610-637 | after the reference is saved and named in state, the summariser names the saved path, or reports that the path is empty |
| Safety.ConceptualSetup | examples/go/snippets/safety/safety_example.go:44-54 | the setup stores the SELECT-only policy over mytable1 and mytable2 and the session user user123, and nothing else |
| Safety.ExplainQuery | examples/go/snippets/safety/safety_example.go:60-68 | the hypothetical parser reports at most one table |
| Safety.ExplainIgnoresCase | examples/go/snippets/safety/safety_example.go:60-68 | upper- or lower-casing the query does not change the tables it reports |
| Safety.IsSubset | examples/go/snippets/safety/safety_example.go:71-82 | the result is true exactly when every element of the first list occurs in the second |
| Safety.Allowed | examples/go/snippets/safety/safety_example.go:111-114 | the list of allowed tables in the error message is never empty |
| Safety.NoTablesDefined | examples/go/snippets/safety/safety_example.go:111-114 | with no tables listed the message says "(None defined)" |
| Safety.QueryPolicyEnforced | examples/go/snippets/safety/safety_example.go:96-133 | a query succeeds, with result1 and result2, exactly when a policy is stored and neither the table rule nor the SELECT-only rule is violated; a table violation is reported, with the allowed tables, in preference to a SELECT violation |
| Safety.UnknownTablesPass | examples/go/snippets/safety/safety_example.go:105-120 | a query that touches no known table passes the table rule whatever tables are allowed |
| Safety.MentionsTable | examples/go/snippets/safety/safety_example.go:60-68 | a query that spells a lower-case table name at some position mentions that table |
| Safety.LacksTable | examples/go/snippets/safety/safety_example.go:60-68 | a query lacking some letter of a table name, in either case, does not mention that table |
| Safety.Query | examples/go/snippets/safety/safety_example.go:96-133 | the tool's answer is the one the policy stored in session state dictates |
| Safety.ValidQueryRuns | examples/go/snippets/safety/safety_example.go:189-193 | under the example policy, SELECT * FROM mytable1 succeeds |
| Safety.OtherTableRefused | examples/go/snippets/safety/safety_example.go:108-118 | under the example policy a query touching any other table is refused, naming mytable1 and mytable2 |
| Safety.UnauthorizedTableSeen | examples/go/snippets/safety/safety_example.go:60-68 | the unauthorized-table query is parsed as touching unauthorized_table |
| Safety.UnauthorizedLacksMyTable1 | examples/go/snippets/safety/safety_example.go:61 | the unauthorized-table query does not mention mytable1 |
| Safety.UnauthorizedMentioned | examples/go/snippets/safety/safety_example.go:64 | the unauthorized-table query mentions unauthorized_table once lower-cased |
| Safety.UnauthorizedTableRefused | examples/go/snippets/safety/safety_example.go:195-199 | under the example policy SELECT * FROM unauthorized_table is refused, naming mytable1 and mytable2 |
| Safety.DeleteRefused | examples/go/snippets/safety/safety_example.go:201-205 | under the example policy DELETE FROM mytable1 is refused by the SELECT-only rule |
| Safety.CheckCharacterized | examples/go/snippets/safety/safety_example.go:140-174 | the callback lets the model call proceed exactly when there is no database_query call or every such call claims the session's user; a missing session user is an error as soon as there is such a call; otherwise the request is blocked |
| Safety.CheckConcat | examples/go/snippets/safety/safety_example.go:144-170 | calls in later messages are inspected only when every call before them passed |
| Safety.ValidateToolParams | examples/go/snippets/safety/safety_example.go:140-174 | the callback's loop over messages and parts gives the answer that checking the request's database_query calls in order gives |
| Safety.OtherUserBlocked | examples/go/snippets/safety/safety_example.go:228-243 | a single database_query call made for another user than user123 is blocked |
| StateExample.NotTempAt | examples/go/snippets/sessions/state_example/state_example.go:118-123 | a key that differs from "temp:" at some position is not a temporary key |
| StateExample.Bump | examples/go/snippets/sessions/state_example/state_example.go:112-116 | no contract of its own; stated by StateExample.BumpsCount |
| StateExample.BumpsCount | examples/go/snippets/sessions/state_example/state_example.go:112-116 | k counter bumps add k to a stored int, count from 0 over a missing or non-int value, and leave every other key alone |
| StateExample.LoginUpdateReadsBack | examples/go/snippets/sessions/state_example/state_example.go:112-150 | after the system event is appended, task_status reads "active", user:login_count the bumped count and user:last_login_ts the clock reading, while temp:validation_needed is not persisted |
| StateExample.FirstLogin | examples/go/snippets/sessions/state_example/state_example.go:240-248 | from the example's initial state the first login counts 1, sets the task active and leaves the temporary flag unreadable |
| StateExample.ManualStateUpdate | examples/go/snippets/sessions/state_example/state_example.go:102-152 | with the session present, the session's new state is the old one plus the persisted login delta, and the values read back are those of that state; a missing session is an error with nothing changed |
| StateExample.UpdateActionCount | examples/go/snippets/sessions/state_example/state_example.go:166-187 | the tool bumps user_action_count and records the temporary status note; a refused write leaves state as it was |
| StateExample.ActionNoteNotPersisted | examples/go/snippets/sessions/state_example/state_example.go:171-184 | persisting the tool's writes keeps the bumped count and drops the temporary status note |
| UserPreference.UpdateUserPreference | examples/go/snippets/tools-custom/user_preference/user_preference.go:20-40 | an accepted write stores the preferences map with the one entry set and reports success with the preference's name; a refused write reports "error" and changes nothing |
| UserPreference.OnlyThatPreference | examples/go/snippets/tools-custom/user_preference/user_preference.go:22-34 | the update sets the one entry, keeps every other stored preference, and changes no other state key |
| UserPreference.UpdateIdempotent | examples/go/snippets/tools-custom/user_preference/user_preference.go:32-34 | setting the same preference to the same value twice equals setting it once |
| UserPreference.LaterUpdateWins | examples/go/snippets/tools-custom/user_preference/user_preference.go:32-34 | the later of two updates of one preference wins, and updates of different preferences commute |
| UserPreference.PreferencesUserScoped | examples/go/snippets/tools-custom/user_preference/user_preference.go:21 | the preferences are kept under a user-scoped, non-temporary key |
| Instructions.InjectFills | examples/go/snippets/sessions/instruction_provider/instruction_provider_example.go:54-58 | injecting session state succeeds exactly when every {name} slot names a key in state, and then gives the template with each slot replaced by its value and all other text, {{...}} spans included, kept |
| Instructions.NoSlotsUnchanged | examples/go/snippets/sessions/instruction_provider/instruction_provider_example.go:40-46 | a template without slots reaches the model exactly as written, whatever the state |
| Instructions.StaticProvider | examples/go/snippets/sessions/instruction_provider/instruction_provider_example.go:44-46 | no contract of its own; stated by Instructions.StaticKeptVerbatim |
| Instructions.StaticKeptVerbatim | examples/go/snippets/sessions/instruction_provider/instruction_provider_example.go:44-46 | the static provider's text, braces included, reaches the model unchanged, just as injection would leave it |
| Instructions.DynamicPiecesRead | examples/go/snippets/sessions/instruction_provider/instruction_provider_example.go:55 | the dynamic template is read as text, the {adjective} slot, text, the {{literal_braces}} span and a final period |
| Instructions.DynamicProvider | examples/go/snippets/sessions/instruction_provider/instruction_provider_example.go:54-58 | no contract of its own; stated by Instructions.DynamicExample and Instructions.DynamicNeedsAdjective |
| Instructions.DynamicExample | examples/go/snippets/sessions/instruction_provider/instruction_provider_example.go:54-58 | with adjective set to "dynamic" the provider yields "This is a dynamic instruction with {{literal_braces}}." |
| Instructions.DynamicNeedsAdjective | examples/go/snippets/sessions/instruction_provider/instruction_provider_example.go:54-58 | without an adjective in state the dynamic provider fails |
| Instructions.TopicFilled | examples/go/snippets/sessions/instruction_template/instruction_template_example.go:47-65 | with a string topic in state the story generator's instruction ends with that topic in place of {topic} |
| Toolset.SubtractNumbers | examples/go/snippets/tools/overview/toolset_example/toolset_example.go:88-92 | the difference added back to the second operand gives the first |
| Toolset.AddNumbers | examples/go/snippets/tools/overview/toolset_example/toolset_example.go:69-74 | subtracting either operand from the sum gives the other, and the sum is recorded as last_math_result when the write is accepted |
| Toolset.GreetUser | examples/go/snippets/tools/overview/toolset_example/toolset_example.go:105-107 | the greeting is "Hello, " followed by the name, which can be read back from it |
| Toolset.GreetingsTellNamesApart | examples/go/snippets/tools/overview/toolset_example/toolset_example.go:105-107 | different names get different greetings |
| WeatherSentiment.GetWeatherReport | examples/go/snippets/tools/overview/weather_sentiment/weather_sentiment.go:53-71 | no contract of its own; stated by WeatherSentiment.WeatherKnownCities and WeatherSentiment.WeatherIgnoresCase |
| WeatherSentiment.WeatherKnownCities | examples/go/snippets/tools/overview/weather_sentiment/weather_sentiment.go:53-71 | the report succeeds exactly for London and Paris in any case, with each city's fixed report; otherwise the error message names the city as given and there is no report |
| WeatherSentiment.WeatherIgnoresCase | examples/go/snippets/tools-custom/weather_sentiment/main.go:29-37 | spellings of a city that differ only in case get the same status and report |
| WeatherSentiment.AnalyzeSentiment | examples/go/snippets/tools/overview/weather_sentiment/weather_sentiment.go:85-94 | no contract of its own; stated by WeatherSentiment.SentimentByKeywords and WeatherSentiment.SentimentIgnoresCase |
| WeatherSentiment.SentimentByKeywords | examples/go/snippets/tools/overview/weather_sentiment/weather_sentiment.go:85-94 | the text is positive exactly when it mentions good or sunny, negative exactly when it mentions rain or bad but not those, and neutral otherwise |
| WeatherSentiment.SentimentIgnoresCase | examples/go/snippets/tools-custom/weather_sentiment/main.go:48-56 | upper-casing the text does not change the sentiment |
| Values.StateStore.Get | examples/go/snippets/safety/safety_example.go:254-260 | a lookup finds exactly the stored keys and returns the stored value; a missing key is Go's error |
| Values.StateStore.Set | examples/go/snippets/safety/safety_example.go:262-265 | an accepted write stores the value under the key and changes nothing else; a refused write changes nothing and is returned as the error |
| CheckPrime.SmallDivisorsSuffice | examples/go/a2a_basic/remote_a2a/check_prime_agent/main.go:27-32 | a number above 1 with no divisor up to its square root has no divisor strictly between 1 and itself |
| CheckPrime.SquareRootSuffices | examples/go/a2a_basic/remote_a2a/check_prime_agent/main.go:23-33 | a number is prime exactly when it is above 1 and has no divisor from 2 up to its square root |
| CheckPrime.IsPrime | examples/go/a2a_basic/remote_a2a/check_prime_agent/main.go:23-33 | the trial-division loop answers true exactly for the primes |
| CheckPrime.PrimesConcat | examples/go/a2a_basic/remote_a2a/check_prime_agent/main.go:40-45 | filtering the primes of two lists one after the other gives the primes of the first followed by those of the second, so input order is kept |
| CheckPrime.PrimesCounted | examples/go/a2a_basic/remote_a2a/check_prime_agent/main.go:40-45 | every prime input is kept as often as it occurs and nothing else is kept |
| CheckPrime.NoPrimesKept | examples/go/a2a_basic/remote_a2a/check_prime_agent/main.go:40-48 | when no input is prime nothing is kept |
| CheckPrime.Decimals | examples/go/a2a_basic/remote_a2a/check_prime_agent/main.go:49-52 | every kept prime gets exactly one decimal form |
| CheckPrime.ReportShape | examples/go/a2a_basic/remote_a2a/check_prime_agent/main.go:46-53 | the tool answers "No prime numbers found." exactly when no input is prime, and otherwise its answer ends with " are prime numbers." |
| CheckPrime.CheckPrimeTool | examples/go/a2a_basic/remote_a2a/check_prime_agent/main.go:39-54 | the tool's loops give the report built from the primes among the inputs |
| MockLLM.FirstText | examples/go/a2a_basic/main.go:89-94 | the routing text is empty exactly when no part has text, and otherwise it is the text of the first part that has some |
| MockLLM.ScanText | examples/go/a2a_basic/main.go:85-96 | the scan's loop reads the first non-empty text of the last content, or "" when there is no content or the last one is nil |
| MockLLM.GenerateContent | examples/go/a2a_basic/main.go:83-120 | the mock model yields exactly one response, never an error, chosen from the routing text |
| MockLLM.Respond | examples/go/a2a_basic/main.go:98-117 | no contract of its own; stated by MockLLM.RoutesOnKeyword and MockLLM.RoutingIgnoresCase |
| MockLLM.RoutesOnKeyword | examples/go/a2a_basic/main.go:98-117 | the prime_checking call is made exactly when "prime" occurs in the routing text in any letter case, and the fixed offer is answered otherwise |
| MockLLM.RoutingIgnoresCase | examples/go/a2a_basic/main.go:100 | upper- or lower-casing the routing text does not change the response |
| MockLLM.OnlyLastContentCounts | examples/go/a2a_basic/main.go:86-88 | earlier contents never change the response; only the last content is read |
| MockLLM.LaterPartsIgnored | examples/go/a2a_basic/main.go:89-93 | once a part with text is found, later parts are never read |
| Lookups.FetchStatusFromBackend | examples/go/snippets/tools-custom/order_status/order_status.go:46-51 | no contract of its own; its one known order is stated by Lookups.OrderStatusCharacterized |
| Lookups.LookupOrderStatus | examples/go/snippets/tools-custom/order_status/order_status.go:25-37 | no contract of its own; stated by Lookups.OrderStatusCharacterized and Lookups.OrderOrMessage |
| Lookups.OrderStatusCharacterized | examples/go/snippets/tools-custom/order_status/order_status.go:25-51 | the lookup succeeds exactly for order 12345, with the backend's state and tracking number and no message; any other ID is an error with an empty order and "Order ID <id> not found." |
| Lookups.OrderOrMessage | examples/go/snippets/tools-custom/order_status/order_status.go:25-37 | exactly one of the order and the error message is filled in |
| Lookups.NotFoundNamesOrder | examples/go/snippets/tools-custom/order_status/order_status.go:36 | the error message gives back the order ID as it was asked for |
| Lookups.RetrieveOrderById | examples/go/snippets/slides/customer_agent/main.go:32-46 | the status is always Shipped, Processing or Complete |
| Lookups.RetrieveCharacterized | examples/go/snippets/slides/customer_agent/main.go:32-46 | Shipped exactly for order_001, Processing exactly for order_002, Complete for every other ID |
| Lookups.RetrieveCaseSensitive | examples/go/snippets/slides/customer_agent/main.go:33 | the match is exact: ORDER_001 is an unknown order and reads as Complete |
| Lookups.GetCapitalCity | examples/go/cloud-run/main.go:44-58 | no contract of its own; stated by Lookups.CapitalCharacterized and Lookups.CapitalIgnoresCase |
| Lookups.CapitalCharacterized | examples/go/cloud-run/main.go:44-58 | a country known in any case gives its capital and no message; an unknown one gives the message naming the country as given and no capital |
| Lookups.CapitalIgnoresCase | examples/go/cloud-run/main.go:51 | upper-casing the country does not change the capital found |
| Lookups.FranceInCapitals | examples/go/cloud-run/main.go:45-57 | FRANCE is answered with Paris |
| Lookups.CapitalAnswer | examples/go/snippets/agents/llm-agents/main.go:194-210 | no contract of its own; stated by Lookups.CapitalAnswersAgree |
| Lookups.SnippetCapitalAnswer | examples/go/snippets/agents/llm-agents/main.go:77-85 | no contract of its own; stated by Lookups.CapitalAnswersAgree |
| Lookups.CapitalAnswersAgree | examples/go/snippets/agents/llm-agents/main.go:77-85 | both llm-agents versions answer under "result" alone; the full one gives the capital or the deployed tool's message, and the snippet agrees with it on the three countries it knows |
| Lookups.SnippetMissesUnitedStates | examples/go/snippets/agents/llm-agents/main.go:194-210 | the full tool knows the United States, the snippet apologises for it |
| Lookups.StoreOutput | examples/go/snippets/agents/llm-agents/main.go:243-255 | an agent with an output key stores its final text under that key and leaves every other key alone |
| Lookups.StoredOutputReadBack | examples/go/snippets/agents/llm-agents/main.go:347-366 | callAgent reads back the text the agent stored under its output key |
| Lookups.GetStockPrice | examples/go/snippets/tools/function-tools/func_tool.go:39-46 | no contract of its own; stated by Lookups.StockPriceCharacterized and Lookups.StockIgnoresCase |
| Lookups.StockPriceCharacterized | examples/go/snippets/tools/function-tools/func_tool.go:39-46 | the answer always echoes the symbol as given; it has a price exactly when the upper-cased symbol is known, and the "No data found for symbol" error exactly when it is not |
| Lookups.StockIgnoresCase | examples/go/snippets/tools/function-tools/func_tool.go:40 | a lower-cased symbol gets the same answer apart from the echoed symbol |
| Lookups.LowerCaseGoogle | examples/go/snippets/tools/function-tools/func_tool.go:40-43 | goog is answered with GOOG's price |

## Configuration facts

Lemmas that evaluate a fact about one literal configuration or one fixed answer of the examples. They document the wiring and are not properties of the operations.

- MultiAgent.CoordinatorHierarchy (examples/go/snippets/agents/multi-agent/main.go:85-91): the Coordinator's children are Greeter then the custom TaskExecutor, and neither has children of its own.
- CustomerSupportOverview.SupportNotReachable (examples/go/snippets/tools/overview/customer_support_agent/customer_support_agent.go:88-105): support_agent is not a sub-agent of main_agent, whose only tool is check_and_transfer.
- CustomerSupportCustom.SupportIsSubAgent (examples/go/snippets/tools-custom/customer_support_agent/main.go:63-69): in this variant support_agent is main_agent's only sub-agent, so the transfer can reach it.
- CallbackBasics.RefusalShape (examples/go/snippets/callbacks/main.go:103-108): the refusal is one text part with the role "model".
- MemorySearch.ErrorHidesHits (examples/go/snippets/sessions/memory_example/memory_example.go:60-63): a failed search answers with the single error line, whatever hits came back.
- Lookups.AgentsConfigured (examples/go/snippets/agents/llm-agents/main.go:276-288): every agent with an output schema has no tools, and the two agents the example runs store under different keys.
- LongRunning.CreateTicketIgnoresUrgency (examples/go/snippets/tools/function-tools/long-running-tool/long_running_tool.go:34-38): the tool's immediate answer is "started", whatever urgency it is given.

## Left out

- The ADK runtime is not part of this model: runner, `llmagent`, the loop, sequential and parallel agents, the session, artifact and memory services, and `instructionutil.InjectSessionState`. The examples import these. `Workflow`, `Sessions`, `ArtifactStore`, `Instructions.Inject` and the memory service's answers state only the behaviour the examples' comments and calls rely on, as reference definitions.
- Models and transport: real model calls, client configuration, streaming modes, and the A2A remote agent and launcher wiring are network I/O. A model is a parameter: its events, or the mock model's function.
- Console and log output: `fmt` and `log` lines are left out unless deciding what to print is the operation itself (the run loops in `ConsoleRuns`, `LoopWorkflow.RunAgent`, `CustomerSupportOverview.Drive`). `log.Fatalf` is an outcome that ends the run.
- Interactive input: the stdin loops of the document analyzer and of the A2A client are I/O.
- Clock: `time.Now().Unix()` in the login update is the parameter `now`.
- Sessions.GeneratedID: the in-memory service draws a random ID for a session created without one. The model numbers such sessions instead and keeps only what the example relies on: the ID is non-empty and differs from every other generated ID.
- Case mapping: `Text.ToLower` and `Text.ToUpper` map ASCII letters only, while Go maps all of Unicode. Every `…IgnoresCase` lemma therefore speaks of ASCII case. `CallbackTypes.FoldsTo` adds the one non-ASCII fold the joke regex needs.
- The `(?i)\bjoke\b` regex is a whole-word, case-folding match predicate, `CallbackTypes.JokeAt`, not a regex engine. Its word characters are the ASCII ones, as in Go's RE2.
- Floating-point values: sentiment confidences, stock prices and the generation temperature are text tags and are never computed with.
- Go's fixed-width `int`: integers are unbounded. So `Toolset.AddNumbers` does not wrap on overflow. `CheckPrime.IsPrime`'s `i*i` cannot overflow for inputs near the top of the `int` range. The counters of `ContextTools.CallsCounted` and `StateExample.BumpsCount` do not wrap.
- `%v` formatting: `Values.Show` renders strings, numbers, booleans and lists as `fmt` does. It renders a non-empty map only as `map[...]`, because Go orders map keys when printing and no example relies on that text.
- `callAgent`'s re-indentation of stored JSON (llm-agents/main.go:352-363) is left out, so `Lookups.ReadBack` gives the stored text as it is.
- In-place updates: `onAfterModel` overwrites `Parts[0].Text` of the response it was given. `CallbackTypes.OnAfterModel` returns the rewritten response instead and does not model that the caller's response object is the same one. `updateUserPreference` mutates the map it read from state before writing it back. `UserPreference.UpdateUserPreference` copies it, so aliasing between the two maps is not modelled.
- The artifact service's version numbers start at 0. Its listing order is the order of first save. A version saved without a part reads back as no part. These are the service behaviours the examples' output implies; they are not verified service code.
- `mockState` in safety_example.go: only `Get` and `Set` are modelled, as `Values.StateStore`. `All`, the mock session, the mock contexts and the mock memory types do not compile as written (they declare methods on non-local types and miss imports), and no example logic depends on them.
- Instructions.Inject: the text of the error for a missing key is not modelled, only that injection fails. Nested or malformed braces are outside the piece reading of a template.
- Context snippets that only print (examples/go/snippets/context/main.go): `MyAgent.Run` 57-66, `myTool` 223-236, `myCallback` 257-266, `logToolUsage` 313-320, `logInitialUserInput` 416-424 (it only prints the first part's text when non-empty and always proceeds). `saveDocumentReference` 581-593 is the same save-then-record sequence as `ContextTools.SaveDocRef`. `checkAvailableDocs` 643-650 returns the store's listing unchanged.
- The greeting agent's `OutputKey` (state_example.go:44-94) is covered only by the general `Lookups.StoreOutput`, since its reply comes from a real model.
- The tool-context type assertion in the action-count tool (state_example.go:167-170) always succeeds in the runtime and is not modelled.
- Driver mains: `runScenario` in types_of_callbacks/main.go:450-472, the event loop of `runBasicExample` in callbacks/main.go:74-90, and the two recall loops of memory_example.go:117-125 and 158-166 are printing drivers. The callbacks and helpers they call are modelled.
- Parallel execution: the branches of a parallel agent run concurrently. `Workflow.RunParallel` puts their events one branch after another, so interleaving is not modelled.
- Workflow.RunParallel: its own contract pins down only the childless case. That every branch starts from the same state is stated by `MultiAgent.GatherBoth` and `MultiAgent.GatheredState`.
- DocumentAnalyzer.Analyze: its own contract states only that the artifact store stays well formed. What it returns is stated by `AnalyzeSucceeds`, `ListFailureStops` and `PartlessDocumentIsEmpty`.
- DocAnalysis.Process: its own contract states only that the artifact store stays well formed. What it returns is stated by `ProcessSucceeds`, `FailureSavesNothing` and `FailureMessages`.
- MockLLM.CountTokens: it returns the constant 0 and carries no contract; `Name` is the constant `MockLLM.ModelName`.

## Findings

| source | as written | input that shows it | evidently intended | confidence | as-written member | corrected member |
|---|---|---|---|---|---|---|
| examples/go/snippets/callbacks/types_of_callbacks/main.go:229-245 | The `(?i)` regex folds case the Unicode way, so it also matches "joke" spelled with the Kelvin sign U+212A for k. The replacer then checks `strings.ToUpper(s) == "JOKE"`, which fails for that spelling, and hands the match back unchanged on the branch its comment calls unreachable. | the model reply "jo\U{212A}e" | every match of the regex is rewritten to "funny story", or to "Funny story" for "Joke" | not executed | CallbackTypes.KelvinReplyKept | CallbackTypes.OnAfterModelIntended |
