# AgentForge core, modelled in Dafny

AgentForge lets a user describe an automation agent in plain language, keeps
agents in a store, and runs them. A run is either a smart, AI-planned
execution or a graph-driven workflow. The model covers the parts of the
system that decide something:

- **Smart execution** (`executor.dfy`, module `Executor`). The execution
  record is a class whose `logs` and `results` only grow, and its lifecycle
  runs from running to completed or failed. The step interpreter walks a plan
  in array order and catches each step's failure. The planner call has a
  tolerant reply parser. Listing the parsed steps throws on a null item or a
  non-iterable value, and that fails the run. A run of an unknown agent creates
  no record.
- **HTTP handler decisions** (`controller.dfy`, module `Controller`). These
  cover the owner filter, the 404 guards, and the smart-or-workflow dispatch
  rule with the `mode` it reports. They also cover the ad-hoc prompt guard and
  the `limit` of the executions query.
- **Natural-language agent creator** (`nlcreator.dfy`, module `NLCreator`).
  Keyword detectors read a trigger, a schedule and a list of tools from a
  sentence. A generator turns the sentence into a chain of workflow nodes. The
  draft agent gets its name from the first five words.
- **Front-end mock agent store** (`agentstore.dfy`, module `AgentStore`). It
  is a list of JSON documents with create, find-first, merge-update and
  filter-delete.
- **Website builder** (`website.dfy`, module `Website`). It asks the AI
  engine for a page, then cleans the reply by taking the first fenced code
  block, with a strip-and-trim fallback.
- **Template registry and gallery** (`templates.dfy`, module `Templates`).
  This is the constant template table, the lookup by id, the category tabs,
  the category filter and the node-count fallback.
- **Template run page** (`templatepage.dfy`, module `TemplatePage`). It
  stores the user's answers, checks the required fields, builds the prompt
  and shows the reply.

Shared modules:

- `text.dfy` (`Text`) holds the JavaScript string operations the code relies
  on: `trim` with the ECMAScript white-space set, `includes`, `startsWith`,
  global literal replacement, `split`/`join`, decimal rendering and UTF-16
  `length`.
- `js.dfy` (`Js`) holds dynamic values with their truthiness and
  template-literal rendering, `parseInt`, and the outcome of a call that may
  throw.
- `agent_types.dfy` (`AgentTypes`) holds the record shapes.
- `terminal.dfy` (`Terminal`) holds the progress-log line of the pages.

Anything outside the model is a parameter. This covers the AI engine,
`JSON.parse`, `JSON.stringify`, the spreadsheet and e-mail integrations, and
the clock. An outside call's result is an `Outcome`: a value, or an error
thrown with its message.

## Model

| member | source | states |
|---|---|---|
| Executor.Execution.constructor | backend/src/services/smartAgentExecutor.ts:13-18 | A new record belongs to the agent and the user, starts at the given time in status running, has no end time, duration or error, has empty logs and results, and keeps the lifecycle invariant |
| Executor.ExecutionStore.Insert | backend/src/services/smartAgentExecutor.ts:19 | Saving a new record appends it to the stored records |
| Executor.FindAgentById | backend/src/services/smartAgentExecutor.ts:10 | The lookup finds a stored agent with that id, and finds none exactly when no stored agent has it |
| Executor.LogExecution | backend/src/services/smartAgentExecutor.ts:193-202 | Logging appends exactly one entry with the given level and message, and changes nothing else in the record |
| Executor.ExecuteStep | backend/src/services/smartAgentExecutor.ts:122-165 | One step adds exactly the log entries and results its type and its service outcome call for; a failing read or send is caught |
| Executor.ExecuteRealActions | backend/src/services/smartAgentExecutor.ts:115-167 | The interpreter appends one warning for a plan without steps; otherwise it appends every step's entries in array order, and logs and results only grow |
| Executor.ActionsSnoc | backend/src/services/smartAgentExecutor.ts:121 | Walking one more step appends exactly that step's logs and results |
| Executor.ActionLogsCount | backend/src/services/smartAgentExecutor.ts:121-166 | Each failing step adds exactly one error entry, no step logs a warning, and every step logs once, or twice when dispatched to a service |
| Executor.KindOf | backend/src/services/smartAgentExecutor.ts:122-164 | "data_fetch" and "google_sheets" read the sheet, "email" alone sends mail, and every other type is skipped under its own name |
| Executor.StepLogsLevels | backend/src/services/smartAgentExecutor.ts:125-164 | A step logs an error exactly when its call throws, never a warning, and two entries when dispatched, else one |
| Executor.ActionResultsShape | backend/src/services/smartAgentExecutor.ts:133-143 | The interpreter's only results are successful sheet reads, one `google-sheets` entry each |
| Executor.UnknownStepsAreSkipped | backend/src/services/smartAgentExecutor.ts:163-164 | Steps of unknown type each log exactly one "Skipping action: <type>" entry, in order, and add no result |
| Executor.SkippedStep | backend/src/services/smartAgentExecutor.ts:163-164 | An unknown step type logs only its skip entry and adds no result |
| Executor.PlanPrompt | backend/src/services/smartAgentExecutor.ts:47-62 | The prompt carries the agent's description unaltered, between a fixed head and a fixed tail |
| Executor.CleanAIText | backend/src/services/smartAgentExecutor.ts:171-174 | The text handed to JSON.parse is trimmed, and is the trimmed reply itself when that does not start with a fence |
| Executor.ParseAIJson | backend/src/services/smartAgentExecutor.ts:169-179 | The parser never fails: a reply JSON.parse rejects gives the fallback plan, and any other reply gives the parsed plan |
| Executor.FencedReplyParsesAsBare | backend/src/services/smartAgentExecutor.ts:171-175 | A backtick-free JSON text wrapped in a "```json" fence, with white space around, parses to the same plan as the bare text |
| Executor.PlainFencedReplyParsesAsBare | backend/src/services/smartAgentExecutor.ts:171-175 | The same holds for a fence without a language tag |
| Executor.SameTextSamePlan | backend/src/services/smartAgentExecutor.ts:175 | Replies whose cleaned texts agree parse to the same plan |
| Executor.TaggedFenceCleans | backend/src/services/smartAgentExecutor.ts:171-174 | Cleaning a "```json" fenced reply leaves exactly the JSON body |
| Executor.PlainFenceCleans | backend/src/services/smartAgentExecutor.ts:171-174 | Cleaning a plain fenced reply leaves exactly the JSON body |
| Executor.StripJsonFence | backend/src/services/smartAgentExecutor.ts:173 | Removing every "```json", in any case, from a tagged fence leaves the body and the closing fence |
| Executor.NoJsonTag | backend/src/services/smartAgentExecutor.ts:173 | An untagged fence around a backtick-free body holds no "```json" to remove |
| Executor.StripFence | backend/src/services/smartAgentExecutor.ts:173 | Removing every "```" from a fenced, backtick-free body leaves the body |
| Executor.BareReply | backend/src/services/smartAgentExecutor.ts:171-175 | A trimmed, backtick-free reply reaches JSON.parse unchanged |
| Executor.FenceShape | backend/src/services/smartAgentExecutor.ts:171-173 | A fenced reply is its opening, its body and its closing fence, and it has no surrounding white space |
| Executor.CleanOfFenced | backend/src/services/smartAgentExecutor.ts:171-174 | White space around a fence is dropped before stripping, so the cleaned text is the stripped fence body, trimmed |
| Executor.FencedBody | backend/src/services/smartAgentExecutor.ts:174 | A backtick-free JSON text between two line breaks holds no backtick, and trimming it gives the JSON text back |
| Executor.NoJsonTagInBody | backend/src/services/smartAgentExecutor.ts:173 | A backtick-free body followed by a closing fence holds no "```json", in any case |
| Executor.StripClosingFence | backend/src/services/smartAgentExecutor.ts:173 | Removing every "```" from a backtick-free body and its closing fence leaves the body |
| Executor.Planned | backend/src/services/smartAgentExecutor.ts:64-67 | The planning call throws exactly when the AI call throws, with its message, and otherwise yields the parsed reply |
| Executor.LogPlanSteps | backend/src/services/smartAgentExecutor.ts:69-73 | The listing loop logs one "📌 action: details" entry per step, in order, up to the first null or undefined item. It then throws, or throws at once when the steps cannot be iterated; otherwise it yields every step |
| Executor.FirstUnreadable | backend/src/services/smartAgentExecutor.ts:70-71 | The position found holds a null or undefined item, and every item before it can be read |
| Executor.StepsOf | backend/src/services/smartAgentExecutor.ts:70 | The steps of readable items, one per item, in order |
| Executor.Listing | backend/src/services/smartAgentExecutor.ts:69-73 | The listing throws exactly when the steps cannot be iterated or some item is null or undefined; otherwise it yields every item's step, in order |
| Executor.ListedLogsInfo | backend/src/services/smartAgentExecutor.ts:69-73 | However far the listing gets, it logs neither errors nor warnings |
| Executor.RunPlan | backend/src/services/smartAgentExecutor.ts:65-90 | After parsing, the run announces the plan and lists its steps. When the listing goes through, it runs them and appends exactly one planner result holding the whole plan, then returns the plan; when the listing throws, nothing is run or recorded and the error is passed on |
| Executor.Settled | backend/src/services/smartAgentExecutor.ts:69-90 | After parsing, `executeWithAI` throws exactly when the step listing does, and otherwise returns the plan |
| Executor.WithAI | backend/src/services/smartAgentExecutor.ts:43-96 | `executeWithAI` throws the AI call's error when that call throws. After a reply it throws exactly when the parsed steps cannot be listed, with the listing's error; otherwise it returns the parsed plan |
| Executor.ExecuteWithAI | backend/src/services/smartAgentExecutor.ts:43-96 | The planning step appends its logs and results for every way it ends, and returns what `executeWithAI` returns or throws. A failure of the AI call or of the step listing is logged at error level and passed on |
| Executor.RecordPlanning | backend/src/services/smartAgentExecutor.ts:45-95 | After the delegation entry, a plan in hand adds the plan's run. Whenever the planning call or the step listing threw, exactly one "❌ Hybrid Execution Failed" entry follows and the error is passed on |
| Executor.ErrorText | backend/src/services/smartAgentExecutor.ts:36 | The stored error is never empty, and it is the thrown message whenever that is non-empty |
| Executor.Thrown | backend/src/services/smartAgentExecutor.ts:34-39 | Gives the message exactly when the outcome threw |
| Executor.ExecuteSmartAgent | backend/src/services/smartAgentExecutor.ts:9-41 | An unknown agent id throws before any record exists and stores nothing. Otherwise exactly one fresh record is stored, holding the run's whole log and results. It ends completed with end time and duration end minus start, or failed with the error text, end time and no duration, and the error is rethrown |
| Executor.RunKnownAgent | backend/src/services/smartAgentExecutor.ts:13-40 | The life of a found agent's record, from creation to final update, as above |
| Executor.StartAndPlan | backend/src/services/smartAgentExecutor.ts:13-25 | Before its final update the record is running and holds the run's whole log, and the planning outcome is what `executeWithAI` returns or throws |
| Executor.StartRun | backend/src/services/smartAgentExecutor.ts:13-23 | A fresh running record is inserted and its log opens with the start and task entries |
| Executor.Finish | backend/src/services/smartAgentExecutor.ts:27-39 | The record is finalised exactly once, as completed with its duration or failed with the error text and no duration, and it keeps the lifecycle invariant |
| Executor.PlanRunLevels | backend/src/services/smartAgentExecutor.ts:65-165 | Once a plan is in hand, a listing that throws logs no error or warning before the `catch`. Otherwise the run logs one error per failing step, and a warning only for a plan with no steps |
| Executor.RunErrorCount | backend/src/services/smartAgentExecutor.ts:22-93 | A whole run logs exactly one error, and no warning, when `executeWithAI` throws, whether the AI call or the step listing failed. Otherwise it logs one error per failing step, with a warning only for an empty plan |
| Executor.RunHeadLevels | backend/src/services/smartAgentExecutor.ts:22-23 | The two opening entries are neither errors nor warnings |
| Executor.PlanningLevels | backend/src/services/smartAgentExecutor.ts:45-94 | Error and warning counts after a planning call, for every way `executeWithAI` ends |
| Executor.PlanStepLogsInfo | backend/src/services/smartAgentExecutor.ts:69-73 | Listing steps logs neither errors nor warnings |
| Executor.PlanRunResultsShape | backend/src/services/smartAgentExecutor.ts:69-88 | When the listing goes through, the results are the sheet reads followed by exactly one planner result, the last, holding the plan; when it throws there are none |
| Executor.PlannerResultIsLast | backend/src/services/smartAgentExecutor.ts:69-90 | A run leaves results exactly when `executeWithAI` returns. The last is then the `agno-planner` entry holding the whole parsed plan, and every other result is a sheet read |
| Executor.UnlistablePlanning | backend/src/services/smartAgentExecutor.ts:65-94 | After a plan whose steps cannot be listed, the log is the delegation and plan entries, the steps listed so far and one error entry with the TypeError; nothing is recorded |
| Executor.NullStepFails | backend/src/services/smartAgentExecutor.ts:69-94 | A parsed reply whose first step is null makes `executeWithAI` throw the TypeError for reading `action` of null. It then logs only the delegation, plan and error entries, and records nothing |
| Executor.NotIterableStepsFail | backend/src/services/smartAgentExecutor.ts:69-94 | Parsed steps with a truthy `length` that cannot be iterated make `executeWithAI` throw "plan.steps is not iterable", with the same log and no result |
| Executor.FallbackRun | backend/src/services/smartAgentExecutor.ts:116-177 | The fallback plan only announces itself and warns "No steps to execute"; its only result is the planner's |
| Executor.GarbageReplyCompletes | backend/src/services/smartAgentExecutor.ts:67-177 | A reply JSON.parse rejects still completes the planning step: `executeWithAI` returns the fallback plan, after one warning |
| Executor.FallbackPlanning | backend/src/services/smartAgentExecutor.ts:116-177 | After the fallback plan the log is the delegation, plan and "No steps to execute" lines, and the one result is the planner entry |
| Controller.OwnedIndex | backend/src/controllers/agentController.ts:35 | The first agent with that id and owner, or the list length when there is none |
| Controller.FindOwned | backend/src/controllers/agentController.ts:35-80 | Finds an agent with that id and owner, and finds none exactly when no such agent is stored |
| Controller.NewAgentDocument | backend/src/controllers/agentController.ts:11-14 | The new document has the body's fields and a `userId`; a `userId` in the body wins over the test user |
| Controller.GetAgents | backend/src/controllers/agentController.ts:25 | The listed agents are exactly the stored agents of the test user |
| Controller.GetAgent | backend/src/controllers/agentController.ts:33-44 | The reply is 404 "Agent not found" exactly when the test user owns no agent with that id, and otherwise that agent |
| Controller.UpdateAgent | backend/src/controllers/agentController.ts:46-61 | With no owned match the reply is 404 and the store is unchanged; otherwise only the first match is replaced by its update, which is returned |
| Controller.DeleteAgent | backend/src/controllers/agentController.ts:63-74 | With no owned match the reply is 404 and the store is unchanged; otherwise the first match alone is removed and the rest keep their order |
| Controller.ExecuteAgent | backend/src/controllers/agentController.ts:76-114 | 404 and no executor started exactly when the agent is not found. Otherwise the smart executor starts exactly when the description is non-empty and longer than 20 UTF-16 units, and the reply's mode is "smart-ai" exactly when it did and "workflow" when the workflow executor started, with the fixed "Agent execution started" message and status "running" |
| Controller.SmartThreshold | backend/src/controllers/agentController.ts:88 | Over 20 characters is always smart; 10 or fewer, exactly 20 UTF-16 units, or an empty description take the workflow path |
| Controller.TakesSmartPath | backend/src/controllers/agentController.ts:88 | Every description of more than 20 characters goes to the AI, and none of 10 or fewer does |
| Controller.AstralCharsCountTwice | backend/src/controllers/agentController.ts:88 | `length` counts a character outside the basic plane twice |
| Controller.SmartRunFindsAgent | backend/src/controllers/agentController.ts:80-90 | Whenever the handler starts the smart executor, that executor's own lookup finds the agent |
| Controller.ForeignAgentIsNotFound | backend/src/controllers/agentController.ts:35-80 | Another user's agent is invisible: get, update, delete and execute all reply 404 and leave the store alone |
| Controller.ExecuteAdHoc | backend/src/controllers/agentController.ts:143-168 | A falsy prompt gets exactly 400 "Prompt is required"; success exactly when the prompt is truthy and the engine answers, and then it carries the engine's output and the current timestamp; an engine failure becomes exactly 500 with the error's message, or "Failed to execute ad-hoc agent" when that message is empty |
| Controller.RefusedPromptMakesNoCall | backend/src/controllers/agentController.ts:147-149 | For a refused prompt the reply does not depend on the AI engine at all |
| Controller.ExecutionsLimit | backend/src/controllers/agentController.ts:125 | The limit is what `parseInt` reads from the parameter whenever that is a number other than 0; a missing, non-numeric or zero parameter gives 10, so the limit is never 0 |
| Controller.LimitOfDecimal | backend/src/controllers/agentController.ts:125 | A decimal number is used as the limit as it is, except 0 |
| Controller.LimitDefaults | backend/src/controllers/agentController.ts:125 | No parameter, an empty one, or a word gives the default 10 |
| Controller.LimitAfterSpace | backend/src/controllers/agentController.ts:125 | Leading white space is skipped: " 7" gives 7 |
| Controller.LimitAfterPlus | backend/src/controllers/agentController.ts:125 | A plus sign is read: "+7" gives 7 |
| Controller.LimitNegative | backend/src/controllers/agentController.ts:125 | A negative number is truthy and becomes the limit: "-5" gives -5 |
| Controller.LimitOfHex | backend/src/controllers/agentController.ts:125 | A "0x" prefix reads base 16: "0x1f" gives 31 |
| Controller.LimitIgnoresTrailingText | backend/src/controllers/agentController.ts:125 | Digits are read up to the first other character: "7abc" gives 7 |
| Js.ParseIntDecimal | backend/src/controllers/agentController.ts:125 | `parseInt` reads back the decimal rendering of every natural number |
| Js.ParseInt | backend/src/controllers/agentController.ts:125 | A blank text is NaN, and a negative result needs a minus sign as the first non-blank character |
| Js.Display | src/pages/TemplatePage.tsx:80 | `${v}` for each kind of value; `ParseIntDisplay` states that an integer's text reads back as that integer |
| Js.ParseIntDisplay | src/pages/TemplatePage.tsx:80 | `parseInt` reads back the text a template literal makes of every integer, negative ones included |
| Js.Truthy | src/pages/TemplatePage.tsx:55 | A value is falsy exactly when it is undefined, null, false, 0 or the empty string |
| Js.MagnitudeDecimal | backend/src/controllers/agentController.ts:125 | The digit reader reads back the decimal rendering of every natural number |
| Js.DecimalValue | backend/src/controllers/agentController.ts:125 | The value of a decimal rendering is the number rendered |
| Controller.ParseIntOfWord | backend/src/controllers/agentController.ts:125 | `parseInt` of a text starting with a letter is NaN |
| NLCreator.FirstMatch | src/pages/NLAgentCreator.tsx:214-237 | An if-chain of rules returns the label of the first rule that fires, or the default when none does |
| NLCreator.FirstFiring | src/pages/NLAgentCreator.tsx:214-219 | The first rule that fires, with none firing before it |
| NLCreator.DetectTriggers | src/pages/NLAgentCreator.tsx:214-219 | Always exactly one trigger label |
| NLCreator.TriggerOrder | src/pages/NLAgentCreator.tsx:214-219 | email/gmail gives the e-mail trigger, else every/daily the schedule trigger, else when/if the event trigger, else the webhook trigger |
| NLCreator.DetectSchedule | src/pages/NLAgentCreator.tsx:231-237 | The schedule is "⚡ Real-time" exactly when no schedule rule fires |
| NLCreator.ScheduleOrder | src/pages/NLAgentCreator.tsx:231-237 | daily/every day, then sunday/monday, then morning, then 8pm/evening, first match wins, real time otherwise |
| NLCreator.ScheduleRulesFire | src/pages/NLAgentCreator.tsx:232-235 | Each of the four schedule rules fires exactly when the text holds one of its keywords |
| NLCreator.PairRule | src/pages/NLAgentCreator.tsx:215-227 | A two-keyword rule fires exactly when one of the two keywords occurs |
| NLCreator.DetectActions | src/pages/NLAgentCreator.tsx:221-229 | The rules are applied one after another, each firing rule appending its label, and the generic action replaces an empty list |
| NLCreator.ApplyRule | src/pages/NLAgentCreator.tsx:223-227 | One rule appends its label exactly when it fires |
| NLCreator.FiredStep | src/pages/NLAgentCreator.tsx:223-227 | Checking one more rule appends its label exactly when it fires, and changes nothing else |
| NLCreator.FiredMembers | src/pages/NLAgentCreator.tsx:222-227 | A label is collected exactly when a rule carrying it fires |
| NLCreator.ActionsShape | src/pages/NLAgentCreator.tsx:221-229 | The tool list is never empty; "✅ Execute Action" is in it exactly when no rule fires, and otherwise it holds exactly the labels of the rules that fire |
| NLCreator.GenerateWorkflow | src/pages/NLAgentCreator.tsx:120-212 | The generated nodes are the trigger followed by the mentioned stages, and each edge links a node to the next |
| NLCreator.AddTrigger | src/pages/NLAgentCreator.tsx:124-140 | The chain starts with the trigger node alone, and the next row is 150 |
| NLCreator.AddStage | src/pages/NLAgentCreator.tsx:143-159 | A stage the text mentions is pushed at the current row, linked from the last node, and becomes the last node; the chain invariant is kept |
| NLCreator.ChainUnrolled | src/pages/NLAgentCreator.tsx:143-209 | The chain over the four stages is built one stage at a time in the order e-mail, AI, API, condition |
| NLCreator.ChainSnoc | src/pages/NLAgentCreator.tsx:143-209 | Each stage extends the chain built from the stages before it |
| NLCreator.StagesFresh | src/pages/NLAgentCreator.tsx:144-197 | The trigger and the four stage nodes all have different ids |
| NLCreator.ChainEdgesShape | src/pages/NLAgentCreator.tsx:156-208 | There is one edge fewer than nodes, and edge k links node k to node k+1 with id `e-<source>-<target>` |
| NLCreator.ChainShape | src/pages/NLAgentCreator.tsx:124-209 | The chain is the trigger followed by the included stages in order, node k on row 50 + 100k |
| NLCreator.IncludedMembers | src/pages/NLAgentCreator.tsx:143-196 | A stage is included exactly when the text mentions one of its keywords |
| NLCreator.IncludedFresh | src/pages/NLAgentCreator.tsx:144-197 | Inclusion keeps distinct ids distinct |
| NLCreator.WorkflowNodes | src/pages/NLAgentCreator.tsx:120-211 | The nodes `generateWorkflow` returns; `WorkflowShape` and `ChainShape` state their order, ids and positions |
| NLCreator.WorkflowShape | src/pages/NLAgentCreator.tsx:124-209 | The first node is `trigger-1`, a schedule trigger exactly when the text says "every" or "daily"; node k sits at (100, 50 + 100k); all ids differ |
| NLCreator.StageNodeIncluded | src/pages/NLAgentCreator.tsx:143-209 | Each optional node is in the graph exactly when the text mentions one of its keywords |
| NLCreator.MentionedStageHasNode | src/pages/NLAgentCreator.tsx:143-209 | A mentioned stage has its node in the graph |
| NLCreator.NodeStageMentioned | src/pages/NLAgentCreator.tsx:143-209 | A node with a stage's id is there only because the text mentions that stage |
| NLCreator.EmailNodeIncluded | src/pages/NLAgentCreator.tsx:143-159 | The e-mail node is present exactly when the text says "email" or "send" |
| NLCreator.AgentName | src/pages/NLAgentCreator.tsx:89 | The first five space-separated words, joined by spaces, then "..."; `NameShape` states its relation to the input |
| NLCreator.NameShape | src/pages/NLAgentCreator.tsx:89 | The name is a prefix of the input followed by "...". It is the whole input plus "..." when the input has at most five words; otherwise, split at spaces, it gives back exactly the first five words |
| Text.SplitJoin | src/pages/NLAgentCreator.tsx:89 | Splitting a join of separator-free words at the separator gives back exactly those words |
| NLCreator.HandleCreate | src/pages/NLAgentCreator.tsx:36-99 | A blank or white-space input creates nothing. Otherwise the draft has id `agent_<now>`, the derived name, the input as description, the generated graph, status "draft", and the detected trigger, tools and schedule |
| Text.TrimEmpty | src/pages/NLAgentCreator.tsx:37 | `trim` leaves nothing exactly when the text is all white space |
| Text.JoinSplit | src/pages/NLAgentCreator.tsx:89 | Joining the parts of a split with the separator gives back the text |
| Text.JoinPrefix | src/pages/NLAgentCreator.tsx:89 | Joining the first n parts gives a prefix of joining them all |
| Text.Trim | src/pages/NLAgentCreator.tsx:37 | `trim` never lengthens the text and leaves no white space at either end |
| Text.TrimIsMiddle | src/pages/NLAgentCreator.tsx:37 | `trim` removes exactly a white-space prefix and a white-space suffix |
| Text.TrimOfTrimmed | backend/src/services/smartAgentExecutor.ts:174 | `trim` leaves a text with no white space at either end unchanged |
| Text.TrimAround | backend/src/services/smartAgentExecutor.ts:171-174 | White space around a trimmed text is exactly what `trim` removes |
| Text.RemoveAll | backend/src/services/smartAgentExecutor.ts:173 | A global literal replacement by the empty string never lengthens the text |
| Text.Split | src/pages/NLAgentCreator.tsx:89 | `split` returns at least one part, and no part holds the separator |
| Text.SplitWithoutSeparator | src/pages/NLAgentCreator.tsx:89 | A text without the separator splits into itself alone |
| Text.Utf16Length | backend/src/controllers/agentController.ts:88 | The UTF-16 length lies between the number of characters and twice that number |
| AgentStore.IndexOf | frontend/src/services/agentService.ts:71 | `findIndex` returns the first document whose `_id` or `id` matches, or the length when none does |
| AgentStore.Stamped | frontend/src/services/agentService.ts:49 | The created document has the given fields, with `_id` = "agent_<now>" and `createdAt` overriding them |
| AgentStore.Merged | frontend/src/services/agentService.ts:74 | The updated document has the old fields, overridden by the new ones, then `updatedAt` |
| AgentStore.MockAgentStore.constructor | frontend/src/services/agentService.ts:36-39 | Nothing stored reads as the empty list |
| AgentStore.MockAgentStore.Create | frontend/src/services/agentService.ts:46-53 | Exactly one stamped document is appended at the end and returned; the earlier ones are unchanged |
| AgentStore.MockAgentStore.GetAll | frontend/src/services/agentService.ts:55-58 | The stored list is returned as it is |
| AgentStore.MockAgentStore.FindIndex | frontend/src/services/agentService.ts:71 | The loop finds the first matching position |
| AgentStore.MockAgentStore.GetById | frontend/src/services/agentService.ts:60-66 | The call throws "Agent not found" exactly when no document matches, and otherwise returns the first match |
| AgentStore.MockAgentStore.Update | frontend/src/services/agentService.ts:68-78 | With no match it throws "Agent not found" and leaves the list unchanged. Otherwise only the first match is replaced by its merge, and the length and all other positions are unchanged |
| AgentStore.MockAgentStore.Delete | frontend/src/services/agentService.ts:80-86 | The list becomes the non-matching documents in order, and `{success: true}` is returned even when nothing matched |
| AgentStore.KeptMembers | frontend/src/services/agentService.ts:83 | A document survives a delete exactly when it was stored and does not match |
| AgentStore.Kept | frontend/src/services/agentService.ts:83 | No kept document matches the deleted id, and the list never grows |
| AgentStore.KeptAppend | frontend/src/services/agentService.ts:83 | Deleting keeps the stored order |
| AgentStore.KeptAll | frontend/src/services/agentService.ts:83-85 | A delete leaves the list as it was exactly when nothing matches |
| AgentStore.DeletedIsGone | frontend/src/services/agentService.ts:63-83 | After a delete, looking the id up finds nothing |
| AgentStore.CreatedIsFound | frontend/src/services/agentService.ts:49-63 | A created agent is found under its own `_id` unless an earlier document already answers to it |
| AgentStore.IndexOfAppend | frontend/src/services/agentService.ts:71 | A lookup in a concatenation searches the second part only when the first has no match |
| Website.FindFrom | frontend/src/pages/WebsiteBuilder.tsx:74 | The first occurrence of a pattern at or after a position, and none exactly when there is none |
| Website.FindFromIs | frontend/src/pages/WebsiteBuilder.tsx:74 | An occurrence with no earlier start character after the position is the one found |
| Website.FindFromAbsent | frontend/src/pages/WebsiteBuilder.tsx:74 | A pattern whose first character does not occur is never found |
| Website.LazyMatch | frontend/src/pages/WebsiteBuilder.tsx:74 | The capture of the lazy fence expression, found by first occurrences; `LazyMatchSpec` states that this is the regular expression's match |
| Website.LazyMatchSpec | frontend/src/pages/WebsiteBuilder.tsx:74 | The model of `match` fails exactly when no opening fence has a closing fence after it. Otherwise it captures the leftmost match with the nearest closing fence, as the lazy expression does |
| Website.Extract | frontend/src/pages/WebsiteBuilder.tsx:74-79 | The cleaned page never has leading or trailing white space |
| Website.HtmlBlockExtracted | frontend/src/pages/WebsiteBuilder.tsx:74-76 | An "```html" block with a non-empty body yields that body, trimmed |
| Website.HtmlBlockMatched | frontend/src/pages/WebsiteBuilder.tsx:74 | The html expression captures the text between the first "```html" and the next "```" |
| Website.UnfencedReplyTrimmed | frontend/src/pages/WebsiteBuilder.tsx:77-79 | A reply without a backtick is only trimmed |
| Website.EmptyHtmlCaptureFallsBack | frontend/src/pages/WebsiteBuilder.tsx:74-78 | When the html expression matches with an empty capture, the bare expression is not tried and the strip branch runs |
| Website.BareFenceCapturesTag | frontend/src/pages/WebsiteBuilder.tsx:74 | On the same text the bare expression would have captured "html" |
| Website.StripEmptyHtml | frontend/src/pages/WebsiteBuilder.tsx:78 | Removing every "```html" and then every "```" from "```html```" leaves nothing |
| Website.OutputText | frontend/src/pages/WebsiteBuilder.tsx:67-71 | String output passes through unchanged; any other output is exactly what `JSON.stringify` makes of it, including its failure |
| Website.Generated | frontend/src/pages/WebsiteBuilder.tsx:62-86 | A failed AI call or a failed stringify ends in that error; otherwise the page is the cleaned output text, and it is always trimmed |
| Website.ClosingLine | frontend/src/pages/WebsiteBuilder.tsx:82-86 | The closing line is an error line exactly when the generation failed |
| Website.GenerationLogsShape | frontend/src/pages/WebsiteBuilder.tsx:38-86 | Every generation logs the three preamble lines and ends with exactly one closing line, which is an error exactly when no page came out; no other line is an error |
| Website.WebsiteBuilderPage.constructor | frontend/src/pages/WebsiteBuilder.tsx:11-15 | The page starts empty, with the "modern" style |
| Website.WebsiteBuilderPage.HandleGenerate | frontend/src/pages/WebsiteBuilder.tsx:27-90 | An empty description raises the alert, makes no AI call and changes nothing. Otherwise the AI is asked once, the logs are the generation's lines, the shown page is the cleaned reply (or none after a failure), and loading ends off |
| Website.WebsiteBuilderPage.RecordReply | frontend/src/pages/WebsiteBuilder.tsx:64-86 | The answer's lines are appended and the cleaned page is shown |
| Templates.FindById | src/lib/templateRegistry.ts:210 | `find` returns a template with that id, and returns none exactly when no template has it |
| Templates.GetTemplateById | src/lib/templateRegistry.ts:209-211 | The registry lookup returns a registry template whose id equals the argument, and undefined exactly when no template has that id |
| Templates.TableIdsDistinct | src/lib/templateRegistry.ts:27-207 | The registry's ids are pairwise distinct |
| Templates.FindByOwnId | src/lib/templateRegistry.ts:210 | With distinct ids, looking up an entry's id finds that entry |
| Templates.LookupUnambiguous | src/lib/templateRegistry.ts:27-211 | Every registry template is found under its own id |
| Templates.TableInitials | src/lib/templateRegistry.ts:27-207 | Each registry id is non-empty and starts with a letter of its own |
| Templates.InitialsDistinct | src/lib/templateRegistry.ts:27-207 | These first letters are pairwise distinct |
| Templates.TableWellFormed | src/lib/templateRegistry.ts:27-207 | Every template has a required input, and every drop-down offers at least one choice |
| Templates.FirstInputsRequired | src/lib/templateRegistry.ts:27-207 | Every template's first input is required |
| Templates.SelectsHaveOptions | src/lib/templateRegistry.ts:27-207 | Every `select` input carries a non-empty options list |
| Templates.UniqueMembers | src/components/templates/TemplatesGallery.tsx:12 | The deduplicated categories contain each category exactly once |
| Templates.Unique | src/components/templates/TemplatesGallery.tsx:12 | Deduplicating never lengthens the list |
| Templates.UniqueOrder | src/components/templates/TemplatesGallery.tsx:12 | The deduplicated categories follow the order of first appearance |
| Templates.FirstIndexAppend | src/components/templates/TemplatesGallery.tsx:12 | Appending does not move the first occurrence of an earlier element |
| Templates.Categories | src/components/templates/TemplatesGallery.tsx:12 | The tabs start with "All" |
| Templates.OfCategory | src/components/templates/TemplatesGallery.tsx:16 | The templates kept for a category all belong to it, and there are no more of them than in the table |
| Templates.Filtered | src/components/templates/TemplatesGallery.tsx:14-16 | The "All" tab shows the whole table; any other tab shows exactly the templates of that category |
| Templates.OfCategoryMembers | src/components/templates/TemplatesGallery.tsx:16 | A category filter keeps exactly the templates of that category |
| Templates.OfCategoryAppend | src/components/templates/TemplatesGallery.tsx:16 | The filter keeps table order |
| Templates.EmptyStateIff | src/components/templates/TemplatesGallery.tsx:14-62 | With a non-empty table, the empty-state message shows exactly for a filter that is not one of the tabs |
| Templates.DisplayedNodes | src/components/templates/TemplatesGallery.tsx:49 | A card shows the template's node count, or 5 when that is missing or 0 |
| TemplatePage.Assigned | src/pages/TemplatePage.tsx:35 | The answers after `{...inputs, [id]: value}`; `AssignedLookup` and `AssignedKeys` state the new values and the key order |
| TemplatePage.AssignedLookup | src/pages/TemplatePage.tsx:34-36 | Setting an answer sets that key to the value and leaves every other key's value as it was |
| TemplatePage.Lookup | src/pages/TemplatePage.tsx:55 | `inputs[key]` is undefined when no answer has that key, and otherwise the value of the first answer with it |
| TemplatePage.AssignedKeys | src/pages/TemplatePage.tsx:35 | Setting an answer keeps the key order, and a new key goes last |
| TemplatePage.KeyIndexIs | src/pages/TemplatePage.tsx:35 | The first position holding a key is fixed by the keys before it |
| TemplatePage.TemplatePageState.HandleInputChange | src/pages/TemplatePage.tsx:34-36 | The answers become the old ones with that key set |
| TemplatePage.MissingMembers | src/pages/TemplatePage.tsx:55 | A field is missing exactly when it is required and its answer is falsy (empty, undefined, 0 or false) |
| TemplatePage.MissingFields | src/pages/TemplatePage.tsx:55 | Every field reported missing is required and has a falsy answer, and there are no more of them than fields |
| TemplatePage.NothingMissing | src/pages/TemplatePage.tsx:55-56 | Nothing is missing exactly when every required field has a truthy answer |
| TemplatePage.FreshPageIsIncomplete | src/pages/TemplatePage.tsx:55-58 | On a fresh page every registry template has a missing field, so a run is refused |
| TemplatePage.MissingMessage | src/pages/TemplatePage.tsx:57 | The refusal starts with "Please fill in required fields: " |
| TemplatePage.Prompt | src/pages/TemplatePage.tsx:78-81 | The head naming the template, then one line per answer; `BuildPrompt` computes it with the source's loop |
| TemplatePage.BuildPrompt | src/pages/TemplatePage.tsx:78-81 | The loop appends one `- key: value` line per answer, in insertion order, to the head naming the template |
| TemplatePage.EntryLinesAppend | src/pages/TemplatePage.tsx:79-81 | The prompt lines of a concatenation are those of each part, in order |
| TemplatePage.NewAnswerLastLine | src/pages/TemplatePage.tsx:34-81 | A new answer adds its line at the end of the prompt |
| TemplatePage.FinalOutput | src/pages/TemplatePage.tsx:92-93 | String output passes through unchanged; other output is the pretty-printed JSON |
| TemplatePage.Run | src/pages/TemplatePage.tsx:47-114 | The screen a run ends on; `RunShape` states its shape for every outcome |
| TemplatePage.RunShape | src/pages/TemplatePage.tsx:47-114 | A run ends with exactly one of a result and an error. When it fails it logs one error line, the last one, carrying the error's message; otherwise it logs no error line. A refused run logs only that line, and a validated run succeeds exactly when the endpoint answers |
| TemplatePage.ProgressLinesKinds | src/pages/TemplatePage.tsx:61-75 | Six progress lines are logged, none an error |
| TemplatePage.TemplatePageState.constructor | src/pages/TemplatePage.tsx:13-17 | A fresh page has no answers, result, error or logs |
| TemplatePage.TemplatePageState.HandleRun | src/pages/TemplatePage.tsx:47-114 | The prompt is sent exactly when nothing is missing. The page then shows the result or error and the log lines that the run's outcome calls for, and loading is off after every run |
| TemplatePage.TemplatePageState.Call | src/pages/TemplatePage.tsx:86-110 | After the endpoint answers, the page shows the result with its two success lines, or the error with its error line |
| TemplatePage.TemplatePageState.Fail | src/pages/TemplatePage.tsx:108-110 | An error shows its message, or the default text when the message is empty, and appends one error line |

## Left out

- HTTP and the network are not modelled. This covers the axios call to the Python engine and its error wrapping in `runAgnoAgent`, `RealAgentService`, the Flask engine and the Express routes. The AI engine is a parameter that answers or throws.
- The spreadsheet and e-mail integrations are parameters indexed by step position, each succeeding or throwing.
- MongoDB persistence is not modelled. Stored records and agents are in-memory lists, a record's updates are field assignments, and every store write is taken to succeed.
- Controller.GetAgents: the `updatedAt` descending sort is not modelled. The contract states the owner filter only.
- Controller.ExecutionsLimit: the Mongo sort and `limit` applied with that value are not modelled.
- The 500 replies of the handlers' `catch` blocks for store failures are not modelled.
- `executeAgentWorkflow` (the workflow executor) is outside this model. The workflow path is only recorded as started.
- Fire-and-forget execution (`.then`/`.catch`), `setTimeout` delays and console output are not modelled.
- `simulateExecution` is not modelled: nothing calls it.
- `localStorage` and the JSON (de)serialisation of the mock store are not modelled. The stored list is the `agents` field of `MockAgentStore`.
- Clock readings (`Date.now`, `new Date()`) are parameters.
- Log-line ids and timestamps in the page terminals are left out. A page log line is its message and kind only.
- Website.WebsiteBuilderPage.HandleGenerate: the wording of the page prompt is not modelled. The AI engine receives the description and style, which is all the prompt depends on.
- The `downloadCode` helper, the preview tabs and all rendering are UI and not modelled. Icons and colours of templates are also left out.
- The not-found screen of the template page is not modelled.
- The progress log of `handleCreate`, the `saveAgent` call and its failure log line are not modelled. The model ends with the draft agent the page assembles.
- In `generateWorkflow` the condition block does not advance `lastNodeId` or the row. It is the last block, so nothing observes the difference, and the model advances them uniformly.
- TemplatePage.Lookup: `inputs[id]` is read as an own property only. Properties inherited by a plain object, such as `constructor`, are not modelled.
- Object key order for integer-like keys is not modelled. Answers keep insertion order, which `Object.entries` follows for all other keys.
- TemplatePage.MissingMessage: the contract states the fixed prefix. The rest of the message is the labels joined by ", ", which the definition spells out.
- Js.Value: numbers are integers. Fractions, NaN and infinities are not modelled, and neither is the formatting `JSON.stringify` applies (it is a parameter).
- Executor.LogExecution: every log write is taken to succeed. The store failure that `logExecution` catches and only reports on the console (smartAgentExecutor.ts lines 199-201) is not modelled.
- The TypeError messages of the step listing follow the wording of the V8 engine.
- A parsed reply is read as its steps and summary. The planner result records that reading rather than the raw JSON value. So a reply that parses to null, or to an object with further fields, is recorded as a plan without those details.
- A step's fields are held as the text they render to. Values of other types that render to "email" or "data_fetch" are not told apart from those strings.
- A missing agent description is held as the empty string. A direct call of `executeSmartAgent` for such an agent would log and prompt with "undefined"; the run handler, its only caller, never makes that call.
- Controller.ExecutionsLimit: the `limit` query parameter is absent or a single string. A repeated parameter, which the query parser turns into an array that `parseInt` reads as "5,7", is not modelled.
