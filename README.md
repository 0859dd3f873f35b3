# Soln-Agents core, modelled in Dafny

This project models the deterministic core of the Soln-Agents repository and
proves what that core promises. It covers:

- the crewai-rust execution engine: agents, tasks and crews with their
  validating constructors, crew validation, and the sequential, Rayon and
  Tokio execution strategies, with the work of a task as an injected
  function;
- the Python pipeline around it: the optimised CrewAI integration
  (dependency- and priority-aware task ordering, batching with one agent per
  name), the team workflow's role table, and the crew service client;
- the tree-walking interpreter under `interpreter/`: scanner, recursive
  descent parser, environments, static resolver, values and evaluator;
- AutoGroq's project tracker, its tool, agent, project and workflow records
  with their dictionary forms, its text and JSON scraping helpers and
  `chunk_text`;
- SolnAI's prompt chains and their utilities, text processing, message
  storage, API types, configuration, error handling, middleware and YouTube
  id extraction;
- the goose tools' file, token counting, text processing, code and web
  extraction helpers and the user store.

Code that changes state step by step is written as Dafny classes and
methods with loop invariants, each proved against a function that states
the result; code that only computes is written as functions, with lemmas
for the properties the source promises. Language-model calls, HTTP
services, `json.loads`, clocks, bcrypt and other foreign code are
parameters.

Each module's opening comment names the source file it models; the modules live in these files:

- CrewTasks, CrewAgents, CrewModel, CrewErrors, CrewExecution: crewai_tasks.dfy, crewai_agents.dfy, crewai_crew.dfy, crewai_errors.dfy, crewai_execution.dfy
- OptimizedIntegration, OptimizedBatches, OptimizedWorkflow, CrewServiceIntegration: optimized_integration.dfy, optimized_batches.dfy, optimized_workflow.dfy, service_integration.dfy
- LoxTokens, LoxLexer, LoxAst, LoxParser, LoxEnvironment, LoxResolver, LoxValues, LoxInterpreter: lox_*.dfy
- CurrentProject, ToolModel, AgentModel, ProjectModel, WorkflowModel, TextUtils, UiUtils, Helpers: current_project.dfy, tool_model.dfy, agent_model.dfy, project_model.dfy, workflow_model.dfy, text_utils.dfy, ui_utils.dfy, helpers.dfy
- BranchingChain, RecursiveChain, ChainUtils, TextProcessor, TextProcessingNode, Db, Api, SolnConfig, ErrorHandling, Middleware, YouTube: branching_chain.dfy, recursive_chain.dfy, chain_utils.dfy, text_processor.dfy, text_processing_node.dfy, db.dfy, api.dfy, soln_config.dfy, error_handling.dfy, middleware.dfy, youtube.dfy
- GooseFileUtils, GooseTokenCounter, GooseTextProcessing, GooseExtractCode, GooseExtractWeb, GooseAuth: goose_*.dfy
- Base, PyJson: base.dfy, py_json.dfy: shared sequence, string and JSON helpers

## Model

| member | source | states |
|---|---|---|
| CrewTasks.NewTask | crewai-rust/crewai-core/src/tasks.rs:41-58 | succeeds iff description and expected output are non-empty, description checked first; on success every argument is stored and the status is Pending |
| CrewTasks.DisplayStatusInjective | crewai-rust/crewai-core/src/tasks.rs:23-32 | the four Display renderings ("Pending", "Running", "Completed", "Failed: <reason>") are pairwise distinct and keep the reason |
| CrewTasks.SetStatus | crewai-rust/crewai-core/src/tasks.rs:71-77 | any status may be written and get_status returns it; no other field changes |
| CrewTasks.SerdeRoundTrip | crewai-rust/crewai-core/src/tasks.rs:5-13 | status is skipped by serde, so a deserialised task keeps every other field and starts Pending |
| CrewAgents.NewAgent | crewai-rust/crewai-core/src/agents.rs:12-22 | succeeds iff name and role are non-empty, name checked first; fields stored unchanged |
| CrewAgents.DescribeRole | crewai-rust/crewai-core/src/agents.rs:24-30 | names the agent and the role, and has an expertise clause iff expertise is Some |
| CrewExecution.SequentialFailFast | crewai-rust/crewai-core/src/execution.rs:8-31 | with the first failure at k: tasks before k Completed, task k Failed naming its id, later tasks untouched, the error names task k |
| CrewExecution.ExecuteTasksSequentially | crewai-rust/crewai-core/src/execution.rs:8-31 | the in-place loop equals the reference run; every attempted task is written Running and then its terminal status |
| CrewExecution.ExecuteTasksRayon | crewai-rust/crewai-core/src/execution.rs:33-81 | every task is attempted; Err iff some task fails, with the messages joined by ", " in list order |
| CrewErrors.DisplayEndsWithPayload | crewai-rust/crewai-core/src/errors.rs:3-25 | every error kind renders as a non-empty prefix followed by its whole payload |
| CrewTasks.DefaultStatus | crewai-rust/crewai-core/src/tasks.rs:34-38 | the default status is Pending |
| CrewTasks.SetStatusLastWins | crewai-rust/crewai-core/src/tasks.rs:71-77 | writing twice keeps only the last status, and writing back the current status changes nothing |
| CrewTasks.Execute | crewai-rust/crewai-core/src/tasks.rs:60-69 | the placeholder execution always succeeds |
| CrewTasks.Deserialize | crewai-rust/crewai-core/src/tasks.rs:5-13 | a deserialised task starts Pending, the skipped field's default |
| CrewAgents.DescribeRoleDeterminesExpertise | crewai-rust/crewai-core/src/agents.rs:24-30 | for the same name and role, two descriptions are equal exactly when the expertise is equal |
| CrewModel.NewCrewCheck | crewai-rust/crewai-core/src/crew.rs:16-27 | Crew::new fails iff the name is empty (MissingField, checked first) or the process is not sequential, parallel or async (InvalidConfig) |
| CrewModel.Crew.New | crewai-rust/crewai-core/src/crew.rs:16-35 | the validation error, or a fresh crew with the name and process given and no agents and tasks |
| CrewModel.Crew.constructor | crewai-rust/crewai-core/src/crew.rs:29-34 | a crew whose name and process are valid starts with empty agent and task lists |
| CrewModel.Crew.AddAgent | crewai-rust/crewai-core/src/crew.rs:37-39 | the agent is appended and nothing else changes |
| CrewModel.Crew.AddTask | crewai-rust/crewai-core/src/crew.rs:41-43 | the task is appended and nothing else changes |
| CrewModel.FindAgent | crewai-rust/crewai-core/src/crew.rs:45-47 | the first agent with that name, and None exactly when no agent has it |
| CrewModel.Crew.GetAgentByName | crewai-rust/crewai-core/src/crew.rs:45-47 | the first agent of the crew with that name, None exactly when there is none |
| CrewModel.FirstDangling | crewai-rust/crewai-core/src/crew.rs:61-69 | the first task whose agent name is set and names no agent, None exactly when there is no such task |
| CrewModel.ValidateLists | crewai-rust/crewai-core/src/crew.rs:49-72 | Ok exactly when there is an agent, a task and no dangling reference; otherwise the first violation's message in the order agents, tasks, first dangling task |
| CrewModel.Crew.Validate | crewai-rust/crewai-core/src/crew.rs:49-72 | validate succeeds exactly when the crew is well formed |
| CrewModel.BuildThenValidate | crewai-rust/crewai-core/src/crew.rs:37-72 | a crew built by adding agents and tasks validates exactly when both lists are non-empty and every set agent name is the name of an added agent |
| CrewModel.Crew.ExecuteSequential | crewai-rust/crewai-core/src/crew.rs:74-80 | a failed validation is returned with the tasks unchanged; otherwise the tasks and result are those of the sequential run |
| CrewModel.Crew.ExecuteParallelRayon | crewai-rust/crewai-core/src/crew.rs:82-88 | the validation error, or the thread-pool aggregate, Ok exactly when every task succeeds |
| CrewModel.Crew.ExecuteConcurrentTokio | crewai-rust/crewai-core/src/crew.rs:90-96 | the validation error, or the concurrent aggregate, Ok exactly when no activity panics and every task succeeds |
| CrewModel.Crew.Execute | crewai-rust/crewai-core/src/crew.rs:98-113 | sequential and parallel run their strategies; async and unknown kinds are refused with their messages and change nothing |
| CrewModel.Crew.ExecuteAsync | crewai-rust/crewai-core/src/crew.rs:115-126 | every kind runs its strategy, async the concurrent one; an unknown kind is refused and changes nothing |
| CrewExecution.Settled | crewai-rust/crewai-core/src/execution.rs:48-61 | an attempted task keeps its data and ends Completed exactly when its work succeeds, else Failed with "Task <id> failed: <error>" |
| CrewExecution.SequentialAllSucceed | crewai-rust/crewai-core/src/execution.rs:8-31 | when every task succeeds every task ends Completed and the run succeeds |
| CrewExecution.FailFastState | crewai-rust/crewai-core/src/execution.rs:10-26 | a task list agreeing with the run stopped at the first failure is the run's final state, and the error names that task |
| CrewExecution.AllSucceedState | crewai-rust/crewai-core/src/execution.rs:10-30 | a task list agreeing with the all-successful run is its final state |
| CrewExecution.RunningKeepsWork | crewai-rust/crewai-core/src/execution.rs:12-14 | marking a task Running changes neither its work nor its failure message |
| CrewExecution.FailureMessages | crewai-rust/crewai-core/src/execution.rs:64-71 | at most one message per task |
| CrewExecution.FailureMessagesEmptyIff | crewai-rust/crewai-core/src/execution.rs:64-77 | there is no failure message exactly when every task succeeds |
| CrewExecution.FailureMessagesSingle | crewai-rust/crewai-core/src/execution.rs:55-71 | with one failing task, its message is the only one |
| CrewExecution.Aggregate | crewai-rust/crewai-core/src/execution.rs:73-80 | Ok exactly when there is no message; otherwise an ExecutionError starting with the header |
| CrewExecution.CollectFailures | crewai-rust/crewai-core/src/execution.rs:64-71 | the collecting pass yields the failure messages in list order |
| CrewExecution.ActivityStatus | crewai-rust/crewai-core/src/execution.rs:99-122 | a resolved activity's status is never Pending, and is Running exactly when the work panicked |
| CrewExecution.TokioErrors | crewai-rust/crewai-core/src/execution.rs:128-138 | at most one error per activity |
| CrewExecution.TokioErrorsEmptyIff | crewai-rust/crewai-core/src/execution.rs:128-147 | the concurrent run fails exactly when some activity panics or some task fails |
| CrewExecution.TokioMatchesRayonWithoutPanics | crewai-rust/crewai-core/src/execution.rs:33-148 | without panics the concurrent strategy reports the same messages as the thread-pool strategy |
| CrewExecution.ExecuteTasksTokio | crewai-rust/crewai-core/src/execution.rs:84-148 | the error joins every activity's error in spawn order; Ok exactly when all finish Ok; each status cell ends in its activity's status |
| CrewExecution.JoinAll | crewai-rust/crewai-core/src/execution.rs:128-138 | the joining pass yields every activity's error, "Task panicked: ..." for a panic, in spawn order |
| OptimizedIntegration.CreateTask | AutoGroq/src/integrations/optimized_crewai_integration.py:173-208 | the engine's constructor decides success; on failure the metadata is untouched; on success the priority and the dependencies (None as []) are recorded under the id and every other entry is kept |
| OptimizedIntegration.Ids | AutoGroq/src/integrations/optimized_crewai_integration.py:394 | the ids of the tasks, position by position |
| OptimizedIntegration.AllInMeans | AutoGroq/src/integrations/optimized_crewai_integration.py:394 | the element-wise all(...) check holds exactly when every dependency is among the ids |
| OptimizedIntegration.InsertPermutes | AutoGroq/src/integrations/optimized_crewai_integration.py:378-381 | inserting into the sorted prefix adds exactly that element |
| OptimizedIntegration.SortPermutes | AutoGroq/src/integrations/optimized_crewai_integration.py:378-381 | sorting by priority is a permutation |
| OptimizedIntegration.SortIsSorted | AutoGroq/src/integrations/optimized_crewai_integration.py:378-381 | the result is ordered by descending priority |
| OptimizedIntegration.SortIsStable | AutoGroq/src/integrations/optimized_crewai_integration.py:378-381 | tasks of equal priority keep their input order, as in Python's stable sort |
| OptimizedIntegration.SortOfSorted | AutoGroq/src/integrations/optimized_crewai_integration.py:402-405 | re-sorting an already sorted list changes nothing |
| OptimizedIntegration.PlacedAfterDepsMeans | AutoGroq/src/integrations/optimized_crewai_integration.py:385-399 | a placed list follows its dependencies exactly when each task's dependencies are ids of tasks before it |
| OptimizedIntegration.SplitReady | AutoGroq/src/integrations/optimized_crewai_integration.py:370-375 | tasks without dependencies are ready, the others wait, together they are the input, and with no dependencies at all everything is ready in input order |
| OptimizedIntegration.ReleaseWaiting | AutoGroq/src/integrations/optimized_crewai_integration.py:391-399 | the waiting tasks split into those whose dependencies are all placed and those whose are not, losing none |
| OptimizedIntegration.OrderInvStep | AutoGroq/src/integrations/optimized_crewai_integration.py:385-405 | placing the top ready task and releasing and re-sorting keeps the loop invariant |
| OptimizedIntegration.OptimizeTaskOrder | AutoGroq/src/integrations/optimized_crewai_integration.py:343-417 | the result is a permutation of the input; the tasks placed by the main loop each follow all of their dependencies; the leftover tail is in priority order and none of it has its dependencies placed; without dependencies the result is the stable priority sort |
| OptimizedIntegration.OrderFinal | AutoGroq/src/integrations/optimized_crewai_integration.py:407-417 | appending the priority-sorted leftovers completes a permutation of the input |
| OptimizedBatches.Cap | AutoGroq/src/integrations/optimized_crewai_integration.py:431-434 | the flush threshold is at least 1 and equals task_batch_size when that is at least 1 |
| OptimizedBatches.ChunksFlatten | AutoGroq/src/integrations/optimized_crewai_integration.py:430-443 | batching loses and reorders no task |
| OptimizedBatches.ChunksShape | AutoGroq/src/integrations/optimized_crewai_integration.py:430-443 | every batch holds between 1 and n tasks and every batch but the last exactly n |
| OptimizedBatches.BatchAgent | AutoGroq/src/integrations/optimized_crewai_integration.py:461-486 | a task's batch agent is named after its agent name, or "DefaultAgent" when it has none, with a non-empty role |
| OptimizedBatches.AssignAgentMeaning | AutoGroq/src/integrations/optimized_crewai_integration.py:484-486 | leaving the batch only sets the agent name, to the name of the task's batch agent |
| OptimizedBatches.BatchAgentsNames | AutoGroq/src/integrations/optimized_crewai_integration.py:459-486 | the batch crew's agents have distinct names, and every task finds its agent among them |
| OptimizedBatches.BatchCrewValid | AutoGroq/src/integrations/optimized_crewai_integration.py:453-494 | the temporary crew of a non-empty batch always passes validation |
| OptimizedBatches.BatchOutcomeMeaning | AutoGroq/src/integrations/optimized_crewai_integration.py:445-494 | an empty batch is refused for lack of an agent; a non-empty one fails exactly when one of its tasks fails |
| OptimizedBatches.BatchName | AutoGroq/src/integrations/optimized_crewai_integration.py:454 | the temporary crew is named "batch_" followed by the clock's seconds |
| OptimizedBatches.HandleBatchTask | AutoGroq/src/integrations/optimized_crewai_integration.py:462-486 | one task of the first pass: an agent is added only for a new name, and an agent-less task is assigned to "DefaultAgent" |
| OptimizedBatches.AddBatchAgents | AutoGroq/src/integrations/optimized_crewai_integration.py:459-486 | the first pass adds one agent per name in first-use order and assigns agent-less tasks in place |
| OptimizedBatches.AddBatchTasks | AutoGroq/src/integrations/optimized_crewai_integration.py:488-490 | the second pass adds the batch's tasks in order |
| OptimizedBatches.ExecuteBatch | AutoGroq/src/integrations/optimized_crewai_integration.py:445-494 | the tasks of the batch are assigned in place and nothing else changes; the crew is a fresh parallel crew with the batch's agents and tasks; the result is the batch's run |
| OptimizedBatches.RunBatchesOkIff | AutoGroq/src/integrations/optimized_crewai_integration.py:419-443 | running non-empty batches succeeds exactly when every task succeeds, and then every task was run |
| OptimizedBatches.BatchingPreservesSuccess | AutoGroq/src/integrations/optimized_crewai_integration.py:419-443 | batched execution succeeds exactly when running all tasks at once would |
| OptimizedBatches.ExecuteParallelOptimized | AutoGroq/src/integrations/optimized_crewai_integration.py:419-443 | the loop's result is that of running the batches of the list in order, stopping at the first error; exactly the tasks handed to a batch are assigned |
| OptimizedWorkflow.TeamRoles | AutoGroq/src/workflows/optimized_workflow.py:603-740 | teams of 1, 2 and 3 get their fixed role lists; other sizes get the four base roles, the additional roles and the slice to the size |
| OptimizedWorkflow.GetTeamRoles | AutoGroq/src/workflows/optimized_workflow.py:603-740 | the loop appending the additional roles and the final slice yield the role table for the size |
| OptimizedWorkflow.TeamRolesLength | AutoGroq/src/workflows/optimized_workflow.py:735-740 | a non-negative size gives min(size, 7) roles; a negative size gives the Python slice of the four base roles |
| OptimizedWorkflow.TeamRolesLarge | AutoGroq/src/workflows/optimized_workflow.py:735-740 | teams of four or more start with the base roles and continue with the additional roles in listed order |
| OptimizedWorkflow.TeamRolesDependenciesEarlier | AutoGroq/src/workflows/optimized_workflow.py:603-740 | every dependency of a role names an earlier position, for every size |
| OptimizedWorkflow.TeamRolesConstructible | AutoGroq/src/workflows/optimized_workflow.py:603-740 | every role has a non-empty title and expected output, so the engine accepts the agents and tasks built from it |
| OptimizedWorkflow.AgentName | AutoGroq/src/workflows/optimized_workflow.py:483 | the agent name is "Agent-" followed by the position |
| OptimizedWorkflow.BuildAgents | AutoGroq/src/workflows/optimized_workflow.py:481-489 | the i-th role becomes agent "Agent-{i+1}" with the role's title and expertise |
| OptimizedWorkflow.BuildTasks | AutoGroq/src/workflows/optimized_workflow.py:491-501 | the i-th role becomes task i+1 described "{task_prefix} {task}" and assigned to "Agent-{i+1}", with its priority and dependencies recorded under i+1 and other metadata kept |
| OptimizedWorkflow.BuildAsync | AutoGroq/src/workflows/optimized_workflow.py:467-510 | the roles of the size, one agent and one task per role numbered from 1, and the metadata for every task |
| OptimizedWorkflow.BuiltListsWellFormed | AutoGroq/src/workflows/optimized_workflow.py:467-510 | the agents and tasks built for a non-empty team form a crew that passes validation |
| OptimizedWorkflow.BuiltDependenciesEarlier | AutoGroq/src/workflows/optimized_workflow.py:491-501 | every dependency recorded for task k is the id of a task built before it |
| CrewServiceIntegration.NewService | crewai-service/crewai_service_integration.py:11-41 | settings are stored as given; the URL is the truthy argument, else CREWAI_SERVICE_URL, else the local default; a None or empty LLM configuration becomes {} |
| CrewServiceIntegration.CreateAgent | crewai-service/crewai_service_integration.py:53-86 | every argument is stored as given and tools None or [] becomes [] |
| CrewServiceIntegration.CreateTask | crewai-service/crewai_service_integration.py:88-122 | every argument is stored as given and dependencies and context that are None or empty become [] |
| CrewServiceIntegration.ChooseConfig | crewai-service/crewai_service_integration.py:152 | a non-empty configuration wins, an empty one falls back to the service's |
| CrewServiceIntegration.ChooseConfigIdempotent | crewai-service/crewai_service_integration.py:152 | resolving the configuration again with the same fallback changes nothing |
| CrewServiceIntegration.Post | crewai-service/crewai_service_integration.py:168-195 | status 200 gives the decoded reply; another status an error naming the status and text; a request exception an error naming it |
| CrewServiceIntegration.SendCrew | crewai-service/crewai_service_integration.py:145-195 | no agents or no tasks give "No agents or tasks provided" without a request; otherwise one request with the resolved configuration |
| CrewServiceIntegration.BatchesDoNotRebatch | crewai-service/crewai_service_integration.py:165-166 | under the corrected guard no batch is empty or is batched again |
| CrewServiceIntegration.SplitBatches | crewai-service/crewai_service_integration.py:218-231 | the splitting loop yields the consecutive batches of the task list |
| CrewServiceIntegration.BatchReplies | crewai-service/crewai_service_integration.py:237-247 | one reply per batch, each batch sent as a crew named after its 1-based position |
| CrewServiceIntegration.ExecuteCrew | crewai-service/crewai_service_integration.py:124-195 | corrected (a batch never batches again): without agents or tasks, or when not batching, one guarded request; otherwise the combination of the batch replies, successful iff every batch is |
| CrewServiceIntegration.ExecuteInBatches | crewai-service/crewai_service_integration.py:197-260 | the combination is successful iff every batch reply is, holds the replies in order and counts the batches |
| CrewServiceIntegration.BatchesPartitionTasks | crewai-service/crewai_service_integration.py:218-231 | batching loses and reorders no task; every batch is non-empty and within the batch size, and only the last may be shorter |
| CrewServiceIntegration.ShouldBatchAgrees | crewai-service/crewai_service_integration.py:165 | for a batch size of at least 1 the corrected decision is the written one |
| CrewServiceIntegration.AsWrittenRebatchesForever | crewai-service/crewai_service_integration.py:165-166 | as written, a batch size below 1 batches a one-task list into itself again, so the recursion never ends |
| LoxTokens.KeywordType | interpreter/lexer/lexer.py:16-30 | only the thirteen reserved words have a keyword type |
| LoxLexer.IdentEnd | interpreter/lexer/lexer.py:100-101 | the identifier run ends at the first character that is not a letter, digit or '_' |
| LoxLexer.DigitsEnd | interpreter/lexer/lexer.py:111-112 | the digit run ends at the first non-digit |
| LoxLexer.QuoteEnd | interpreter/lexer/lexer.py:126-129 | the string body runs to the first '"' or the end of the source |
| LoxLexer.LineEnd | interpreter/lexer/lexer.py:74-75 | a comment runs to the first newline or the end of the source |
| LoxLexer.Step | interpreter/lexer/lexer.py:42-96 | a step that succeeds always moves the cursor forward within the source |
| LoxLexer.StepLine | interpreter/lexer/lexer.py:83-84 | the line counter grows by the newlines the step passed, and the token carries the new line |
| LoxLexer.StringLine | interpreter/lexer/lexer.py:124-132 | a string literal counts the newlines inside it, and its token carries the line of its end |
| LoxLexer.ScanEndsWithEof | interpreter/lexer/lexer.py:32-40 | a successful scan ends with exactly one EOF token, on the last line of the source |
| LoxLexer.ScanLinesOrdered | interpreter/lexer/lexer.py:32-40 | token lines never decrease and lie between the first line and the EOF line |
| LoxLexer.StepTokenNotEof | interpreter/lexer/lexer.py:42-96 | scan_token never adds an EOF token |
| LoxLexer.StepErrors | interpreter/lexer/lexer.py:87-96 | scan_token raises exactly on an unrecognised character, with its message, and on an unterminated string |
| LoxLexer.NumberEndShape | interpreter/lexer/lexer.py:109-122 | a number is digits, then a '.' and digits only when a digit follows the '.' |
| LoxLexer.StepWellShaped | interpreter/lexer/lexer.py:42-96 | every token one step adds is well shaped for its type |
| LoxLexer.ScanWellShaped | interpreter/lexer/lexer.py:32-40 | every token of a successful scan is well shaped |
| LoxLexer.UnescapeQuoteFree | interpreter/lexer/lexer.py:124-164 | a string value never holds a '"': the body stops at the first quote, so the escaped-quote branch never applies |
| LoxLexer.EscapedQuoteEndsString | interpreter/lexer/lexer.py:126-164 | a backslash before a quote does not escape it: the literal ends at that quote and keeps the backslash |
| LoxLexer.Lexer.constructor | interpreter/lexer/lexer.py:10-15 | a new scanner is at the start of the source on line 1 with no tokens |
| LoxLexer.Lexer.ScanTokens | interpreter/lexer/lexer.py:32-40 | the loop returns the tokens of the specification's scan, ending with EOF, or the first error raised |
| LoxLexer.Lexer.ScanToken | interpreter/lexer/lexer.py:42-96 | one call does what the specification's step says: the error, or the token added, the new cursor and the new line |
| LoxLexer.Lexer.SkipComment | interpreter/lexer/lexer.py:72-75 | the cursor moves to the end of the line and nothing else changes |
| LoxLexer.Lexer.Identifier | interpreter/lexer/lexer.py:98-107 | the cursor moves past the identifier and one token is added, typed by the keyword table |
| LoxLexer.Lexer.Number | interpreter/lexer/lexer.py:109-122 | the cursor moves past the number and one NUMBER token is added with its lexeme |
| LoxLexer.Lexer.Digits | interpreter/lexer/lexer.py:111-112 | the cursor moves past the digit run |
| LoxLexer.Lexer.String | interpreter/lexer/lexer.py:124-164 | the line counts the newlines of the body; at the end of the source the "Unterminated string" error; otherwise one STRING token with the processed body |
| LoxLexer.Lexer.Advance | interpreter/lexer/lexer.py:200-204 | returns the current character and moves past it |
| LoxLexer.Lexer.Match | interpreter/lexer/lexer.py:166-174 | consumes the expected character exactly when it is next |
| LoxLexer.Lexer.Peek | interpreter/lexer/lexer.py:176-180 | the current character, or NUL at the end |
| LoxLexer.Lexer.PeekNext | interpreter/lexer/lexer.py:182-186 | the character after the current one, or NUL past the end |
| LoxLexer.Lexer.AddToken | interpreter/lexer/lexer.py:206-209 | appends a token with the text from start to the cursor and the current line |
| LoxLexer.ProcessEscapes | interpreter/lexer/lexer.py:141-162 | the escape loop yields the specification's unescaped value |
| LoxLexer.OperatorStep | interpreter/lexer/lexer.py:46-68 | a single- or two-character operator consumes one or two characters and stays within the source |
| LoxLexer.SlashStep | interpreter/lexer/lexer.py:71-77 | a '/' consumes at least itself, a comment up to the newline, and stays within the source |
| LoxLexer.StringStep | interpreter/lexer/lexer.py:124-132 | a string literal that closes consumes at least its opening quote and stays within the source |
| LoxLexer.NumberStep | interpreter/lexer/lexer.py:109-122 | a number literal consumes at least its first digit and stays within the source |
| LoxLexer.IdentifierStep | interpreter/lexer/lexer.py:98-107 | an identifier or keyword consumes at least its first letter and stays within the source |
| LoxLexer.Lexer.ScanOperator | interpreter/lexer/lexer.py:61-68 | after '!', '=', '<' or '>' the cursor and token list are those of the operator step: the two-character form exactly when '=' follows |
| LoxLexer.Lexer.ScanSlash | interpreter/lexer/lexer.py:71-77 | after '/' the cursor and token list are those of the slash step: a comment to the newline without a token, or one SLASH token |
| LoxLexer.Lexer.ScanLiteral | interpreter/lexer/lexer.py:87-96 | the string, number, identifier and error branches of scan_token do what the specification's step says |
| LoxLexer.Lexer.StringContents | interpreter/lexer/lexer.py:126-129 | the body loop stops at the first quote or the end of the source and counts the newlines it passed |
| LoxLexer.StepNewlines | interpreter/lexer/lexer.py:83-84 | the starting line plus the newlines still ahead is the same before and after one step |
| LoxLexer.StringWellShaped | interpreter/lexer/lexer.py:124-164 | a string token's lexeme is quoted with no quote inside, and its value is the unescaped body |
| LoxLexer.IdentifierWellShaped | interpreter/lexer/lexer.py:98-107 | an identifier token's lexeme is a letter then letters or digits, typed IDENTIFIER or by the keyword table |
| LoxLexer.IdentifierTypeWord | interpreter/lexer/lexer.py:105-106 | a word is typed IDENTIFIER or as one of the keywords, never EOF, STRING, NUMBER or SLASH |
| LoxLexer.ScanProgram | interpreter/lexer/lexer.py:32-40 | a successful scan of a source ends with exactly one EOF token, on line 1 plus the source's newlines; lines never decrease and every token is well shaped |
| LoxParser.DesugarFor | interpreter/parser/parser.py:173-185 | with an initializer, a block of the initializer and the loop; without one, the loop itself |
| LoxParser.WhileFor | interpreter/parser/parser.py:173-183 | the loop runs the increment after the body, and a missing condition is true |
| LoxParser.DesugarForShaped | interpreter/parser/parser.py:146-186 | a for loop whose clauses are well formed desugars to a well-formed statement |
| LoxParser.BinaryShaped | interpreter/parser/parser.py:236-278 | a binary node built by one precedence level's loop is left-associative at that level |
| LoxParser.ErrorAt | interpreter/parser/parser.py:398-405 | the message starts with the line, says "at end" exactly for the EOF token, and ends with the message |
| LoxParser.AdvancedFrom | interpreter/parser/parser.py:373-377 | advance moves one token on, never past EOF |
| LoxParser.SyncFrom | interpreter/parser/parser.py:410-427 | corrected: the loop stops at EOF, just after a ';' or before a statement keyword, and nothing it skips is any of these |
| LoxParser.SynchronizeAsWrittenFails | interpreter/parser/parser.py:407-427 | as written, synchronize raises exactly when the loop gets to the keyword list, and otherwise agrees with the corrected loop |
| LoxParser.SynchronizeAsWrittenCounterexample | interpreter/parser/parser.py:407-427 | on "+ 1;" the written loop raises where the corrected one stops after the ';' |
| LoxParser.SynchronizeAsWrittenKinds | interpreter/parser/parser.py:407-427 | any four tokens of the kinds of "+ 1;" and EOF make the written loop raise, while the corrected one stops at index 3 |
| LoxParser.Fail | interpreter/parser/parser.py:30-41 | an error is handed on with its message and position unchanged |
| LoxParser.ConsumeAt | interpreter/parser/parser.py:391-396 | the token and the cursor one on exactly when the token has the type and is not EOF, else the error reported at it with the cursor unmoved |
| LoxParser.LevelNode | interpreter/parser/parser.py:214-278 | a node built by a level's loop is well formed and sits at that level |
| LoxParser.ProgramAt | interpreter/parser/parser.py:22-28 | corrected: parse never fails, yields well-formed entries, and at most one per token before EOF |
| LoxParser.DeclarationAt | interpreter/parser/parser.py:30-41 | corrected: declaration always succeeds and consumes a token; a rule that failed gives None with the cursor where synchronize stops |
| LoxParser.DeclRuleAt | interpreter/parser/parser.py:30-39 | the rule chosen by `fun`, `var` or neither consumes input when it succeeds and yields a well-formed statement |
| LoxParser.FunctionAt | interpreter/parser/parser.py:43-65 | a function declaration consumes input and yields a well-formed Function node |
| LoxParser.ParamListAt | interpreter/parser/parser.py:48-58 | at most 255 parameters, every one an identifier |
| LoxParser.FunctionBodyAt | interpreter/parser/parser.py:59-65 | the Function node has the name and parameters read, after `)`, `{` and the body |
| LoxParser.ParametersAt | interpreter/parser/parser.py:49-57 | the parameter loop: at most 255 names, every one an identifier; the 256th is the "more than 255 parameters" error |
| LoxParser.VarDeclarationAt | interpreter/parser/parser.py:67-76 | a variable declaration consumes input and yields a well-formed Var node |
| LoxParser.Terminated | interpreter/parser/parser.py:391-396 | the statement with the ';' consumed, else the error at the token found instead |
| LoxParser.StatementAt | interpreter/parser/parser.py:78-93 | a statement consumes input and is well formed |
| LoxParser.PrintAt | interpreter/parser/parser.py:95-99 | a print statement consumes input and yields a well-formed Print node |
| LoxParser.ReturnAt | interpreter/parser/parser.py:101-110 | a return statement consumes input and yields a well-formed Return node |
| LoxParser.BlockAt | interpreter/parser/parser.py:112-120 | a block consumes input and every declaration in it is well formed |
| LoxParser.BlockFrom | interpreter/parser/parser.py:112-120 | the declaration loop of a block ends after `}`, with every declaration well formed |
| LoxParser.IfAt | interpreter/parser/parser.py:122-134 | an if statement consumes input and yields a well-formed If node |
| LoxParser.WhileAt | interpreter/parser/parser.py:136-144 | a while statement consumes input and yields a well-formed While node |
| LoxParser.ForAt | interpreter/parser/parser.py:146-186 | a for statement consumes input and desugars to a well-formed statement |
| LoxParser.ForClausesAt | interpreter/parser/parser.py:146-172 | the clauses are well formed and the initializer is absent, a var or an expression statement |
| LoxParser.ForInitAt | interpreter/parser/parser.py:150-157 | the initializer is absent only after a ';', otherwise a var declaration or an expression statement, and consumes input |
| LoxParser.ClauseAt | interpreter/parser/parser.py:159-172 | the clause is absent exactly when its terminator comes next, otherwise a well-shaped expression |
| LoxParser.ExpressionStatementAt | interpreter/parser/parser.py:188-192 | an expression statement consumes input and yields a well-formed Expression node |
| LoxParser.ExpressionAt | interpreter/parser/parser.py:194-196 | an expression consumes input and is well shaped |
| LoxParser.AssignmentAt | interpreter/parser/parser.py:198-212 | assignment consumes input and is well shaped |
| LoxParser.AssignTo | interpreter/parser/parser.py:203-212 | a failed value is handed on; an Assign node exactly when the target is a Variable; otherwise "Invalid assignment target." reported at the `=` |
| LoxParser.LevelAt | interpreter/parser/parser.py:214-278 | each loop level consumes input and yields a node binding at that level or tighter |
| LoxParser.LevelRest | interpreter/parser/parser.py:214-278 | the loop of a level keeps the node built so far at that level or tighter |
| LoxParser.UnaryAt | interpreter/parser/parser.py:280-287 | unary consumes input and binds at level 7 or tighter |
| LoxParser.CallAt | interpreter/parser/parser.py:289-303 | call consumes input and binds at level 8 |
| LoxParser.CallRest | interpreter/parser/parser.py:291-301 | the loop over argument lists and indexes keeps the node at level 8 |
| LoxParser.FinishCallAt | interpreter/parser/parser.py:305-321 | a Call node on the given callee, after the closing parenthesis |
| LoxParser.ArgumentsAt | interpreter/parser/parser.py:307-318 | the argument loop yields a Call node on the given callee; the 256th argument is the "more than 255 arguments" error |
| LoxParser.CloseCall | interpreter/parser/parser.py:319-321 | the Call node of the callee, the closing parenthesis and the arguments read, with the cursor after it |
| LoxParser.IndexAt | interpreter/parser/parser.py:296-299 | a Get node on the given object, after the index and the closing bracket |
| LoxParser.PrimaryAt | interpreter/parser/parser.py:323-356 | a primary consumes input and binds at level 8; any other token is the "Expect expression." error |
| LoxParser.ListAt | interpreter/parser/parser.py:335-346 | a list literal consumes input and is well shaped |
| LoxParser.ElementsAt | interpreter/parser/parser.py:337-345 | the element loop yields a well-shaped list literal |
| LoxParser.CloseList | interpreter/parser/parser.py:345-346 | the ListExpr of the elements read, with the cursor after the closing bracket |
| LoxParser.DeclarationOf | interpreter/parser/parser.py:30-41 | corrected: a failed rule gives None with the cursor where synchronize stops after one advance; a successful one gives its statement |
| LoxParser.DeclStarts | interpreter/parser/parser.py:22-28 | each start is before EOF and inside the tokens |
| LoxParser.ProgramByDeclarations | interpreter/parser/parser.py:22-41 | corrected: parse yields one entry per declaration, in order, each starting where the previous one left the cursor, the last one ending at EOF |
| LoxParser.AssignmentInvalidTarget | interpreter/parser/parser.py:198-212 | assigning to a non-variable is "Invalid assignment target." reported at the `=`, after the value is parsed; the value's own error comes first |
| LoxParser.AssignmentRightAssociative | interpreter/parser/parser.py:198-212 | an assignment to a variable takes as its value the whole assignment that follows the `=` |
| LoxParser.Parser.constructor | interpreter/parser/parser.py:18-20 | the parser starts at the first token |
| LoxParser.Parser.Parse | interpreter/parser/parser.py:22-28 | corrected (Synchronize as in the Findings): the entries are ProgramAt's for the starting cursor, and the cursor ends at EOF |
| LoxParser.Parser.Declaration | interpreter/parser/parser.py:30-41 | corrected (Synchronize as in the Findings): the entry and the cursor are DeclarationAt's: the rule's statement, or None at the point Synchronize reaches when the rule fails |
| LoxParser.Parser.Function | interpreter/parser/parser.py:43-65 | the node or error and the cursor are FunctionAt's |
| LoxParser.Parser.ParameterList | interpreter/parser/parser.py:48-58 | the parameter loop's names or error, and the cursor after them, are ParamListAt's |
| LoxParser.Parser.FunctionBody | interpreter/parser/parser.py:60-65 | the closing ')', the '{' and the block give FunctionBodyAt's node or error and cursor |
| LoxParser.Parser.VarDeclaration | interpreter/parser/parser.py:67-76 | the node or error and the cursor are VarDeclarationAt's |
| LoxParser.Parser.Statement | interpreter/parser/parser.py:78-93 | the node or error and the cursor are StatementAt's |
| LoxParser.Parser.PrintStatement | interpreter/parser/parser.py:95-99 | the node or error and the cursor are PrintAt's |
| LoxParser.Parser.ReturnStatement | interpreter/parser/parser.py:101-110 | the node or error and the cursor are ReturnAt's |
| LoxParser.Parser.Block | interpreter/parser/parser.py:112-120 | the declarations or error and the cursor are BlockAt's |
| LoxParser.Parser.IfStatement | interpreter/parser/parser.py:122-134 | the node or error and the cursor are IfAt's |
| LoxParser.Parser.WhileStatement | interpreter/parser/parser.py:136-144 | the node or error and the cursor are WhileAt's |
| LoxParser.Parser.ForStatement | interpreter/parser/parser.py:146-186 | the node or error and the cursor are ForAt's, and the clauses are ForClausesAt's |
| LoxParser.Parser.ForInitializer | interpreter/parser/parser.py:150-157 | the initializer or error and the cursor are ForInitAt's |
| LoxParser.Parser.ClauseExpression | interpreter/parser/parser.py:159-172 | the clause or error and the cursor are ClauseAt's |
| LoxParser.Parser.ExpressionStatement | interpreter/parser/parser.py:188-192 | the node or error and the cursor are ExpressionStatementAt's |
| LoxParser.Parser.Expression | interpreter/parser/parser.py:194-196 | the node or error and the cursor are ExpressionAt's |
| LoxParser.Parser.Assignment | interpreter/parser/parser.py:198-212 | the node or error and the cursor are AssignmentAt's |
| LoxParser.Parser.Or | interpreter/parser/parser.py:214-223 | the node or error and the cursor are LevelAt(1)'s |
| LoxParser.Parser.And | interpreter/parser/parser.py:225-234 | the node or error and the cursor are LevelAt(2)'s |
| LoxParser.Parser.Equality | interpreter/parser/parser.py:236-245 | the node or error and the cursor are LevelAt(3)'s |
| LoxParser.Parser.Comparison | interpreter/parser/parser.py:247-256 | the node or error and the cursor are LevelAt(4)'s |
| LoxParser.Parser.Term | interpreter/parser/parser.py:258-267 | the node or error and the cursor are LevelAt(5)'s |
| LoxParser.Parser.Factor | interpreter/parser/parser.py:269-278 | the node or error and the cursor are LevelAt(6)'s |
| LoxParser.Parser.Unary | interpreter/parser/parser.py:280-287 | the node or error and the cursor are UnaryAt's |
| LoxParser.Parser.Call | interpreter/parser/parser.py:289-303 | the node or error and the cursor are CallAt's |
| LoxParser.Parser.FinishIndex | interpreter/parser/parser.py:296-299 | the node or error and the cursor are IndexAt's |
| LoxParser.Parser.FinishCall | interpreter/parser/parser.py:305-321 | the node or error and the cursor are FinishCallAt's |
| LoxParser.Parser.Argument | interpreter/parser/parser.py:312-315 | one turn of the argument loop: its error is the loop's, and otherwise the loop goes on from the comma or closes the call exactly as ArgumentsAt says |
| LoxParser.Parser.EndCall | interpreter/parser/parser.py:319-321 | the closing ')' gives CloseCall's Call node or error, and its cursor |
| LoxParser.Parser.Primary | interpreter/parser/parser.py:323-356 | the node or error and the cursor are PrimaryAt's |
| LoxParser.Parser.FinishList | interpreter/parser/parser.py:335-346 | the node or error and the cursor are ListAt's |
| LoxParser.Parser.Match | interpreter/parser/parser.py:358-365 | consumes the current token exactly when it is not EOF and has one of the types |
| LoxParser.Parser.Advance | interpreter/parser/parser.py:373-377 | moves one token on, never past EOF, and returns the token before the cursor |
| LoxParser.Parser.Consume | interpreter/parser/parser.py:391-396 | the current token when it has the type, else the error reported at it with the cursor unmoved; the same as ConsumeAt |
| LoxParser.Parser.Synchronize | interpreter/parser/parser.py:407-427 | corrected: the cursor ends where SyncFrom says, after one advance |
| LoxEnvironment.Holder | interpreter/interpreter/environment.py:16-26 | the nearest environment along the chain that holds the name, found exactly when a lookup succeeds, and its value is the lookup's |
| LoxEnvironment.AncestorOf | interpreter/interpreter/environment.py:42-48 | following the enclosing link never reaches a later environment |
| LoxEnvironment.Distance | interpreter/interpreter/environment.py:42-52 | the number of links to the holding environment, found exactly when some environment holds the name |
| LoxEnvironment.DefineIn | interpreter/interpreter/environment.py:12-14 | define keeps the arena's shape and links |
| LoxEnvironment.WriteIn | interpreter/interpreter/environment.py:54-56 | a write keeps the arena's shape and links |
| LoxEnvironment.AssignIn | interpreter/interpreter/environment.py:28-40 | a successful assign keeps the arena's shape and links |
| LoxEnvironment.AssignAtSpec | interpreter/interpreter/environment.py:54-56 | a successful assign_at keeps the arena's shape and links |
| LoxEnvironment.DefineThenLookup | interpreter/interpreter/environment.py:12-26 | after define, get finds the new value in that environment |
| LoxEnvironment.DefineKeepsOthers | interpreter/interpreter/environment.py:12-14 | define changes no other name in any environment |
| LoxEnvironment.DefineIsLocal | interpreter/interpreter/environment.py:12-14 | define is seen only from environments whose chain passes through the one defined in |
| LoxEnvironment.AssignNeverCreates | interpreter/interpreter/environment.py:28-40 | assign never creates a binding or changes a link |
| LoxEnvironment.AssignThenLookup | interpreter/interpreter/environment.py:28-40 | after a successful assign, get reads back the new value |
| LoxEnvironment.AssignFailsIffUndefined | interpreter/interpreter/environment.py:16-40 | assign fails exactly when get would fail |
| LoxEnvironment.GetAtHolderDistance | interpreter/interpreter/environment.py:42-52 | reading at the holding environment's distance gives what get gives |
| LoxEnvironment.AncestorStep | interpreter/interpreter/environment.py:44-46 | following d links and one more is following d+1 links |
| LoxEnvironment.NoAncestorBeyond | interpreter/interpreter/environment.py:44-46 | once the chain ends, no longer distance reaches an environment |
| LoxEnvironment.Environments.constructor | interpreter/interpreter/environment.py:8-10 | the globals are one empty environment with no enclosing one |
| LoxEnvironment.Environments.New | interpreter/interpreter/environment.py:8-10 | a new environment is empty, encloses the given one and comes last |
| LoxEnvironment.Environments.Define | interpreter/interpreter/environment.py:12-14 | the arena after define is the specification's |
| LoxEnvironment.Environments.Get | interpreter/interpreter/environment.py:16-26 | the nearest binding, or the "Undefined variable" error |
| LoxEnvironment.Environments.Assign | interpreter/interpreter/environment.py:28-40 | the error leaves the arena unchanged; success writes the nearest holding environment |
| LoxEnvironment.Environments.Ancestor | interpreter/interpreter/environment.py:42-48 | the loop follows the enclosing link the given number of times |
| LoxEnvironment.Environments.GetAt | interpreter/interpreter/environment.py:50-52 | the value in the ancestor's own frame, None when it lacks the name, an AttributeError with no such ancestor |
| LoxEnvironment.Environments.AssignAt | interpreter/interpreter/environment.py:54-56 | writes into the ancestor's frame, or fails and changes nothing when there is no such ancestor |
| LoxResolver.Innermost | interpreter/interpreter/resolver.py:74-79 | the depth is that of the innermost scope holding the name, None when no scope does |
| LoxResolver.InnermostAt | interpreter/interpreter/resolver.py:74-79 | the innermost holding scope at index i gives depth \|scopes\|-1-i |
| LoxResolver.InnermostNone | interpreter/interpreter/resolver.py:74-79 | no scope holding the name gives no depth (a global) |
| LoxResolver.WithTop | interpreter/interpreter/resolver.py:61-72 | only the innermost scope changes, and only at the given name |
| LoxResolver.LocalIn | interpreter/interpreter/resolver.py:74-79 | the innermost holding scope's depth is recorded for the node, nothing for a global; scopes and function type unchanged |
| LoxResolver.DeclareIn | interpreter/interpreter/resolver.py:56-65 | fails exactly when the innermost scope already holds the name, with the "already declared" message and nothing changed; only the innermost scope ever changes |
| LoxResolver.DefineIn | interpreter/interpreter/resolver.py:67-72 | at global scope nothing changes; otherwise the name is defined in the innermost scope and no other scope changes |
| LoxResolver.ExprWalk | interpreter/interpreter/resolver.py:162-222 | resolving an expression never changes the scopes or the function type, and changes the recorded depth only of the expression's own nodes |
| LoxResolver.ExprsWalk | interpreter/interpreter/resolver.py:176-200 | the same for a list of expressions, left to right |
| LoxResolver.ReturnWalk | interpreter/interpreter/resolver.py:133-144 | a return outside a function, or a value returned from an initializer, is the matching error with nothing changed |
| LoxResolver.VarWalk | interpreter/interpreter/resolver.py:146-154 | a second declaration in the same scope is an error with nothing changed; on success the scopes below are untouched and the name is defined in the innermost scope |
| LoxResolver.ParamsWalk | interpreter/interpreter/resolver.py:88-90 | declaring and defining the parameters touches only the innermost scope |
| LoxResolver.FunctionWalk | interpreter/interpreter/resolver.py:81-96 | on success the scopes and the enclosing function type are as before and recorded depths only grow |
| LoxResolver.BlockWalk | interpreter/interpreter/resolver.py:100-105 | on success the block's scope is closed again, leaving the scopes exactly as before |
| LoxResolver.IfWalk | interpreter/interpreter/resolver.py:120-126 | on success the scope depth, the outer scopes and the function type are as before |
| LoxResolver.StmtWalk | interpreter/interpreter/resolver.py:40-160 | a successful statement keeps the scope depth, the outer scopes and the function type, and a block restores the scopes exactly |
| LoxResolver.StmtsWalk | interpreter/interpreter/resolver.py:31-38 | the same for a list of statements, skipping the ones that failed to parse |
| LoxResolver.ResolvedInAgree | interpreter/interpreter/resolver.py:74-79 | whether an expression is resolved depends only on the depths recorded for its own nodes |
| LoxResolver.ResolvedInAllAgree | interpreter/interpreter/resolver.py:74-79 | the same for a list of expressions |
| LoxResolver.ExprWalkResolves | interpreter/interpreter/resolver.py:164-222 | after a successful walk every variable use and assignment target records the depth of the innermost scope holding its name, and a global's entry is left as it was |
| LoxResolver.ExprsWalkResolves | interpreter/interpreter/resolver.py:176-200 | the same for every expression in a list, such as a call's arguments |
| LoxResolver.LexemeSet | interpreter/interpreter/resolver.py:88-90 | every parameter's name is in the set |
| LoxResolver.Defined | interpreter/interpreter/resolver.py:88-90 | the scope after defining the parameters: the old names plus every parameter, each parameter defined, other entries unchanged |
| LoxResolver.ParamScope | interpreter/interpreter/resolver.py:86-90 | the scope a function body sees holds exactly the parameter names, all defined |
| LoxResolver.ParamsWalkTop | interpreter/interpreter/resolver.py:88-90 | the parameter loop succeeds exactly when no name repeats and none is already in the scope, and then leaves every parameter defined in the innermost scope |
| LoxResolver.FunctionScope | interpreter/interpreter/resolver.py:81-96 | with distinct parameter names the body is resolved in the enclosing scopes plus one scope holding every parameter defined, with the given function type, after which the enclosing scopes and function type are back; a repeated parameter name is an error |
| LoxResolver.StmtsWalkAppend | interpreter/interpreter/resolver.py:31-38 | resolving a + b is resolving a and then b from where a left off, stopping at the first error |
| LoxResolver.VarOwnInitializer | interpreter/interpreter/resolver.py:146-220 | `var a = a;` in a local scope is the "own initializer" error; at global scope it is accepted |
| LoxResolver.Resolver.constructor | interpreter/interpreter/resolver.py:25-29 | a new resolver has no scopes, no enclosing function and no recorded depths |
| LoxResolver.Resolver.ResolveStmts | interpreter/interpreter/resolver.py:31-38 | the result and the new state are StmtsWalk's for the old state |
| LoxResolver.Resolver.ResolveStmt | interpreter/interpreter/resolver.py:40-160 | the result and the new state are StmtWalk's for the old state |
| LoxResolver.Resolver.ResolveReturn | interpreter/interpreter/resolver.py:133-144 | the result and the new state are ReturnWalk's for the old state |
| LoxResolver.Resolver.ResolveVar | interpreter/interpreter/resolver.py:146-154 | the result and the new state are VarWalk's for the old state |
| LoxResolver.Resolver.ResolveFunction | interpreter/interpreter/resolver.py:81-96 | the result and the new state are FunctionWalk's for the old state |
| LoxResolver.Resolver.ResolveExprs | interpreter/interpreter/resolver.py:176-200 | the result and the new state are ExprsWalk's for the old state |
| LoxResolver.Resolver.ResolveExpr | interpreter/interpreter/resolver.py:162-222 | the result and the new state are ExprWalk's for the old state |
| LoxResolver.Resolver.ResolveVariable | interpreter/interpreter/resolver.py:217-222 | reading a name declared but not yet defined in the innermost scope is the "own initializer" error; otherwise the use is resolved as LocalIn says |
| LoxResolver.Resolver.BeginScope | interpreter/interpreter/resolver.py:48-50 | pushes an empty scope |
| LoxResolver.Resolver.EndScope | interpreter/interpreter/resolver.py:52-54 | pops the innermost scope |
| LoxResolver.Resolver.Declare | interpreter/interpreter/resolver.py:56-65 | the result and the new state are DeclareIn's for the old state |
| LoxResolver.Resolver.Define | interpreter/interpreter/resolver.py:67-72 | the new state is DefineIn's for the old state |
| LoxResolver.Resolver.ResolveLocal | interpreter/interpreter/resolver.py:74-79 | the new state is LocalIn's for the old state: the innermost holding scope's depth, nothing for a global |
| LoxEnvironment.AssignReadsBack | interpreter/interpreter/environment.py:28-40 | writing the new value into the holding frame makes get read it back from where the assignment was made |
| LoxValues.IsTruthy | interpreter/interpreter/interpreter.py:276-286 | a value is false exactly when it is nil, false, zero or the empty string |
| LoxValues.IsEqual | interpreter/interpreter/interpreter.py:288-295 | nil equals nil and nothing else |
| LoxValues.PyEqReflexive | interpreter/interpreter/interpreter.py:288-295 | every value equals itself |
| LoxValues.PyEqSymmetric | interpreter/interpreter/interpreter.py:288-295 | equality does not depend on the order of its operands |
| LoxValues.IsEqualReflexive | interpreter/interpreter/interpreter.py:288-295 | is_equal holds of every value and itself |
| LoxValues.IsEqualSymmetric | interpreter/interpreter/interpreter.py:288-295 | is_equal does not depend on the order of its operands |
| LoxValues.IsEqualBoolAsNumber | interpreter/interpreter/interpreter.py:288-295 | a bool equals the number it stands for and not its text |
| LoxValues.DropPointZero | interpreter/interpreter/interpreter.py:317-321 | one trailing ".0" is removed and nothing else changes |
| LoxValues.Stringify | interpreter/interpreter/interpreter.py:309-327 | nil shows as "nil", bools in lower case, strings as themselves, lists bracketed |
| LoxValues.StringifyAll | interpreter/interpreter/interpreter.py:324-326 | each element is shown by stringify, one text per element |
| LoxValues.StringifyPair | interpreter/interpreter/interpreter.py:324-326 | a list shows its elements' own renderings separated by ", " |
| LoxValues.StringifyEmptyList | interpreter/interpreter/interpreter.py:324-326 | the empty list shows as "[]" |
| LoxValues.StringifyWholeNumber | interpreter/interpreter/interpreter.py:317-321 | a whole number prints without its ".0" |
| LoxValues.Arity | interpreter/interpreter/callable.py:19-74 | the clock takes no arguments, and a function takes as many arguments as it declares parameters |
| LoxValues.DecimalExample | interpreter/interpreter/interpreter.py:183-185 | number literals have their decimal value |
| LoxInterpreter.ValueOkMono | interpreter/interpreter/interpreter.py:24-29 | a value whose closures exist keeps that property as environments are added |
| LoxInterpreter.ValuesOkMono | interpreter/interpreter/interpreter.py:248-254 | a list of such values keeps it too |
| LoxInterpreter.FramesOkDefine | interpreter/interpreter/interpreter.py:87-94 | defining a well-formed value keeps the environments well formed |
| LoxInterpreter.FramesOkPush | interpreter/interpreter/interpreter.py:96-99 | a new environment enclosing an existing one keeps them well formed |
| LoxInterpreter.AssignInOk | interpreter/interpreter/interpreter.py:203-213 | an assignment to the globals keeps the environments well formed |
| LoxInterpreter.AssignAtOk | interpreter/interpreter/interpreter.py:203-213 | an assignment at a resolved depth keeps the environments well formed |
| LoxInterpreter.AssignedOk | interpreter/interpreter/interpreter.py:203-213 | the write of an assignment expression keeps the environments well formed |
| LoxInterpreter.BindParams | interpreter/interpreter/callable.py:45-53 | binding the parameters keeps the environment links and count |
| LoxInterpreter.BindParamsOk | interpreter/interpreter/callable.py:45-53 | binding well-formed arguments keeps the environments well formed |
| LoxInterpreter.BindParamsValue | interpreter/interpreter/callable.py:47-53 | a parameter not repeated later in the list is bound to its own argument |
| LoxInterpreter.BindParamsFrames | interpreter/interpreter/callable.py:47-53 | binding touches only the call environment's bindings |
| LoxInterpreter.BindParamsKeeps | interpreter/interpreter/callable.py:47-53 | a name no parameter has keeps its binding |
| LoxInterpreter.LookupVariable | interpreter/interpreter/interpreter.py:64-71 | a read yields a well-formed value or a raised signal |
| LoxInterpreter.ResolvedLookupAgrees | interpreter/interpreter/interpreter.py:64-71 | when the resolved depth is the distance to the holding environment, get_at gives what get gives |
| LoxInterpreter.BinaryOp | interpreter/interpreter/interpreter.py:131-177 | arithmetic and comparisons fail exactly on a non-number operand or a zero divisor; + fails only without a number pair or a string; == and != are is_equal and its negation |
| LoxInterpreter.UnaryOp | interpreter/interpreter/interpreter.py:187-197 | negation fails exactly on a non-number; ! is the negation of is_truthy |
| LoxInterpreter.Truncate | interpreter/interpreter/interpreter.py:267 | int() truncates toward zero |
| LoxInterpreter.GetIndex | interpreter/interpreter/interpreter.py:256-274 | indexing succeeds exactly on a list and a number whose truncation is in range, and yields that element; every failure is a runtime error |
| LoxInterpreter.GetIndexAsWrittenEscapes | interpreter/interpreter/interpreter.py:256-274 | as written, every indexing error escapes as an AttributeError, and success agrees with the corrected version |
| LoxInterpreter.GetIndexCounterexample | interpreter/interpreter/interpreter.py:268-270 | indexing [1] at 5 reports "Index out of bounds." when corrected and an AttributeError as written |
| LoxInterpreter.ThisOf | interpreter/interpreter/callable.py:62 | reading "this" from the closure yields a well-formed value |
| LoxInterpreter.CallResult | interpreter/interpreter/callable.py:56-70 | a Return's value, nil on normal completion, the closure's "this" for an initializer; other signals propagate |
| LoxInterpreter.Bind | interpreter/interpreter/callable.py:79-83 | a new environment enclosing the closure holds only "this"; the bound function keeps the declaration and initializer flag |
| LoxInterpreter.Eval | interpreter/interpreter/interpreter.py:45-47 | corrected (index errors are the interpreter's own RuntimeError): evaluation keeps the invariant, only adds environments and leaves the current one in place |
| LoxInterpreter.EvalAssign | interpreter/interpreter/interpreter.py:203-213 | an assignment keeps the invariant |
| LoxInterpreter.EvalBinary | interpreter/interpreter/interpreter.py:131-135 | a binary expression keeps the invariant |
| LoxInterpreter.EvalLogical | interpreter/interpreter/interpreter.py:215-227 | a logical expression keeps the invariant |
| LoxInterpreter.ShortCircuit | interpreter/interpreter/interpreter.py:219-225 | when the left operand decides, the result is the left operand's and the right is not evaluated |
| LoxInterpreter.LogicalFallsThrough | interpreter/interpreter/interpreter.py:219-227 | otherwise the result is the right operand's, evaluated after the left |
| LoxInterpreter.EvalAll | interpreter/interpreter/interpreter.py:248-254 | one value per element, left to right, keeping the invariant |
| LoxInterpreter.EvalGet | interpreter/interpreter/interpreter.py:256-260 | corrected (index errors are the interpreter's own RuntimeError): indexing keeps the invariant |
| LoxInterpreter.EvalCall | interpreter/interpreter/interpreter.py:229-235 | a call expression keeps the invariant |
| LoxInterpreter.CallValue | interpreter/interpreter/interpreter.py:237-246 | a non-callable is "Can only call functions and classes."; a wrong argument count names the arity and the count; the clock gives the host time |
| LoxInterpreter.CallFunction | interpreter/interpreter/callable.py:45-70 | a call keeps the invariant |
| LoxInterpreter.CallFrames | interpreter/interpreter/callable.py:47-53 | the call environment is one new environment |
| LoxInterpreter.CallBindsParameters | interpreter/interpreter/callable.py:47-53 | the call environment encloses the closure and binds each parameter to its argument; existing environments are unchanged |
| LoxInterpreter.ExecBlock | interpreter/interpreter/interpreter.py:49-59 | the previous environment is restored whatever the outcome |
| LoxInterpreter.ExecSeq | interpreter/interpreter/interpreter.py:54-56 | the statements in order keep the invariant |
| LoxInterpreter.Exec | interpreter/interpreter/interpreter.py:41-43 | a statement keeps the invariant |
| LoxInterpreter.ExecVar | interpreter/interpreter/interpreter.py:87-94 | a declaration keeps the invariant |
| LoxInterpreter.ExecWhile | interpreter/interpreter/interpreter.py:109-113 | a loop keeps the invariant |
| LoxInterpreter.RunAll | interpreter/interpreter/interpreter.py:34-36 | the statements of a program keep the invariant |
| LoxInterpreter.InterpretSpec | interpreter/interpreter/interpreter.py:32-39 | a runtime error is reported on the output as "Runtime Error: ..." and ends the run; no runtime error escapes |
| LoxInterpreter.Interpreter.constructor | interpreter/interpreter/interpreter.py:23-29 | the globals hold the native clock and are the current environment; no depths are recorded |
| LoxInterpreter.Interpreter.Resolve | interpreter/interpreter/interpreter.py:61-63 | records the depth of one use and changes nothing else |
| LoxInterpreter.Interpreter.ExecuteBlock | interpreter/interpreter/interpreter.py:49-59 | the state after the block is the specification's, and the previous environment is restored |
| LoxInterpreter.Interpreter.Interpret | interpreter/interpreter/interpreter.py:32-39 | the state after interpret and the escaping signal are the specification's |
| CurrentProject.NewDeliverable | AutoGroq/AutoGroq/configs/current_project.py:10-15 | a new deliverable keeps its text, is not done, and has one unset flag per implementation phase |
| CurrentProject.MarkPhase | AutoGroq/AutoGroq/configs/current_project.py:39-43 | the phase's flag is set; done becomes set when every flag is set, and is otherwise left as it was |
| CurrentProject.MarkPhaseOk | AutoGroq/AutoGroq/configs/current_project.py:39-43 | marking keeps the invariant, and afterwards done holds exactly when every flag is set |
| CurrentProject.MarkPhasesSets | AutoGroq/AutoGroq/configs/current_project.py:39-43 | marking in order keeps set flags set, sets each marked phase, adds no other flag, and leaves done when all are set |
| CurrentProject.MarkingEveryPhaseCompletes | AutoGroq/AutoGroq/configs/current_project.py:39-43 | marking every implementation phase, in any order and with repetitions, completes a deliverable |
| CurrentProject.Project.constructor | AutoGroq/AutoGroq/configs/current_project.py:3-7 | no deliverables, an empty prompt, and the Planning phase |
| CurrentProject.Project.AddDeliverable | AutoGroq/AutoGroq/configs/current_project.py:10-15 | appends one new deliverable and changes nothing else |
| CurrentProject.Project.NextUncheckedDeliverable | AutoGroq/AutoGroq/configs/current_project.py:18-22 | the first deliverable not done, with its text; none exactly when every deliverable is done |
| CurrentProject.Project.NextUncompletedPhase | AutoGroq/AutoGroq/configs/current_project.py:25-30 | the first implementation phase, in order, not done; none when the index is out of range or exactly when the deliverable is complete |
| CurrentProject.Project.MarkDeliverablePhaseDone | AutoGroq/AutoGroq/configs/current_project.py:39-43 | marks the phase on an existing deliverable; an index out of range changes nothing |
| CurrentProject.Project.MarkDeliverableUndone | AutoGroq/AutoGroq/configs/current_project.py:46-48 | clears done and keeps the phase flags; an index out of range changes nothing |
| CurrentProject.Project.MoveToNextPhase | AutoGroq/AutoGroq/configs/current_project.py:51-54 | one step along the phase order, none at the last phase |
| CurrentProject.Project.SetReEngineeredPrompt | AutoGroq/AutoGroq/configs/current_project.py:57-58 | stores the prompt and changes nothing else |
| ToolModel.NewTool | AutoGroq/AutoGroq/models/tool_base_model.py:6-34 | every argument is stored, with secrets and libraries defaulting to [] when None is passed |
| ToolModel.Execute | AutoGroq/AutoGroq/models/tool_base_model.py:36-40 | calls the stored function exactly when there is one; otherwise ValueError naming the tool |
| ToolModel.ToolText | AutoGroq/AutoGroq/models/tool_base_model.py:42-43 | the text starts with the name and ends with the description |
| ToolModel.ToDict | AutoGroq/AutoGroq/models/tool_base_model.py:45-59 | the dictionary has one key per attribute but the function |
| ToolModel.FromDict | AutoGroq/AutoGroq/models/tool_base_model.py:61-76 | fails exactly when title, file_name or content is missing; name and description default to ""; no function is restored |
| ToolModel.ToDictEntries1 | AutoGroq/AutoGroq/models/tool_base_model.py:47-49 | name, description and title are stored under their own keys |
| ToolModel.ToDictEntries2 | AutoGroq/AutoGroq/models/tool_base_model.py:50-52 | file_name, content and id are stored under their own keys |
| ToolModel.ToDictEntries3 | AutoGroq/AutoGroq/models/tool_base_model.py:53-55 | created_at, updated_at and user_id are stored under their own keys |
| ToolModel.ToDictEntries4 | AutoGroq/AutoGroq/models/tool_base_model.py:56-58 | secrets, libraries and timestamp are stored under their own keys |
| ToolModel.ToDictHoldsEntries | AutoGroq/AutoGroq/models/tool_base_model.py:45-59 | the dictionary holds every attribute's entry |
| ToolModel.FromEntries | AutoGroq/AutoGroq/models/tool_base_model.py:61-76 | any dictionary holding a tool's entries reads back as that tool without its function |
| ToolModel.RoundTrip | AutoGroq/AutoGroq/models/tool_base_model.py:45-76 | from_dict(to_dict(t)) is t without its function |
| ToolModel.FromKwargs | AutoGroq/AutoGroq/models/tool_base_model.py:6-21 | construction succeeds exactly when no keyword is unknown and every required one is present; the function is stored when given |
| ToolModel.KwargsRoundTrip | AutoGroq/AutoGroq/models/tool_base_model.py:6-59 | passing a tool's own dictionary as keyword arguments rebuilds it without its function |
| ToolModel.KwargsFromEntries | AutoGroq/AutoGroq/models/tool_base_model.py:6-59 | any dictionary with exactly a tool's entries, passed as keyword arguments, rebuilds it without its function |
| ToolModel.Attribute | AutoGroq/AutoGroq/models/tool_base_model.py:78-85 | a data attribute exists exactly for the constructor's parameters; function yields the stored callable or None |
| ToolModel.GetAttr | AutoGroq/AutoGroq/models/tool_base_model.py:78-79 | the attribute's value, or the default when there is no such attribute |
| ToolModel.GetItem | AutoGroq/AutoGroq/models/tool_base_model.py:81-82 | the attribute's value, or an AttributeError exactly when there is no such attribute |
| ToolModel.GetAttrMatchesDict | AutoGroq/AutoGroq/models/tool_base_model.py:45-85 | get agrees with to_dict on every key and returns the default exactly for a non-attribute |
| ToolModel.GetAttrExamples | AutoGroq/AutoGroq/models/tool_base_model.py:78-82 | looking up title, libraries and an absent function gives their values |
| AgentModel.ConvertTool | AutoGroq/AutoGroq/models/agent_base_model.py:45 | a ToolBaseModel is kept as it is; a dict becomes a tool exactly when it is a valid set of keyword arguments |
| AgentModel.ConvertTools | AutoGroq/AutoGroq/models/agent_base_model.py:45 | succeeds exactly when every element converts, one tool per element in order; otherwise the error of some element |
| AgentModel.NewAgent | AutoGroq/AutoGroq/models/agent_base_model.py:10-71 | every argument is stored as given except the tools, which are converted one for one; fails exactly when some tool does not convert |
| AgentModel.ConvertToolsKeepsObjects | AutoGroq/AutoGroq/models/agent_base_model.py:45 | a list of ToolBaseModel objects is kept as it is |
| AgentModel.ConvertToolDict | AutoGroq/AutoGroq/models/agent_base_model.py:45 | a tool given as its own dictionary is rebuilt without its function |
| AgentModel.AgentText | AutoGroq/AutoGroq/models/agent_base_model.py:73-77 | the text is "Agent(name=...)" with the name at its place and the description after it |
| AgentModel.ToolDicts | AutoGroq/AutoGroq/models/agent_base_model.py:84 | one dictionary per tool, each the tool's own to_dict |
| AgentModel.ToolsFromDicts | AutoGroq/AutoGroq/models/agent_base_model.py:114 | each tool dictionary is read by ToolBaseModel.from_dict, one tool per element, none with a function |
| AgentModel.FromDict | AutoGroq/AutoGroq/models/agent_base_model.py:112-146 | name, description and config must be present; role, goal and backstory default to "", verbose to False, allow_delegation to True, max_iter to 25 and cache to True |
| AgentModel.WithoutCallables | AutoGroq/AutoGroq/models/agent_base_model.py:84-114 | the tools with their functions dropped, one for one |
| AgentModel.ToolDictsRoundTrip | AutoGroq/AutoGroq/models/agent_base_model.py:84-114 | the tools' dictionaries read back as the tools without their functions |
| AgentModel.ToolsFromDictsOk | AutoGroq/AutoGroq/models/agent_base_model.py:114 | when every element reads, so does the list |
| AgentModel.ToDictHoldsEntries | AutoGroq/AutoGroq/models/agent_base_model.py:79-110 | the dictionary holds every attribute's entry |
| AgentModel.EntriesTyped | AutoGroq/AutoGroq/models/agent_base_model.py:112-146 | a dictionary holding an agent's entries has the types from_dict expects |
| AgentModel.EntriesRead | AutoGroq/AutoGroq/models/agent_base_model.py:112-146 | such a dictionary is read without error |
| AgentModel.EntriesRead1 | AutoGroq/AutoGroq/models/agent_base_model.py:114 | the tools read back without their functions |
| AgentModel.EntriesRead2 | AutoGroq/AutoGroq/models/agent_base_model.py:116-120 | id, name, description and config read back |
| AgentModel.EntriesRead3 | AutoGroq/AutoGroq/models/agent_base_model.py:121-124 | role, goal, backstory and provider read back |
| AgentModel.EntriesRead4 | AutoGroq/AutoGroq/models/agent_base_model.py:125-128 | model, created_at, updated_at and user_id read back |
| AgentModel.EntriesRead5 | AutoGroq/AutoGroq/models/agent_base_model.py:129-132 | workflows, type, models and verbose read back |
| AgentModel.EntriesRead6 | AutoGroq/AutoGroq/models/agent_base_model.py:133-135 | allow_delegation, new_description and timestamp read back |
| AgentModel.EntriesRead7 | AutoGroq/AutoGroq/models/agent_base_model.py:136-139 | is_termination_msg, code_execution_config and llm read back |
| AgentModel.EntriesRead8 | AutoGroq/AutoGroq/models/agent_base_model.py:140-142 | function_calling_llm, max_iter and max_rpm read back |
| AgentModel.EntriesRead9 | AutoGroq/AutoGroq/models/agent_base_model.py:143-145 | max_execution_time, step_callback and cache read back |
| AgentModel.FromEntries | AutoGroq/AutoGroq/models/agent_base_model.py:79-146 | any dictionary with an agent's entries reads back as that agent without its tools' functions |
| AgentModel.RoundTrip | AutoGroq/AutoGroq/models/agent_base_model.py:79-146 | from_dict(to_dict(a)) is a with its tools' functions dropped |
| AgentModel.Attribute | AutoGroq/AutoGroq/models/agent_base_model.py:167-174 | an attribute exists exactly for the keys of the dictionary form |
| AgentModel.GetAttr | AutoGroq/AutoGroq/models/agent_base_model.py:167-168 | the attribute's value, or the default when there is no such attribute |
| AgentModel.GetItem | AutoGroq/AutoGroq/models/agent_base_model.py:170-171 | the attribute's value, or an AttributeError exactly when there is no such attribute |
| AgentModel.ToDictKeys | AutoGroq/AutoGroq/models/agent_base_model.py:79-110 | the dictionary's keys are exactly the constructor's attribute names |
| AgentModel.GetDefaultIffMissing | AutoGroq/AutoGroq/models/agent_base_model.py:167-174 | get returns the default exactly for a name that is not an attribute |
| AgentModel.GetAttrName | AutoGroq/AutoGroq/models/agent_base_model.py:167-171 | looking up name and max_iter gives their values |
| ProjectModel.IntOr | AutoGroq/AutoGroq/models/project_base_model.py:25 | `x or default` on an optional integer: the default exactly when the value is None or zero |
| ProjectModel.StrOr | AutoGroq/AutoGroq/models/project_base_model.py:30-33 | `x or default` on an optional string: the default exactly when the value is None or empty |
| ProjectModel.ListOr | AutoGroq/AutoGroq/models/project_base_model.py:27 | `x or []` on an optional list (an empty list is [] either way) |
| ProjectModel.NewProject | AutoGroq/AutoGroq/models/project_base_model.py:5-41 | every attribute: id becomes 1, user_id "user", name "project", status "not started" and created_at the current time when falsy; each list is [] when not given and the given list otherwise; re_engineered_prompt, updated_at, description, due_date, priority and notes are stored as given |
| ProjectModel.NewProjectNormalised | AutoGroq/AutoGroq/models/project_base_model.py:25-41 | a constructed project has no falsy defaulted attribute |
| ProjectModel.NewDeliverable | AutoGroq/AutoGroq/models/project_base_model.py:44-45 | the appended entry has exactly a text and a done flag that is False |
| ProjectModel.SetDone | AutoGroq/AutoGroq/models/project_base_model.py:48-55 | the flag of the deliverable at an index in range is set; every other entry is unchanged; an index out of range changes nothing |
| ProjectModel.SetDoneKeepsShape | AutoGroq/AutoGroq/models/project_base_model.py:48-55 | setting a flag keeps every deliverable shaped and its text, and the flag reads back |
| ProjectModel.SetDoneLastWins | AutoGroq/AutoGroq/models/project_base_model.py:48-55 | of two flag writes at one index the last wins |
| ProjectModel.ArgsOf | AutoGroq/AutoGroq/models/project_base_model.py:82-99 | from_dict reads every key with get, the prompt defaulting to "" and deliverables to [], and never tools or workflows |
| ProjectModel.FromDict | AutoGroq/AutoGroq/models/project_base_model.py:82-99 | the constructor applied again: tools and workflows come back empty, a missing user_id is "user", a missing status "not started" |
| ProjectModel.ToDictEntries1 | AutoGroq/AutoGroq/models/project_base_model.py:61-64 | id, re_engineered_prompt and deliverables are stored under their own keys |
| ProjectModel.ToDictEntries2 | AutoGroq/AutoGroq/models/project_base_model.py:65-67 | created_at, updated_at and user_id are stored under their own keys |
| ProjectModel.ToDictEntries3 | AutoGroq/AutoGroq/models/project_base_model.py:68-70 | name, description and status are stored under their own keys |
| ProjectModel.ToDictEntries4 | AutoGroq/AutoGroq/models/project_base_model.py:71-73 | due_date, priority and tags are stored under their own keys |
| ProjectModel.ToDictEntries5 | AutoGroq/AutoGroq/models/project_base_model.py:74-76 | attachments, notes and collaborators are stored under their own keys |
| ProjectModel.FromEntries | AutoGroq/AutoGroq/models/project_base_model.py:61-99 | any dictionary with a project's entries reads back as the project with empty tools and workflows |
| ProjectModel.RoundTrip | AutoGroq/AutoGroq/models/project_base_model.py:61-99 | from_dict(to_dict(p)) keeps every attribute but tools and workflows, which come back empty |
| ProjectModel.RoundTripDropsTools | AutoGroq/AutoGroq/models/project_base_model.py:77-99 | a project with tools or workflows does not survive the round trip |
| ProjectModel.ProjectBaseModel.constructor | AutoGroq/AutoGroq/models/project_base_model.py:5-41 | the attributes are those of the constructor's specification |
| ProjectModel.ProjectBaseModel.FromDictionary | AutoGroq/AutoGroq/models/project_base_model.py:82-99 | the attributes are those from_dict specifies |
| ProjectModel.ProjectBaseModel.AddDeliverable | AutoGroq/AutoGroq/models/project_base_model.py:44-45 | appends one new deliverable and changes nothing else |
| ProjectModel.ProjectBaseModel.MarkDeliverableDone | AutoGroq/AutoGroq/models/project_base_model.py:48-50 | sets the done flag of an existing deliverable, which then reads as done; nothing else changes |
| ProjectModel.ProjectBaseModel.MarkDeliverableUndone | AutoGroq/AutoGroq/models/project_base_model.py:53-55 | clears the done flag; the deliverable then does not read as done; nothing else changes |
| ProjectModel.ProjectBaseModel.SetReEngineeredPrompt | AutoGroq/AutoGroq/models/project_base_model.py:58-59 | stores the prompt and changes nothing else |
| WorkflowModel.LoadAgentRoundTrip | AutoGroq/AutoGroq/models/workflow_base_model.py:77 | one agent survives its dictionary form, its tools without their functions |
| WorkflowModel.AgentDictsRoundTrip | AutoGroq/AutoGroq/models/workflow_base_model.py:57-77 | the agents list survives its dictionary form, tools without their functions |
| WorkflowModel.SenderFromDict | AutoGroq/AutoGroq/models/workflow_base_model.py:29-36 | fails exactly when one of type, config, timestamp, user_id and tools is missing, the first missing key named |
| WorkflowModel.SenderRoundTrip | AutoGroq/AutoGroq/models/workflow_base_model.py:19-36 | Sender.from_dict(to_dict(s)) is s |
| WorkflowModel.ReceiverFromDict | AutoGroq/AutoGroq/models/workflow_base_model.py:69-78 | every key but agents is required; agents default to [] |
| WorkflowModel.ReceiverEntries | AutoGroq/AutoGroq/models/workflow_base_model.py:57-67 | to_dict stores every attribute under its own key, agents as their dictionaries |
| WorkflowModel.ReceiverRoundTrip | AutoGroq/AutoGroq/models/workflow_base_model.py:57-78 | Receiver.from_dict(to_dict(r)) is r with its agents reloaded |
| WorkflowModel.NewWorkflow | AutoGroq/AutoGroq/models/workflow_base_model.py:81-111 | settings and groupchat_config default to {} when None and are stored otherwise |
| WorkflowModel.FromDict | AutoGroq/AutoGroq/models/workflow_base_model.py:132-150 | sender, receiver, name, description, type, user_id, timestamp and summary_method must be present, a missing sender first; settings default to {} |
| WorkflowModel.ToDictEntries1 | AutoGroq/AutoGroq/models/workflow_base_model.py:115 | id is stored under its key |
| WorkflowModel.ToDictEntries2 | AutoGroq/AutoGroq/models/workflow_base_model.py:118-120 | agents, sender and receiver are stored as their dictionaries |
| WorkflowModel.ToDictEntries3 | AutoGroq/AutoGroq/models/workflow_base_model.py:121-123 | type, user_id and timestamp are stored under their own keys |
| WorkflowModel.ToDictEntries4 | AutoGroq/AutoGroq/models/workflow_base_model.py:124-126 | summary_method, settings and groupchat_config are stored under their own keys |
| WorkflowModel.ToDictEntries5 | AutoGroq/AutoGroq/models/workflow_base_model.py:127-128 | created_at and updated_at are stored under their own keys |
| WorkflowModel.ToDictEntries6 | AutoGroq/AutoGroq/models/workflow_base_model.py:116-117 | name and description are stored under their own keys |
| WorkflowModel.EntriesTyped | AutoGroq/AutoGroq/models/workflow_base_model.py:113-150 | a dictionary with a workflow's entries has the types from_dict expects |
| WorkflowModel.NestedEntriesTyped | AutoGroq/AutoGroq/models/workflow_base_model.py:133-139 | the sender, receiver and agents entries have their records' shapes |
| WorkflowModel.SenderEntryRead | AutoGroq/AutoGroq/models/workflow_base_model.py:133 | the sender entry reads back as the sender |
| WorkflowModel.ReceiverEntryRead | AutoGroq/AutoGroq/models/workflow_base_model.py:134 | the receiver entry reads back as the receiver with its agents reloaded |
| WorkflowModel.AgentsEntryRead | AutoGroq/AutoGroq/models/workflow_base_model.py:139 | the agents entry reads back as the agents reloaded |
| WorkflowModel.FromEntries | AutoGroq/AutoGroq/models/workflow_base_model.py:132-150 | a dictionary whose nested entries read back as the workflow's and whose plain entries are its own reads back as the workflow |
| WorkflowModel.RoundTrip | AutoGroq/AutoGroq/models/workflow_base_model.py:113-150 | from_dict(to_dict(w)) keeps every field; agents come back with their tools' functions dropped |
| TextUtils.Filter | AutoGroq/AutoGroq/utils/text_utils.py:40-42 | the result is no longer than the input and holds exactly the input's characters the class keeps |
| TextUtils.SanitizeTextOnlyKept | AutoGroq/AutoGroq/utils/text_utils.py:38-43 | a character is in the sanitised text exactly when it is in the input and in the kept class |
| TextUtils.SanitizeTextOnePass | AutoGroq/AutoGroq/utils/text_utils.py:38-43 | the non-ASCII pass never removes a character the second pass keeps, so one filter does the work |
| TextUtils.FilterAllKept | AutoGroq/AutoGroq/utils/text_utils.py:40-42 | filtering text whose characters all pass changes nothing |
| TextUtils.SanitizeTextKeepsClean | AutoGroq/AutoGroq/utils/text_utils.py:38-43 | text made only of kept characters is unchanged |
| TextUtils.SanitizeTextIdempotent | AutoGroq/AutoGroq/utils/text_utils.py:38-43 | sanitising twice is sanitising once |
| TextUtils.ReplaceChar | AutoGroq/AutoGroq/utils/text_utils.py:35 | the replaced text has the same length and each occurrence of the character is replaced |
| TextUtils.NormalizeNameShape | AutoGroq/AutoGroq/utils/text_utils.py:33-35 | the normalised name has the sanitised name's length, no space and no upper-case letter; each character is the sanitised one lowered, or '_' for a space |
| TextUtils.SanitizeSpaced | AutoGroq/AutoGroq/utils/text_utils.py:38-43 | "a b" is kept as it is |
| TextUtils.SanitizeUnderscored | AutoGroq/AutoGroq/utils/text_utils.py:38-43 | '_' is not kept: "a_b" becomes "ab" |
| TextUtils.NormalizeSpaced | AutoGroq/AutoGroq/utils/text_utils.py:33-35 | "a b" normalises to "a_b" |
| TextUtils.NormalizeUnderscored | AutoGroq/AutoGroq/utils/text_utils.py:33-35 | "a_b" normalises to "ab" |
| TextUtils.NormalizeNameNotIdempotent | AutoGroq/AutoGroq/utils/text_utils.py:33-43 | normalising "a b" twice drops the '_' the first pass introduced |
| TextUtils.DisplayName | AutoGroq/AutoGroq/utils/text_utils.py:6-7 | the dictionary literal holds the computed name |
| TextUtils.DisplaySystemMessage | AutoGroq/AutoGroq/utils/text_utils.py:6-10 | the dictionary literal holds the computed system message |
| TextUtils.NormalizeConfigName | AutoGroq/AutoGroq/utils/text_utils.py:7 | the name is the normalised configured name, or the normalised agent name when none is configured |
| TextUtils.NormalizeConfigSystemMessage | AutoGroq/AutoGroq/utils/text_utils.py:10 | the system message is the configured one when present, whatever its type, else the default naming the agent |
| TextUtils.NormalizeConfigFixed | AutoGroq/AutoGroq/utils/text_utils.py:8-27 | every other entry is a constant, whatever the configuration and the agent |
| TextUtils.NormalizeConfigKeys | AutoGroq/AutoGroq/utils/text_utils.py:6-28 | the result has exactly the fourteen keys |
| TextUtils.DisplayFixed1 | AutoGroq/AutoGroq/utils/text_utils.py:8 | human_input_mode is "NEVER" |
| TextUtils.DisplayFixed5 | AutoGroq/AutoGroq/utils/text_utils.py:9-11 | max_consecutive_auto_reply is 25 and is_termination_msg is None |
| TextUtils.DisplayFixed2 | AutoGroq/AutoGroq/utils/text_utils.py:12-14 | code_execution_config is "none", default_auto_reply "" and description "Assistant Agent" |
| TextUtils.DisplayFixed3 | AutoGroq/AutoGroq/utils/text_utils.py:15-24 | llm_config is the fixed dictionary, admin_name "Admin" and messages [] |
| TextUtils.DisplayFixed4 | AutoGroq/AutoGroq/utils/text_utils.py:25-27 | max_round is 100, speaker_selection_method "auto" and allow_repeat_speaker True |
| UiUtils.StartIndex | AutoGroq/AutoGroq/utils/ui_utils.py:467-472 | start_index never passes the characters read, and is before them once any is read |
| UiUtils.Spans | AutoGroq/AutoGroq/utils/ui_utils.py:468-477 | every candidate found so far is a non-empty stretch ending by the characters read |
| UiUtils.Slices | AutoGroq/AutoGroq/utils/ui_utils.py:477 | one slice per span, each the text between its bounds |
| UiUtils.OpenRun | AutoGroq/AutoGroq/utils/ui_utils.py:469-472 | while the stack is non-empty, start_index is the '{' that opened it at depth 0 and the depth has stayed positive since |
| UiUtils.OpenRunUnique | AutoGroq/AutoGroq/utils/ui_utils.py:469-472 | a depth that is 0 at lo and positive afterwards pins start_index down to lo |
| UiUtils.SpansBalanced | AutoGroq/AutoGroq/utils/ui_utils.py:468-477 | every candidate is a balanced stretch, and the candidates are in order without overlap |
| UiUtils.BalancedFound | AutoGroq/AutoGroq/utils/ui_utils.py:468-477 | a balanced stretch is found once it has been read |
| UiUtils.SpansExactly | AutoGroq/AutoGroq/utils/ui_utils.py:464-477 | the candidates are exactly the stretches from a '{' at depth 0 to the '}' that brings the depth back to 0; a stray '}' and an unclosed '{' contribute nothing |
| UiUtils.ParsedAll | AutoGroq/AutoGroq/utils/ui_utils.py:478-486 | no more values than candidates, each the parse of some candidate |
| UiUtils.ScanCandidates | AutoGroq/AutoGroq/utils/ui_utils.py:465-477 | the loop with its stack collects exactly the candidates |
| UiUtils.ParseCandidates | AutoGroq/AutoGroq/utils/ui_utils.py:478-486 | the loop keeps the parsed values of the candidates that parse, in order |
| UiUtils.ExtractJsonObjects | AutoGroq/AutoGroq/utils/ui_utils.py:464-486 | the parsed values of the candidates that parse, in order |
| UiUtils.ParsedAllAppend | AutoGroq/AutoGroq/utils/ui_utils.py:479-486 | parsing a concatenation parses each part in order |
| UiUtils.ParsedOne | AutoGroq/AutoGroq/utils/ui_utils.py:480-485 | one candidate gives its value when it parses and nothing when it does not |
| UiUtils.ParseJson | AutoGroq/AutoGroq/utils/ui_utils.py:682-693 | the parsed list, or [] when the text does not parse or parses to something that is not a list |
| Helpers.BreakAsWrittenMissesExclamation | AutoGroq/src/utils/helpers.py:103 | as written the break characters are newline, '.' and '?': the element '\\!' is two characters, so '!' is never a break point |
| Helpers.BreakSearch | AutoGroq/src/utils/helpers.py:102-105 | the searched end stays after the window's start and never grows |
| Helpers.BreakSearchFinds | AutoGroq/src/utils/helpers.py:102-105 | the search ends one past the last break character in the searched range, or leaves the end alone when there is none |
| Helpers.ChunkEnd | AutoGroq/src/utils/helpers.py:97-105 | the chunk ends after its start, within chunk_size and the text, and at the text's end when the window reaches it |
| Helpers.ChunkEndAtBreak | AutoGroq/src/utils/helpers.py:100-105 | a window short of the text's end is cut one past the last break character after its midpoint, or kept whole when there is none |
| Helpers.StepAsWrittenAtEnd | AutoGroq/src/utils/helpers.py:96-108 | as written, a window that reaches the text's end sends the loop back to len(text) - overlap |
| Helpers.ChunkTextAsWrittenLoops | AutoGroq/src/utils/helpers.py:96-108 | as written, with 0 < overlap <= chunk_size the start len(text) - overlap lies inside the text and maps to itself: the loop never ends |
| Helpers.ChunkTextAsWrittenTrace | AutoGroq/src/utils/helpers.py:96-108 | chunk_text("abcd", 3, 1) as written visits the starts 0, 2, 3, 3, ... |
| Helpers.ChunkTextAsWrittenStalls | AutoGroq/src/utils/helpers.py:96-108 | as written, with an overlap of at least chunk_size the next start is never after the current one, in the middle of the text too |
| Helpers.ChunkTextAsWrittenStallTrace | AutoGroq/src/utils/helpers.py:96-108 | chunk_text("abcdef", 2, 2) as written takes the chunk "ab" and starts at 0 again |
| Helpers.NextStart | AutoGroq/src/utils/helpers.py:108 | corrected: the next start moves forward, and is end - overlap when that does |
| Helpers.Spans | AutoGroq/src/utils/helpers.py:96-108 | every chunk is a non-empty stretch of the text from the start on |
| Helpers.Slices | AutoGroq/src/utils/helpers.py:107 | one slice per span, each the text between its bounds |
| Helpers.SpansUnfold | AutoGroq/src/utils/helpers.py:96-108 | the first chunk runs to ChunkEnd, and the rest follow from the next start unless that chunk reached the end |
| Helpers.SpansEnds | AutoGroq/src/utils/helpers.py:96-108 | the chunks start at the start and the last ends at the text's end |
| Helpers.SpansBounded | AutoGroq/src/utils/helpers.py:97 | each chunk holds at most chunk_size characters |
| Helpers.SpansStep | AutoGroq/src/utils/helpers.py:96-108 | each chunk starts after the previous one's start and no later than its end |
| Helpers.SpansAdjacent | AutoGroq/src/utils/helpers.py:108 | with no overlap each chunk starts where the previous one ended |
| Helpers.SpansCover | AutoGroq/src/utils/helpers.py:96-108 | every character lies in some chunk |
| Helpers.SlicesUnfold | AutoGroq/src/utils/helpers.py:107 | the chunk strings are the first window's text followed by the rest |
| Helpers.SpansConcat | AutoGroq/src/utils/helpers.py:96-110 | with no overlap the chunks put back together are the text |
| Helpers.ChunksSized | AutoGroq/src/utils/helpers.py:90-110 | a short text is one chunk; otherwise every chunk is non-empty and at most chunk_size long |
| Helpers.ChunksConcat | AutoGroq/src/utils/helpers.py:78-110 | with no overlap the chunks concatenate back to the text |
| Helpers.NoOverlapAsWritten | AutoGroq/src/utils/helpers.py:96-108 | with no overlap the corrected loop takes exactly the as-written loop's steps, which then also stops at the text's end |
| Helpers.WindowEnd | AutoGroq/src/utils/helpers.py:97-105 | the inner loop computes ChunkEnd with '!' as a break character |
| Helpers.ChunkText | AutoGroq/src/utils/helpers.py:78-110 | corrected: the loop computes the chunks, stopping after the chunk that reaches the text's end |
| Helpers.ToolLine | AutoGroq/src/utils/helpers.py:147 | a tool's line, or the KeyError of its missing name (looked up first) or description |
| Helpers.FormatAgentPrompt | AutoGroq/src/utils/helpers.py:113-151 | the two loops build the prompt the specification describes |
| Helpers.ToolLinesErrLasts | AutoGroq/src/utils/helpers.py:146-147 | once a prefix of the tools fails, the whole list fails the same way |
| Helpers.ToolLinesError | AutoGroq/src/utils/helpers.py:146-147 | the tool lines fail exactly when some tool lacks a key, with the error of the first such tool |
| Helpers.CountCharAppend | AutoGroq/src/utils/helpers.py:139-147 | occurrences in a concatenation add up |
| Helpers.EntryLineOneNewline | AutoGroq/src/utils/helpers.py:140 | an entry line of newline-free texts holds exactly one newline |
| Helpers.NoNewline | AutoGroq/src/utils/helpers.py:140 | a newline-free text counts no newline |
| Helpers.ContextOneLineEach | AutoGroq/src/utils/helpers.py:138-141 | the context block holds one line per entry |
| Helpers.ToolsOneLineEach | AutoGroq/src/utils/helpers.py:144-148 | the tool block holds one line per tool |
| Helpers.PromptShape | AutoGroq/src/utils/helpers.py:113-151 | the prompt keeps the user prompt, extends the system prompt, and carries the tools exactly when a non-empty list was given; with neither context nor tools it is the two prompts alone |
| BranchingChain.Chain.AddStep | SolnAI-agents/shared/examples/prompt_chains/branching_chain.py:41-53 | the step is stored under its id, replacing an earlier one; the results object is kept |
| BranchingChain.StepOutcome | SolnAI-agents/shared/examples/prompt_chains/branching_chain.py:115-116 | an unknown step id raises StepNotFound naming it |
| BranchingChain.KwargsShow | SolnAI-agents/shared/examples/prompt_chains/branching_chain.py:121-122 | the prompt is formatted with one keyword argument per stored result, shown with str() |
| BranchingChain.StoredEntries | SolnAI-agents/shared/examples/prompt_chains/branching_chain.py:138-148 | the reply goes under output_key; the processed reply goes under output_key + "_processed" exactly when a processor exists; every other entry is kept |
| BranchingChain.Chain.ExecuteStep | SolnAI-agents/shared/examples/prompt_chains/branching_chain.py:108-152 | succeeds iff the step's outcome is a success, and then the results are that outcome; on failure it raises that error and the results are unchanged |
| BranchingChain.Advance | SolnAI-agents/shared/examples/prompt_chains/branching_chain.py:76-97 | a turn goes on only from a known step whose next_step is a string (the next id is that string) or a callable (the next id is what it returned); it stops without error only at a step whose next_step is None |
| BranchingChain.WalkContinues | SolnAI-agents/shared/examples/prompt_chains/branching_chain.py:76-101 | a turn that goes on continues the walk from the next id, with the id appended to the path when it is truthy |
| BranchingChain.WalkFirstStep | SolnAI-agents/shared/examples/prompt_chains/branching_chain.py:76-85 | an empty id ends the walk at once; an unknown id raises StepNotFound; a step whose next_step is None ends the walk after storing its output, adding nothing to the path |
| BranchingChain.WalkPathGrows | SolnAI-agents/shared/examples/prompt_chains/branching_chain.py:73 | the path only grows, by at most one id per step, and keeps what was taken before |
| BranchingChain.WalkPathTruthy | SolnAI-agents/shared/examples/prompt_chains/branching_chain.py:99-101 | every id appended to the path is truthy (non-empty) |
| BranchingChain.WalkPathKnown | SolnAI-agents/shared/examples/prompt_chains/branching_chain.py:76-81 | every id on the path except the last was a known step that ran |
| BranchingChain.StartEntries | SolnAI-agents/shared/examples/prompt_chains/branching_chain.py:67-69 | the results start from the context's entries (when it is non-empty), with initial_input stored; with no context or an empty one they hold initial_input alone |
| BranchingChain.PathJson | SolnAI-agents/shared/examples/prompt_chains/branching_chain.py:103-104 | path_taken is the list of the ids, in order |
| BranchingChain.Chain.Execute | SolnAI-agents/shared/examples/prompt_chains/branching_chain.py:55-106 | the loop's results, path and raised error are those of the reference walk from [start_step_id]; a non-empty context is the very object updated and returned, otherwise the results are a new dictionary; path_taken is stored only when the walk ends without raising |
| BranchingChain.RouteCategory | SolnAI-agents/shared/examples/prompt_chains/branching_chain.py:169-179 | the route is one of the four support steps |
| BranchingChain.RouteOrder | SolnAI-agents/shared/examples/prompt_chains/branching_chain.py:172-179 | technical/bug wins over billing/payment, which wins over feature/request; general_inquiry iff none of the six words occurs |
| BranchingChain.RouteIgnoresCase | SolnAI-agents/shared/examples/prompt_chains/branching_chain.py:170 | the category read from category_processed is matched lowercased |
| BranchingChain.SupportPath | SolnAI-agents/shared/examples/prompt_chains/branching_chain.py:195-245 | a support ticket that runs through without raising takes exactly the path categorize, one of the four branches, prioritize |
| BranchingChain.Chain.constructor | SolnAI-agents/shared/examples/prompt_chains/branching_chain.py:36-39 | a new chain has no steps and an empty results dictionary of its own |
| RecursiveChain.SubMatches | SolnAI-agents/shared/examples/prompt_chains/recursive_chain.py:167-169 | line i yields the stripped text after "SUB-PROBLEM:" exactly when its stripped form starts with the marker |
| RecursiveChain.ExtractSubProblems | SolnAI-agents/shared/examples/prompt_chains/recursive_chain.py:164-171 | the loop over the reply's lines collects the sub-problems of the lines, in line order |
| RecursiveChain.SubProblemsAppend | SolnAI-agents/shared/examples/prompt_chains/recursive_chain.py:167-170 | the sub-problems of two runs of lines are those of the first followed by those of the second |
| RecursiveChain.SubProblemLineItem | SolnAI-agents/shared/examples/prompt_chains/recursive_chain.py:93 | a line written as the prompt asks ("SUB-PROBLEM: " and a clean description) is read back as that description |
| RecursiveChain.SubProblemsRoundTrip | SolnAI-agents/shared/examples/prompt_chains/recursive_chain.py:164-171 | sub-problems written one per line as the prompt asks are all read back, in order |
| RecursiveChain.UpToNewline | SolnAI-agents/shared/examples/prompt_chains/recursive_chain.py:175 | the lazy group ends at the first newline, or takes the whole rest when there is none |
| RecursiveChain.AfterMarker | SolnAI-agents/shared/examples/prompt_chains/recursive_chain.py:175-178 | there is a match exactly when the marker occurs in the text |
| RecursiveChain.ExtractSolution | SolnAI-agents/shared/examples/prompt_chains/recursive_chain.py:180-185 | with no "SOLUTION:" marker the whole reply is the solution |
| RecursiveChain.SolutionInsideNeed | SolnAI-agents/shared/examples/prompt_chains/recursive_chain.py:173-185 | "SOLUTION:" is found inside every "NEED-SOLUTION:", so a reply with a need marker always has a solution, and when no earlier one exists the solution read is the need text |
| RecursiveChain.Opened | SolnAI-agents/shared/examples/prompt_chains/recursive_chain.py:76-87 | the history gains one record, numbered one past its length, with the depth and problem and nothing read yet; the earlier records are kept |
| RecursiveChain.WithReply | SolnAI-agents/shared/examples/prompt_chains/recursive_chain.py:118-120 | only the call's own record changes, gaining its sub-problems, need and initial solution |
| RecursiveChain.WithSolution | SolnAI-agents/shared/examples/prompt_chains/recursive_chain.py:155 | only the call's own record changes, gaining its final solution |
| RecursiveChain.SolveCall | SolnAI-agents/shared/examples/prompt_chains/recursive_chain.py:57-162 | the history only grows, its earlier records untouched; a call is refused with the depth error exactly when the depth is beyond the limit, and then nothing is recorded |
| RecursiveChain.FirstReply | SolnAI-agents/shared/examples/prompt_chains/recursive_chain.py:106-162 | after the first reply the history only grows and the records before the call's own stay as they were |
| RecursiveChain.SubReply | SolnAI-agents/shared/examples/prompt_chains/recursive_chain.py:127-155 | after the sub-call, only the call's own record may change, and its id, depth and problem stay |
| RecursiveChain.SolveCallRecords | SolnAI-agents/shared/examples/prompt_chains/recursive_chain.py:68-127 | an accepted call first appends its own record numbered len(history)+1 with its depth and problem; every record it or its sub-calls add has a depth between its own and the limit, so nesting never exceeds max_recursion_depth + 1 levels; ids stay 1, 2, ... in order |
| RecursiveChain.FirstReplyRecords | SolnAI-agents/shared/examples/prompt_chains/recursive_chain.py:113-162 | the call's own record keeps its id, depth and problem; every later record lies within the depth bounds; numbering is kept |
| RecursiveChain.SubReplyRecords | SolnAI-agents/shared/examples/prompt_chains/recursive_chain.py:127-155 | the depth bounds and numbering that the sub-call keeps survive the caller's final update |
| RecursiveChain.SolvedWithoutRecursion | SolnAI-agents/shared/examples/prompt_chains/recursive_chain.py:113-162 | a first reply with no (or an empty) NEED-SOLUTION adds exactly one record, holding the reply's sub-problems and solution, and returns that solution with those sub-problems |
| RecursiveChain.Chain.constructor | SolnAI-agents/shared/examples/prompt_chains/recursive_chain.py:37-55 | the settings are stored and the call history starts empty |
| RecursiveChain.Chain.Solve | SolnAI-agents/shared/examples/prompt_chains/recursive_chain.py:57-162 | the new call history and the result are those of SolveCall on the old history |
| ChainUtils.DigitRun | SolnAI-agents/shared/examples/prompt_chains/chain_utils.py:151 | the run of digits `\d+` matches: every character in it is a digit and the one after it is not |
| ChainUtils.DigitRunIs | SolnAI-agents/shared/examples/prompt_chains/chain_utils.py:151 | a line that opens with a given digit string followed by a non-digit has exactly that run |
| ChainUtils.Matches | SolnAI-agents/shared/examples/prompt_chains/chain_utils.py:144-147 | one match result per line, the item pattern applied to that line |
| ChainUtils.CollectItems | SolnAI-agents/shared/examples/prompt_chains/chain_utils.py:143-147 | the loop over the lines appends the stripped group of every matching line, in line order |
| ChainUtils.ParseList | SolnAI-agents/shared/examples/prompt_chains/chain_utils.py:130-160 | `ListOutputParser.parse`: the bullet items, else the numbered items, else ParseError "Could not find a list in the output" |
| ChainUtils.SomesAppend | SolnAI-agents/shared/examples/prompt_chains/chain_utils.py:144-147 | the items collected from two runs of match results are those of each, in order |
| ChainUtils.ItemsAppend | SolnAI-agents/shared/examples/prompt_chains/chain_utils.py:144-147 | the items of two runs of lines are the items of each, in order |
| ChainUtils.SomesOfAll | SolnAI-agents/shared/examples/prompt_chains/chain_utils.py:144-147 | when every line matches, the items are exactly the matched groups |
| ChainUtils.TailOfClean | SolnAI-agents/shared/examples/prompt_chains/chain_utils.py:121 | a space and a clean item match the pattern's tail `\s+(.+)$` with the item as the group |
| ChainUtils.BulletLineItem | SolnAI-agents/shared/examples/prompt_chains/chain_utils.py:121 | "- item" is matched by the default pattern and gives the item back |
| ChainUtils.ItemsOfBulletLines | SolnAI-agents/shared/examples/prompt_chains/chain_utils.py:143-147 | bullet lines of clean items give back the items in order |
| ChainUtils.ListRoundTrip | SolnAI-agents/shared/examples/prompt_chains/chain_utils.py:130-169 | a non-empty list written as the format instructions ask parses back to the same items |
| ChainUtils.NumberedLineNoBullet | SolnAI-agents/shared/examples/prompt_chains/chain_utils.py:144-155 | a numbered line is not a bullet line, so numbered items are read only when there are no bullets |
| ChainUtils.NumberedLineItem | SolnAI-agents/shared/examples/prompt_chains/chain_utils.py:151-155 | "k. item" is matched by the numbered pattern and gives the item back |
| ChainUtils.KvPairs | SolnAI-agents/shared/examples/prompt_chains/chain_utils.py:197-206 | one optional (key, value) per line: blank and '#' lines and lines without the separator give none |
| ChainUtils.PairsMapStep | SolnAI-agents/shared/examples/prompt_chains/chain_utils.py:196-206 | each further line adds its pair to the dictionary built so far, overwriting the key |
| ChainUtils.ParseKeyValues | SolnAI-agents/shared/examples/prompt_chains/chain_utils.py:183-211 | `KeyValueOutputParser.parse`: the dictionary of the stripped pairs, else ParseError "Could not find key-value pairs in the output" |
| ChainUtils.KeyFromPair | SolnAI-agents/shared/examples/prompt_chains/chain_utils.py:196-206 | every key of the dictionary comes from some line's pair |
| ChainUtils.PairKeyKept | SolnAI-agents/shared/examples/prompt_chains/chain_utils.py:196-206 | every line's key is in the dictionary |
| ChainUtils.KvKeys | SolnAI-agents/shared/examples/prompt_chains/chain_utils.py:196-206 | a key is in the parsed dictionary exactly when some line gives it |
| ChainUtils.LastPairWins | SolnAI-agents/shared/examples/prompt_chains/chain_utils.py:206 | a key's value is that of the last pair with the key |
| ChainUtils.KvLastWins | SolnAI-agents/shared/examples/prompt_chains/chain_utils.py:197-206 | in the parsed dictionary a key has the value of the last line that gives it |
| ChainUtils.LastIndexOf | SolnAI-agents/shared/examples/prompt_chains/chain_utils.py:86 | the position of the last occurrence of a character, where the greedy `[\s\S]*\}` stops |
| ChainUtils.ParseJsonText | SolnAI-agents/shared/examples/prompt_chains/chain_utils.py:67-96 | `JsonOutputParser.parse`: with no fenced block and no braces the result is ParseError "Could not find JSON in the output" |
| ChainUtils.JsonReplyParses | SolnAI-agents/shared/examples/prompt_chains/chain_utils.py:67-96 | a reply fenced as the format instructions ask parses to json.loads of the block, or ParseError "Failed to parse JSON: ..." with its message |
| ChainUtils.FencedReplyOpens | SolnAI-agents/shared/examples/prompt_chains/chain_utils.py:81 | the opening ```json fence is found at the start of such a reply and one whitespace character follows it |
| ChainUtils.FencedReplyCloses | SolnAI-agents/shared/examples/prompt_chains/chain_utils.py:81 | the lazy group stops at the closing fence after the block |
| ChainUtils.NoFenceBefore | SolnAI-agents/shared/examples/prompt_chains/chain_utils.py:81 | no closing fence starts inside a fence-free block |
| ChainUtils.FencedRoundTrip | SolnAI-agents/shared/examples/prompt_chains/chain_utils.py:81-83 | the fenced group of such a reply is the block itself |
| ChainUtils.FormatInstructions | SolnAI-agents/shared/examples/prompt_chains/chain_utils.py:98-116 | `get_format_instructions`: the JSON instructions open with the fixed header and close with the closing fence |
| ChainUtils.Prepend | SolnAI-agents/shared/examples/prompt_chains/chain_utils.py:255 | text in front of a format result: success is kept with the text prepended, an error is passed on |
| ChainUtils.FormatDoubled | SolnAI-agents/shared/examples/prompt_chains/chain_utils.py:255 | in `str.format` a doubled brace stands for one brace |
| ChainUtils.FormatPlain | SolnAI-agents/shared/examples/prompt_chains/chain_utils.py:255 | in `str.format` any other character stands for itself |
| ChainUtils.Missing | SolnAI-agents/shared/examples/prompt_chains/chain_utils.py:250 | the missing variables are exactly the declared ones that are not among the arguments |
| ChainUtils.Format | SolnAI-agents/shared/examples/prompt_chains/chain_utils.py:236-255 | `PromptTemplate.format`: the KeyError naming missing variables is raised exactly when a declared variable has no argument, and names exactly those |
| ChainUtils.StrFormatNeverMissingVariables | SolnAI-agents/shared/examples/prompt_chains/chain_utils.py:255 | `str.format` itself never raises the missing-variables KeyError |
| ChainUtils.MissingKeyHasNoArgument | SolnAI-agents/shared/examples/prompt_chains/chain_utils.py:255 | a KeyError from `str.format` names a field that has no argument |
| ChainUtils.EscapedPrefix | SolnAI-agents/shared/examples/prompt_chains/chain_utils.py:255 | a prefix with doubled braces formats to itself, followed by the rest's result |
| ChainUtils.EscapedNothing | SolnAI-agents/shared/examples/prompt_chains/chain_utils.py:255 | the empty escaped prefix changes nothing |
| ChainUtils.EscapedStep | SolnAI-agents/shared/examples/prompt_chains/chain_utils.py:255 | one more escaped character of prefix is one more character in front of the result |
| ChainUtils.EscapedChar | SolnAI-agents/shared/examples/prompt_chains/chain_utils.py:255 | the escaped first character formats back to that character |
| ChainUtils.PrependTwice | SolnAI-agents/shared/examples/prompt_chains/chain_utils.py:255 | prepending twice is prepending the concatenation |
| ChainUtils.EscapeRoundTrip | SolnAI-agents/shared/examples/prompt_chains/chain_utils.py:255 | text with its braces doubled formats back to the text, whatever the arguments |
| ChainUtils.FieldReplaced | SolnAI-agents/shared/examples/prompt_chains/chain_utils.py:255 | a plain `{name}` field with an argument is replaced by the argument |
| ChainUtils.TemplateFilled | SolnAI-agents/shared/examples/prompt_chains/chain_utils.py:222-255 | a template of text, one declared field and text formats to the texts around the argument |
| ChainUtils.EscapedThenFormatted | SolnAI-agents/shared/examples/prompt_chains/chain_utils.py:255 | escaped text in front of a template that formats to v formats to the text and v |
| ChainUtils.FormatWithAllArguments | SolnAI-agents/shared/examples/prompt_chains/chain_utils.py:249-255 | with every declared variable given, `PromptTemplate.format` is `str.format` |
| ChainUtils.FieldThenEscaped | SolnAI-agents/shared/examples/prompt_chains/chain_utils.py:255 | a field followed by escaped text formats to the argument and the text |
| ChainUtils.SumAllRemove | SolnAI-agents/shared/examples/prompt_chains/chain_utils.py:316-332 | the nested sum over the dictionary's lists does not depend on the order of the keys |
| ChainUtils.RecordedSum | SolnAI-agents/shared/examples/prompt_chains/chain_utils.py:289-296 | appending x under a step adds exactly x to the nested sum |
| ChainUtils.RecordedCounts | SolnAI-agents/shared/examples/prompt_chains/chain_utils.py:289-296 | recording under a step adds one entry to that step's list and leaves every other step's list alone |
| ChainUtils.CallCounts | SolnAI-agents/shared/examples/prompt_chains/chain_utils.py:355 | the call counts have the steps of step_times as keys and each list's length as value |
| ChainUtils.CountsMatchRecorded | SolnAI-agents/shared/examples/prompt_chains/chain_utils.py:289-291 | after ending a step once more, every list's length is still the number of times its step was ended |
| ChainUtils.MetricsEnded | SolnAI-agents/shared/examples/prompt_chains/chain_utils.py:277-299 | ending a step keeps the tracker's invariant: counts match ended steps and tokens add up to the recorded counts |
| ChainUtils.ChainMetrics.constructor | SolnAI-agents/shared/examples/prompt_chains/chain_utils.py:260-265 | a new tracker has no times, no token counts and no open step |
| ChainUtils.ChainMetrics.StartStep | SolnAI-agents/shared/examples/prompt_chains/chain_utils.py:267-275 | `start_step` opens the named step at the current time and changes nothing else |
| ChainUtils.ChainMetrics.EndStep | SolnAI-agents/shared/examples/prompt_chains/chain_utils.py:277-299 | `end_step` does nothing with no open step; otherwise it appends the elapsed time, the token count when given, and closes the step |
| ChainUtils.ChainMetrics.CallCountIsEndCount | SolnAI-agents/shared/examples/prompt_chains/chain_utils.py:355 | a step's call count is the number of times it was ended |
| ChainUtils.ChainMetrics.GetTotalTokens | SolnAI-agents/shared/examples/prompt_chains/chain_utils.py:325-332 | `get_total_tokens` is the sum of every token count ever recorded |
| ChainUtils.ChainMetrics.GetTotalTime | SolnAI-agents/shared/examples/prompt_chains/chain_utils.py:316-323 | `get_total_time` is the sum of every list of times |
| ChainUtils.ChainMetrics.GetSummary | SolnAI-agents/shared/examples/prompt_chains/chain_utils.py:334-362 | `get_summary`: the totals, and for every step of step_times the number of times it was ended |
| ChainUtils.CreateChainStep | SolnAI-agents/shared/examples/prompt_chains/chain_utils.py:364-405 | `create_chain_step`: the fields as given; with a parser, the system prompt is followed by a blank line and the parser's format instructions, and the parser is kept |
| ChainUtils.LinePair | SolnAI-agents/shared/examples/prompt_chains/chain_utils.py:197-205 | one line of the loop: nothing for a blank or comment line, else the stripped pair of the split, or the empty-separator error exactly on a candidate line |
| TextProcessor.CountTokensBatch | SolnAI-agents/shared/utils/text_processor.py:77-81 | one count per text, in order, each the number of whitespace-separated words of that text |
| TextProcessor.GroupSize | SolnAI-agents/shared/utils/text_processor.py:104-111 | the effective chunk length is at least one word: a chunk_size of 1 or less closes a chunk after every word |
| TextProcessor.GroupsFlatten | SolnAI-agents/shared/utils/text_processor.py:104-114 | the groups the chunking loop closes, put back together, are exactly the words in order: no word is lost, repeated or moved |
| TextProcessor.GroupsSizes | SolnAI-agents/shared/utils/text_processor.py:108-114 | every group is non-empty and at most chunk_size words long, and every group except the last is exactly chunk_size words long |
| TextProcessor.ChunkText | SolnAI-agents/shared/utils/text_processor.py:98-116 | the fallback chunk_text returns the space-joined runs of chunk_size words of text.split(), the last run shorter |
| TextProcessor.ChunkWords | SolnAI-agents/shared/utils/text_processor.py:100-116 | the loop over the words (append, count, close the chunk at chunk_size, flush the remainder) yields the joined groups of the word list |
| TextProcessor.WordsOfJoin | SolnAI-agents/shared/utils/text_processor.py:109 | splitting a chunk made by " ".join of words gives those words back |
| TextProcessor.ChunksKeepWords | SolnAI-agents/shared/utils/text_processor.py:98-116 | each chunk splits back into its group of words, and the chunks' words in order are the words of the text |
| TextProcessor.ChunkSizes | SolnAI-agents/shared/utils/text_processor.py:98-116 | no chunk is empty, each holds between 1 and chunk_size tokens, all but the last exactly chunk_size, and the chunks' token counts add up to the text's count |
| TextProcessor.ChunkTextBatch | SolnAI-agents/shared/utils/text_processor.py:130-134 | one chunk list per text, in order, each that text's chunk_text |
| TextProcessor.ProcessText | SolnAI-agents/shared/utils/text_processor.py:151-159 | the loop reassigning result once per operation yields the operations applied in list order |
| TextProcessor.ProcessedAppend | SolnAI-agents/shared/utils/text_processor.py:152-158 | running two lists of operations one after the other is the same as running their concatenation |
| TextProcessor.KnownOnly | SolnAI-agents/shared/utils/text_processor.py:153-158 | the operations kept are only "lowercase", "uppercase" and "trim" |
| TextProcessor.UnknownIgnored | SolnAI-agents/shared/utils/text_processor.py:152-158 | an operation other than the three known names leaves the text unchanged: dropping it changes nothing |
| TextProcessor.LowercaseThenTrim | SolnAI-agents/shared/utils/text_processor.py:142 | the example ["lowercase", "trim"] yields text with no upper-case letter and no leading or trailing whitespace |
| TextProcessor.StripKeepsNoUpper | SolnAI-agents/shared/utils/text_processor.py:157-158 | strip() introduces no upper-case letter |
| TextProcessor.ProcessTextBatch | SolnAI-agents/shared/utils/text_processor.py:172-176 | one result per text, in order, each that text's process_text with the same operations |
| TextProcessingNode.RemoveHtmlNoClose | SolnAI-agents/nodes/text_processing_node.py:88 | a text without any '>' matches no tag and is returned unchanged |
| TextProcessingNode.RemoveHtmlLeavesNoTag | SolnAI-agents/nodes/text_processing_node.py:88 | after re.sub(r'<[^>]*>', '', text) no '<' is followed anywhere by a '>': every tag is gone |
| TextProcessingNode.RemoveHtmlKeepsTagless | SolnAI-agents/nodes/text_processing_node.py:88 | a text holding no tag is returned unchanged |
| TextProcessingNode.RemoveHtmlIdempotent | SolnAI-agents/nodes/text_processing_node.py:81-88 | removing tags twice gives the same text as removing them once |
| TextProcessingNode.RunLength | SolnAI-agents/nodes/text_processing_node.py:98 | the leading run of \w characters ends within the text and holds only word characters |
| TextProcessingNode.WordRuns | SolnAI-agents/nodes/text_processing_node.py:98 | re.findall(r'\w+', …) yields non-empty runs of word characters, with no upper-case letter when the lowered text has none |
| TextProcessingNode.Candidates | SolnAI-agents/nodes/text_processing_node.py:100-101 | every word kept is one of the words, is not one of the ten stopwords, and is longer than three characters |
| TextProcessingNode.Distinct | SolnAI-agents/nodes/text_processing_node.py:103 | the Counter's keys: every word once, and nothing that is not a word |
| TextProcessingNode.Insert | SolnAI-agents/nodes/text_processing_node.py:105 | placing one key into the ordered keys adds exactly that key |
| TextProcessingNode.InsertByCount | SolnAI-agents/nodes/text_processing_node.py:105 | placing a key into keys ordered by falling count keeps them ordered by falling count |
| TextProcessingNode.InsertPos | SolnAI-agents/nodes/text_processing_node.py:105 | the slot a key takes in keys ordered by falling count: every word before it is counted at least as often, the word at it strictly less often |
| TextProcessingNode.InsertAfterTies | SolnAI-agents/nodes/text_processing_node.py:105 | a key with a tied count lands after the keys already placed (Counter's first-occurrence tie order); the other keys keep their order |
| TextProcessingNode.SortByCount | SolnAI-agents/nodes/text_processing_node.py:105 | most_common orders a permutation of the Counter's keys |
| TextProcessingNode.SortByCountSorted | SolnAI-agents/nodes/text_processing_node.py:105 | most_common's order never puts a word before one counted more often |
| TextProcessingNode.TopTenMembers | SolnAI-agents/nodes/text_processing_node.py:103-105 | most_common(10) yields at most ten words, each one of the counted words, none twice |
| TextProcessingNode.TopTenByCount | SolnAI-agents/nodes/text_processing_node.py:105 | the ten keywords come most frequent first |
| TextProcessingNode.TopTenMostCommon | SolnAI-agents/nodes/text_processing_node.py:105 | every counted word left out of the ten occurs no more often than any word kept |
| TextProcessingNode.KeywordsAreCandidates | SolnAI-agents/nodes/text_processing_node.py:96-105 | every keyword is a lowercase run of word characters from the text, longer than three characters and not a stopword |
| TextProcessingNode.DistinctAfterSort | SolnAI-agents/nodes/text_processing_node.py:103-105 | reordering the Counter's distinct keys lists no key twice |
| TextProcessingNode.Recorded | SolnAI-agents/nodes/text_processing_node.py:62-70 | an operation writes only its own key of the result dictionary: the other keys keep their values |
| TextProcessingNode.Variables.constructor | SolnAI-agents/nodes/text_processing_node.py:38 | the flow's variables dictionary, held as an object that process updates in place |
| TextProcessingNode.Node.constructor | SolnAI-agents/nodes/text_processing_node.py:30-36 | inputVariable, operations, chunkSize and resultVariable come from the config, defaulting to "", ["count_tokens"], 1000 and "" |
| TextProcessingNode.Node.Process | SolnAI-agents/nodes/text_processing_node.py:38-114 | process updates and returns the same variables object; its new entries are those of the input checks, the operation loop and the result store |
| TextProcessingNode.InputChecks | SolnAI-agents/nodes/text_processing_node.py:47-56 | a missing or empty input variable leaves the variables unchanged; a non-string input is copied to the result variable and nothing else changes |
| TextProcessingNode.ResultStored | SolnAI-agents/nodes/text_processing_node.py:107-114 | for a string input only the result variable can change; it is set only when named, to a dictionary whose "text" is the transformed text |
| TextProcessingNode.RunTextIsProcessText | SolnAI-agents/nodes/text_processing_node.py:72-79 | without remove_html the node transforms the text exactly as TextProcessor.process_text does with the same operation list |
| TextProcessingNode.CountAndChunksAfterEarlierOps | SolnAI-agents/nodes/text_processing_node.py:61-70 | the last count_tokens (or chunk) in the list decides the key, and it sees the text as the operations before it left it |
| TextProcessingNode.NoCountWithoutOp | SolnAI-agents/nodes/text_processing_node.py:61-105 | the result holds token_count, chunks and keywords exactly when the operation list names count_tokens, chunk and extract_keywords |
| Db.SupabaseSettings | SolnAI-agents/shared/utils/db.py:23-29 | the client is built exactly when SUPABASE_URL is set and SUPABASE_KEY or SUPABASE_SERVICE_KEY is; SUPABASE_KEY wins when non-empty; otherwise the ValueError message |
| Db.ReversedAt | SolnAI-agents/shared/utils/db.py:63 | response.data[::-1] has the same length and holds at position i the row at position len-1-i |
| Db.ReversedTwice | SolnAI-agents/shared/utils/db.py:63 | reversing the rows twice gives them back |
| Db.FetchConversationHistory | SolnAI-agents/shared/utils/db.py:52-70 | a failing query becomes HTTPException 500 with detail "Failed to fetch conversation history: " and the error text; no other path raises |
| Db.ChronologicalOrder | SolnAI-agents/shared/utils/db.py:55-64 | the newest-first rows come back as the same rows oldest first |
| Db.MessageObject | SolnAI-agents/shared/utils/db.py:100-106 | the stored message holds exactly type and content, plus data only when data is given and non-empty |
| Db.StoredRow | SolnAI-agents/shared/utils/db.py:108-111 | the inserted row holds exactly session_id and the message object |
| Db.StoreMessage | SolnAI-agents/shared/utils/db.py:108-119 | store_message returns the first created record, {} when none comes back, and HTTPException 500 "Failed to store message: …" when the insert fails |
| Db.FormatOne | SolnAI-agents/shared/utils/db.py:138-160 | a row formats exactly when msg["message"] is a dictionary holding type and content; the result carries the mapped role and the content verbatim |
| Db.FormatConversationHistory | SolnAI-agents/shared/utils/db.py:135-162 | the loop appending one formatted message per row returns the rows formatted in order, or the first row's KeyError or TypeError |
| Db.FormatAllShape | SolnAI-agents/shared/utils/db.py:135-162 | one message per row, in order, with content copied verbatim; the call fails exactly when some row is malformed, with the first malformed row's error |
| Db.Roles | SolnAI-agents/shared/utils/db.py:142-160 | for "openai" every role is "user" or "assistant", and "user" exactly for type "human"; for "anthropic" and any other format the role is the stored type |
| Db.StoredRowsFormat | SolnAI-agents/shared/utils/db.py:100-160 | rows written by store_message always format, giving back the stored content and the mapped stored type, whatever data was stored with them |
| Api.ErrorsOf | SolnAI-agents/shared/types/api.py:37-51 | a field contributes an error exactly when its validation fails |
| Api.StrippedNonEmpty | SolnAI-agents/shared/types/api.py:45-51 | the value is accepted exactly when it is not all whitespace, and is stored stripped and non-empty; otherwise the validator's message |
| Api.StrippedNonEmptyIdempotent | SolnAI-agents/shared/types/api.py:45-51 | a value the validator returned passes the validator again unchanged |
| Api.ParseMessageType | SolnAI-agents/shared/types/api.py:14-18 | a MessageType is accepted only for its own value |
| Api.MessageTypeRoundTrip | SolnAI-agents/shared/types/api.py:14-18 | each MessageType member is accepted back from its value "human", "ai" or "system" |
| Api.ParseLlmRole | SolnAI-agents/shared/types/api.py:172-176 | an LLMRole is accepted only for its own value |
| Api.LlmRoleRoundTrip | SolnAI-agents/shared/types/api.py:172-176 | each LLMRole member is accepted back from its value "user", "assistant" or "system" |
| Api.ValidateQuery | SolnAI-agents/shared/types/api.py:31-43 | the query is accepted exactly when its raw length is between 1 and 32000 and it is not all whitespace; it is stored stripped and non-empty |
| Api.NewAgentRequest | SolnAI-agents/shared/types/api.py:20-51 | a rejected request always reports at least one field error |
| Api.Fields | SolnAI-agents/shared/types/api.py:20-51 | one field name per reported error |
| Api.FieldsAppend | SolnAI-agents/shared/types/api.py:20-51 | the fields reported for two error lists together are those of the first followed by those of the second |
| Api.AgentRequestValidation | SolnAI-agents/shared/types/api.py:31-51 | a request is built exactly when the query passes its length limits and is not blank and user_id and session_id are not blank; the three are stored stripped, request_id is the given one or a fresh uuid |
| Api.AgentRequestErrors | SolnAI-agents/shared/types/api.py:31-51 | a rejected request reports exactly the failing fields among query, user_id and session_id, in declaration order |
| Api.AgentRequestRevalidates | SolnAI-agents/shared/types/api.py:31-51 | a request built once is built again, unchanged, from its own stored fields |
| Api.StripNotLonger | SolnAI-agents/shared/types/api.py:40 | stripping never lengthens the query, so a stored query still meets the 32000 limit |
| Api.ResponseError | SolnAI-agents/shared/types/api.py:72-81 | a failed response always has a non-empty error: the given one when non-empty, else the default message; a successful response keeps its error as given |
| Api.ErrorIfNotSuccessIdempotent | SolnAI-agents/shared/types/api.py:72-81 | running the root validator on its own output changes nothing |
| Api.NewMessage | SolnAI-agents/shared/types/api.py:83-104 | a rejected message always reports at least one field error |
| Api.MessageValidation | SolnAI-agents/shared/types/api.py:93-104 | a Message is built exactly when the type is human, ai or system and the content is not blank; the content is stored stripped, and the stored message is built again unchanged from its own fields |
| Api.NewVideoInfo | SolnAI-agents/shared/types/api.py:153-170 | YouTubeVideoInfo is built exactly when video_id is not blank, with video_id stripped and every other field as given; otherwise the single video_id error |
| Api.NewLlmMessage | SolnAI-agents/shared/types/api.py:178-197 | a rejected LLM message always reports at least one field error |
| Api.LlmMessageValidation | SolnAI-agents/shared/types/api.py:187-197 | an LLMMessage is built exactly when the role is user, assistant or system and the content is not blank; the content is stored stripped, and the stored message is built again unchanged |
| SolnConfig.ValidateProvider | SolnAI-agents/shared/config/config.py:58-65 | the stored provider is always openai, anthropic or gemini: the lower-cased value when it is one of them, "openai" otherwise |
| SolnConfig.ValidateProviderIdempotent | SolnAI-agents/shared/config/config.py:58-65 | a stored provider passes the validator again unchanged |
| SolnConfig.ValidateProviderIgnoresCase | SolnAI-agents/shared/config/config.py:62-65 | providers that differ only in letter case are stored alike |
| SolnConfig.NewLlmConfig | SolnAI-agents/shared/config/config.py:20-65 | a constructed LLMConfig always holds a supported provider |
| SolnConfig.GetApiKey | SolnAI-agents/shared/config/config.py:67-75 | the API key field of the configured provider, None for any other provider value |
| SolnConfig.GetModel | SolnAI-agents/shared/config/config.py:77-85 | the model field of the configured provider, "gpt-4o" for any other provider value |
| SolnConfig.GettersFollowProvider | SolnAI-agents/shared/config/config.py:58-85 | for a constructed configuration the getters read the anthropic or gemini fields for those providers in any case, and the OpenAI fields for every other value; the fallbacks are unreachable |
| SolnConfig.DigitsOfNat | SolnAI-agents/shared/config/config.py:164 | the digits of str(n) read back as n |
| SolnConfig.ParseSigned | SolnAI-agents/shared/config/config.py:164 | int() accepts exactly an optional sign followed by at least one digit |
| SolnConfig.PyInt | SolnAI-agents/shared/config/config.py:164 | int(s) succeeds exactly when the stripped text is a signed run of digits |
| SolnConfig.ParseSignedOfString | SolnAI-agents/shared/config/config.py:164 | the text of str(n) parses back to n |
| SolnConfig.PyIntOfString | SolnAI-agents/shared/config/config.py:164 | int(str(n)) == n for every integer n |
| SolnConfig.DefaultPort | SolnAI-agents/shared/config/config.py:164 | the default PORT "8001" reads as 8001 |
| SolnConfig.SupabaseKey | SolnAI-agents/shared/config/config.py:159 | SUPABASE_KEY when it is set and non-empty, otherwise whatever SUPABASE_SERVICE_KEY holds |
| SolnConfig.EnableCorsValues | SolnAI-agents/shared/config/config.py:165 | CORS is on when ENABLE_CORS is unset and otherwise exactly when its value lower-cased is "true" |
| SolnConfig.FromEnv | SolnAI-agents/shared/config/config.py:139-168 | from_env fails exactly when PORT (default "8001") is not an integer |
| SolnConfig.FromEmptyEnv | SolnAI-agents/shared/config/config.py:139-168 | an empty environment gives the declared defaults: openai with gpt-4o, table "messages", 0.0.0.0:8001 with CORS on, no keys |
| SolnConfig.ConfigHolder.constructor | SolnAI-agents/shared/config/config.py:171 | the process starts with no configuration instance |
| SolnConfig.ConfigHolder.GetConfig | SolnAI-agents/shared/config/config.py:173-183 | the first call builds the configuration from the environment and stores it; every later call returns the stored instance whatever the environment then holds |
| ErrorHandling.NewError | SolnAI-agents/shared/utils/error_handling.py:95-202 | each AgentError subclass keeps the message and details as given and fixes its own code and HTTP status |
| ErrorHandling.KindCodeNamesKind | SolnAI-agents/shared/utils/error_handling.py:111-199 | the five subclasses have five different codes, so the code names the subclass |
| ErrorHandling.KindStatusClasses | SolnAI-agents/shared/utils/error_handling.py:114-202 | only ValidationError is 400 and only AuthenticationError is 401; the other three are 500 |
| ErrorHandling.ToDict | SolnAI-agents/shared/utils/error_handling.py:74-93 | `to_dict`: code, message and details always, and the trace exactly when it is asked for |
| ErrorHandling.HandleException | SolnAI-agents/shared/utils/error_handling.py:215-273 | the handler answers with a body whose only key is "error", holding the content object |
| ErrorHandling.HandledContentKeys | SolnAI-agents/shared/utils/error_handling.py:226-252 | the content always has code, message and details, and has a trace exactly in debug mode |
| ErrorHandling.HandleExceptionStatus | SolnAI-agents/shared/utils/error_handling.py:226-252 | an AgentError keeps its status and its `to_dict`; an HTTPException keeps its status under code HTTP_<status>; anything else is 500 INTERNAL_SERVER_ERROR whose details show the exception only in debug mode |
| Middleware.InWindow | SolnAI-agents/shared/middleware/middleware.py:165-167 | the timestamps strictly after the cutoff, no more than there were |
| Middleware.InWindowTwice | SolnAI-agents/shared/middleware/middleware.py:154-201 | filtering a filtered list again for the same cutoff changes nothing |
| Middleware.InWindowAppend | SolnAI-agents/shared/middleware/middleware.py:203-214 | filtering distributes over appending |
| Middleware.CleanedKeepsCounts | SolnAI-agents/shared/middleware/middleware.py:154-171 | cleaning up never changes a key's count in that window, and leaves only non-empty lists inside it |
| Middleware.AddedCount | SolnAI-agents/shared/middleware/middleware.py:203-214 | recording a request adds one to its key's count when the window is positive, and leaves other keys' counts alone |
| Middleware.AdmittedWithinLimit | SolnAI-agents/shared/middleware/middleware.py:129-146 | a key admitted below the limit is at most at the limit afterwards |
| Middleware.LimitedResponse | SolnAI-agents/shared/middleware/middleware.py:131-140 | a limited request gets 429 with the limit and reset headers |
| Middleware.WithRateHeaders | SolnAI-agents/shared/middleware/middleware.py:148-150 | the downstream response keeps its status and body and gains the three rate-limit headers |
| Middleware.RateLimiter.constructor | SolnAI-agents/shared/middleware/middleware.py:78-98 | the limit and window are stored, the exclusions default to /health and /metrics when none are given, and no requests are recorded |
| Middleware.RateLimiter.RequestCount | SolnAI-agents/shared/middleware/middleware.py:186-201 | the number of the key's timestamps strictly after now - window; 0 for an unknown key |
| Middleware.RateLimiter.CleanupOldEntries | SolnAI-agents/shared/middleware/middleware.py:154-171 | each key's list is filtered, and removed when nothing is left |
| Middleware.RateLimiter.AddRequest | SolnAI-agents/shared/middleware/middleware.py:203-214 | the timestamp is appended to the key's list, created when missing |
| Middleware.RateLimiter.Dispatch | SolnAI-agents/shared/middleware/middleware.py:100-152 | excluded paths go straight through; otherwise a key at its limit gets 429 without being recorded, and an admitted request is recorded and gets the remaining count |
| Middleware.ProgressStep | SolnAI-agents/shared/middleware/middleware.py:163-171 | visiting one key filters its list and drops it when empty |
| Middleware.ProgressDone | SolnAI-agents/shared/middleware/middleware.py:154-171 | with no key left to visit the loop has computed the cleaned map |
| Middleware.DispatchAdmits | SolnAI-agents/shared/middleware/middleware.py:141-150 | after an admitted request the count is within the limit and the reported remaining is never clamped |
| Middleware.LimitedIffCountAtLimit | SolnAI-agents/shared/middleware/middleware.py:125-129 | cleaning up first does not change whether a request is limited |
| Middleware.NewAuthSettings | SolnAI-agents/shared/middleware/middleware.py:231-251 | the exclusions default to /health, /metrics and / when none are given; the rest is stored |
| Middleware.Authenticate | SolnAI-agents/shared/middleware/middleware.py:253-324 | every refusal is an AuthenticationError with status 401 |
| Middleware.AuthenticateForwards | SolnAI-agents/shared/middleware/middleware.py:253-324 | a request is forwarded exactly when its path is excluded, or it carries a non-empty header with the scheme prefix whose token is a non-empty allowed key |
| Middleware.TokenAfterScheme | SolnAI-agents/shared/middleware/middleware.py:285 | the scheme, a space and a token in which the prefix does not recur yields exactly that token |
| Middleware.VerifyToken | SolnAI-agents/shared/middleware/middleware.py:300-324 | a token is accepted exactly when it is non-empty and one of the API keys; otherwise "missing" for the empty token and "invalid" for the rest |
| YouTube.IdRun | SolnAI-agents/shared/utils/youtube.py:67-75 | the run of id characters from a position: every character in it is one, and the next is not |
| YouTube.LineEnd | SolnAI-agents/shared/utils/youtube.py:75 | the end of the line from a position: no newline before it |
| YouTube.SearchFindsFirst | SolnAI-agents/shared/utils/youtube.py:80 | re.search returns the match at the first position that matches |
| YouTube.SearchNone | SolnAI-agents/shared/utils/youtube.py:80-88 | with no position matching, the search fails |
| YouTube.SearchFound | SolnAI-agents/shared/utils/youtube.py:80-88 | what a successful search returns is some position's match |
| YouTube.WatchLooksLikeYoutube | SolnAI-agents/shared/utils/youtube.py:67-75 | the watch literals start with 'y' and have a '.' five or seven characters on |
| YouTube.ShortLooksLikeYoutube | SolnAI-agents/shared/utils/youtube.py:67 | youtu.be/ starts with 'y' and has a '.' five characters on |
| YouTube.EmbedLooksLikeYoutube | SolnAI-agents/shared/utils/youtube.py:68-69 | the embed/ and v/ literals start with 'y' and have a '.' seven characters on |
| YouTube.PlaylistLooksLikeYoutube | SolnAI-agents/shared/utils/youtube.py:74 | the playlist literal starts with 'y' and has a '.' seven characters on |
| YouTube.LongPrefixesDotOnlyAtSeven | SolnAI-agents/shared/utils/youtube.py:68-74 | the embed/, v/ and playlist literals have their only '.' at index 7 |
| YouTube.PrefixYAndDot | SolnAI-agents/shared/utils/youtube.py:67-75 | such a literal at a position puts a 'y' there and a '.' five or seven characters on |
| YouTube.MatchNeedsYAndDot | SolnAI-agents/shared/utils/youtube.py:67-75 | every pattern needs a 'y' where it starts and a '.' five or seven characters on |
| YouTube.DiffersAt | SolnAI-agents/shared/utils/youtube.py:67-75 | a literal that differs from another at some index rules the other out at the same position |
| YouTube.NoMatchAround | SolnAI-agents/shared/utils/youtube.py:67-75 | around a literal without a 'y' before it and a '.' after it, a pattern can match only where the literal starts |
| YouTube.DotPositions | SolnAI-agents/shared/utils/youtube.py:67-75 | in such a text the only '.' after the prefix is the literal's own |
| YouTube.FirstMatchAt | SolnAI-agents/shared/utils/youtube.py:80 | with no 'y' before a position, a match there is the search's result |
| YouTube.IdRunAtLeast | SolnAI-agents/shared/utils/youtube.py:67-75 | n id characters make the run at least n long |
| YouTube.ElevenAt | SolnAI-agents/shared/utils/youtube.py:67-69 | a literal followed by 11 id characters gives those 11 as the group |
| YouTube.BareTokenClassified | SolnAI-agents/shared/utils/youtube.py:58-63 | a bare token of id characters is a video id when it has 11 characters and a playlist id otherwise |
| YouTube.BareTokenTrailingNewline | SolnAI-agents/shared/utils/youtube.py:58-63 | `$` lets one trailing newline through: ten id characters and a newline count as an 11-character video id |
| YouTube.LastListShape | SolnAI-agents/shared/utils/youtube.py:75 | the list id found after "list=" is a non-empty run of id characters |
| YouTube.ElevenShape | SolnAI-agents/shared/utils/youtube.py:67-69 | an 11-character group is made of id characters |
| YouTube.RunShape | SolnAI-agents/shared/utils/youtube.py:74-75 | a run group is a non-empty run of id characters |
| YouTube.MatchShape | SolnAI-agents/shared/utils/youtube.py:66-76 | a video pattern's group has 11 id characters, a playlist pattern's at least one |
| YouTube.SearchShape | SolnAI-agents/shared/utils/youtube.py:79-88 | a search's group has the same shape |
| YouTube.ExtractedShape | SolnAI-agents/shared/utils/youtube.py:44-90 | outside the bare-token case, a video id has 11 id characters and a playlist id at least one |
| YouTube.NoMatchRaises | SolnAI-agents/shared/utils/youtube.py:44-90 | text without a 'y' that is not a bare token raises ValueError naming it |
| YouTube.DotNotBare | SolnAI-agents/shared/utils/youtube.py:58 | a text with a '.' before its last character is never a bare token |
| YouTube.WatchUrlIsVideo | SolnAI-agents/shared/utils/youtube.py:67-82 | watch?v= and youtu.be/ URLs give the 11-character video id that follows, even with list= after it |
| YouTube.IdCharsHaveNoDot | SolnAI-agents/shared/utils/youtube.py:58 | id characters never include '.' |
| YouTube.NotWatchOrShortAt | SolnAI-agents/shared/utils/youtube.py:67-74 | watch?v= and youtu.be/ never start where one of the other literals does |
| YouTube.NoWatchOrShortAfter | SolnAI-agents/shared/utils/youtube.py:67-80 | after one of the longer literals and id characters, watch?v= and youtu.be/ match nowhere |
| YouTube.NoEmbedAfter | SolnAI-agents/shared/utils/youtube.py:68-80 | embed/ matches nowhere after v/ or playlist?list= |
| YouTube.NoVAfterPlaylist | SolnAI-agents/shared/utils/youtube.py:69-80 | v/ matches nowhere after playlist?list= |
| YouTube.EmbedUrlIsVideo | SolnAI-agents/shared/utils/youtube.py:68-82 | embed/ and v/ URLs ending with an 11-character id give that video id |
| YouTube.PlaylistMatch | SolnAI-agents/shared/utils/youtube.py:74 | the id run ending the text is the playlist pattern's group |
| YouTube.RunAtEnd | SolnAI-agents/shared/utils/youtube.py:74-75 | a literal followed by id characters to the end of the text makes the group exactly those characters |
| YouTube.PlaylistUrlIsPlaylist | SolnAI-agents/shared/utils/youtube.py:44-88 | a playlist?list= URL ending with the list id gives that playlist id |
| YouTube.PrefixedNotBare | SolnAI-agents/shared/utils/youtube.py:58 | text with a URL literal before at least one more character is not a bare token |
| YouTube.ExtractPlaylistList | SolnAI-agents/shared/utils/youtube.py:78-88 | when no video pattern matches and the playlist pattern does, the result is that playlist id |
| GooseFileUtils.TokenCountSuffix | goose_tools/utils/file_utils.py:13-20 | format_token_count ends in "K" exactly for 1000 <= n < 1000000 and in "M" exactly from a million up; below 1000 it is str(n) |
| GooseFileUtils.ByteUnitSuffix | goose_tools/utils/file_utils.py:31-40 | bytes_to_human_readable's unit is " B", "KB", "MB" or "GB" exactly in the ranges below 1024, 1024², 1024³ and beyond |
| GooseFileUtils.EstimateTokens | goose_tools/utils/file_utils.py:23-28 | the estimate r is the floor of len/4: 4r <= len < 4r + 4, and 0 for empty text |
| GooseFileUtils.EstimateTokensMonotone | goose_tools/utils/file_utils.py:23-28 | appending text never lowers the estimate |
| GooseFileUtils.ParseLine | goose_tools/utils/file_utils.py:59-64 | one line gives the stripped key and value split at the first ':' when it is non-blank, not a '#' comment and contains ':' |
| GooseFileUtils.ParseMetadataLines | goose_tools/utils/file_utils.py:57-64 | the loop's dictionary is the fold of the lines' entries |
| GooseFileUtils.FoldLastWins | goose_tools/utils/file_utils.py:61-64 | a key is in the folded dictionary iff some entry has it, and its value is that of the last such entry |
| GooseFileUtils.MetadataLastWins | goose_tools/utils/file_utils.py:61-64 | a key is in the metadata iff some line gives it, and a later line overrides an earlier one |
| GooseFileUtils.FoldSkipsNone | goose_tools/utils/file_utils.py:59-62 | a line that yields no entry leaves the folded dictionary unchanged |
| GooseFileUtils.MetadataSkipsComments | goose_tools/utils/file_utils.py:59-60 | inserting a blank or '#' comment line anywhere does not change the metadata |
| GooseFileUtils.GetMetadata | goose_tools/utils/file_utils.py:43-69 | a missing file gives {}; a .json file gives what json.load returns or {} on error; any other file gives exactly the key-value metadata as strings |
| GooseFileUtils.Replaced | goose_tools/utils/file_utils.py:75 | the substitution keeps the length, keeps every character of [\w\-.] and turns every other into '_' |
| GooseFileUtils.ReplacedIdempotent | goose_tools/utils/file_utils.py:75 | substituting twice is substituting once |
| GooseFileUtils.LastDot | goose_tools/utils/file_utils.py:78 | the position found holds the last '.' of the name; None means the name has no '.' |
| GooseFileUtils.ExtStart | goose_tools/utils/file_utils.py:78 | os.path.splitext's extension starts at the last '.' and only when a non-dot precedes it |
| GooseFileUtils.SanitizeLongExtension | goose_tools/utils/file_utils.py:76-80 | as written, "a." plus 300 'x's sanitises to a 301-character name although the code means to stay within 255 |
| GooseFileUtils.SanitizeFilenameBounds | goose_tools/utils/file_utils.py:72-80 | the corrected sanitiser returns at most 255 allowed characters, the substituted name when short, and base prefix plus extension when the extension fits |
| GooseFileUtils.SanitizeAgreesWhenExtensionFits | goose_tools/utils/file_utils.py:72-80 | whenever the extension fits in 255 characters the corrected and the as-written sanitiser agree |
| GooseFileUtils.FormatTokenCount | goose_tools/utils/file_utils.py:13-20 | below 1000 the plain number; up to a million thousands with one decimal and "K"; beyond that millions with one decimal and "M" |
| GooseFileUtils.BytesToHumanReadable | goose_tools/utils/file_utils.py:31-40 | below 1024 the number and " B"; otherwise KB, MB or GB, each range's size divided by its power of 1024, with one decimal |
| GooseTokenCounter.FloorDivIsFloor | goose_tools/utils/token_counter.py:22 | the model of Python's // rounds toward negative infinity for either sign of divisor |
| GooseTokenCounter.EstimateTokensChars | goose_tools/utils/token_counter.py:9-22 | 0 for empty text; ZeroDivisionError exactly when chars_per_token is 0; otherwise r with cpt·r <= len < cpt·(r+1) for a positive divisor |
| GooseTokenCounter.WordRun | goose_tools/utils/token_counter.py:41 | the leading run of \w characters is maximal: all word characters, and the next one is not |
| GooseTokenCounter.Tokens | goose_tools/utils/token_counter.py:41 | every match of \w+|[^\w\s] is a run of word characters or a single non-word, non-space character |
| GooseTokenCounter.TokensFit | goose_tools/utils/token_counter.py:41 | the matches are disjoint pieces of the text: their number is at most their total length, which is at most the text's length |
| GooseTokenCounter.SubwordCount | goose_tools/utils/token_counter.py:65-72 | one token counts at least 1 and at most its length |
| GooseTokenCounter.EstimateTokensOpenai | goose_tools/utils/token_counter.py:46-75 | the loop returns 0 for empty text and otherwise the sum of the per-token subword counts |
| GooseTokenCounter.SubwordTotalBounds | goose_tools/utils/token_counter.py:64-72 | the subword total lies between the number of tokens and their total length |
| GooseTokenCounter.OpenaiBounds | goose_tools/utils/token_counter.py:25-75 | the OpenAI estimate is never below the Claude estimate and never above the text's length |
| GooseTokenCounter.ContentTokens | goose_tools/utils/token_counter.py:20-22 | estimate_tokens_chars of a JSON content: len // 4 for a string; a TypeError exactly for a truthy number or boolean |
| GooseTokenCounter.LineStep | goose_tools/utils/token_counter.py:99-121 | one line keeps the statistics' six keys |
| GooseTokenCounter.CountTokensInJsonl | goose_tools/utils/token_counter.py:78-125 | the statistics always have the six keys, and are all zero when the file cannot be opened |
| GooseTokenCounter.CountTokensInJsonlLoop | goose_tools/utils/token_counter.py:78-125 | the loop, which returns early when an exception reaches the outer handler, yields the statistics of the specification |
| GooseTokenCounter.CreditBalanced | goose_tools/utils/token_counter.py:106-119 | counting a message and crediting its tokens to the total and to one role entry keeps total equal to the sum of the role entries |
| GooseTokenCounter.GoodLineStep | goose_tools/utils/token_counter.py:99-121 | a blank, undecodable or well-formed line does not stop the loop, keeps the balance and counts one message exactly when it decodes |
| GooseTokenCounter.GoodLinesBalance | goose_tools/utils/token_counter.py:87-125 | when every line is blank, undecodable or well-formed, "messages" counts the decoded lines and "total" equals user + assistant + system + other |
| GooseTokenCounter.RoleTotalCountedTwice | goose_tools/utils/token_counter.py:112-117 | a message whose role is "total" adds its tokens to the total twice and to no role entry |
| GooseTokenCounter.GoodMessageCredited | goose_tools/utils/token_counter.py:104-119 | a well-formed message adds one to "messages", its tokens to "total" and to its role's entry (or "other" for an unknown role), and changes no other entry |
| GooseTokenCounter.EstimateTokensClaude | goose_tools/utils/token_counter.py:25-43 | an empty text has no tokens, and there are never more tokens than characters |
| GooseTextProcessing.Collapse | goose_tools/utils/text_processing.py:116 | every whitespace character left is a single space, no two whitespace characters are adjacent, the text is never longer and starts with whitespace exactly when the input does |
| GooseTextProcessing.CollapseIdempotent | goose_tools/utils/text_processing.py:116 | collapsing whitespace twice is collapsing it once |
| GooseTextProcessing.LastLoneEnd | goose_tools/utils/text_processing.py:122-126 | the search finds the largest cutoff in (max_length//2, max_length] holding '.', '!' or '?' after a character that is none of them, and None exactly when there is no such cutoff |
| GooseTextProcessing.CutLoop | goose_tools/utils/text_processing.py:118-129 | the loop walking the cutoff down returns the specified cut for every limit, negative ones included |
| GooseTextProcessing.SummarizeText | goose_tools/utils/text_processing.py:104-129 | summarize_text returns the cut of the whitespace-normalised text |
| GooseTextProcessing.SummarizeShape | goose_tools/utils/text_processing.py:115-129 | the summary is the normalised text when it fits; else the text through the last lone sentence end past half the limit, or the first max_length characters when there is none, plus "..."; never more than max_length + 4 characters |
| GooseTextProcessing.HashRun | goose_tools/utils/text_processing.py:145 | the count of leading '#' is maximal |
| GooseTextProcessing.Heading | goose_tools/utils/text_processing.py:145-152 | a heading line starts with one to six '#' |
| GooseTextProcessing.ExtractSectionsLoop | goose_tools/utils/text_processing.py:143-166 | the loop over the lines returns the sections of the fold over the lines |
| GooseTextProcessing.FeedAllCurrent | goose_tools/utils/text_processing.py:153-160 | the loop's current section is named by the last heading seen, or "default" before any |
| GooseTextProcessing.SectionKeys | goose_tools/utils/text_processing.py:147-166 | a section is stored exactly when some non-heading line falls under it: lines before the first heading make "default", and a heading with no lines stores nothing |
| GooseTextProcessing.FeedAllPlain | goose_tools/utils/text_processing.py:159-160 | lines that are not headings only extend the current section |
| GooseTextProcessing.NoHeadingAllDefault | goose_tools/utils/text_processing.py:147-166 | a text without headings is the single section "default" holding the whole stripped text |
| GooseTextProcessing.LastSectionWins | goose_tools/utils/text_processing.py:153-166 | the last section under a heading decides its stored text: a repeated heading overwrites the earlier one |
| GooseTextProcessing.NextFence | goose_tools/utils/text_processing.py:55 | the lazy code match ends at the first "```" at or after the given position, and finds none only when there is none |
| GooseTextProcessing.BlockAt | goose_tools/utils/text_processing.py:55-56 | a code-block match spans at least the two fences and the newline and stays inside the text |
| GooseTextProcessing.Finish | goose_tools/utils/text_processing.py:59-64 | the language is the tag or 'text' when the tag is empty, and the code is stripped |
| GooseTextProcessing.BlocksFromTags | goose_tools/utils/text_processing.py:55-58 | every tag matched is a run of [a-zA-Z0-9_] |
| GooseTextProcessing.CodeBlocksShape | goose_tools/utils/text_processing.py:55-66 | every returned language is 'text' or a non-empty run of word characters, and every code is stripped |
| GooseTextProcessing.CodeBlockRoundTrip | goose_tools/utils/text_processing.py:54-66 | a document that is one fenced block gives back exactly that block, language defaulted and code stripped |
| GooseTextProcessing.MarkdownAt | goose_tools/utils/text_processing.py:82-85 | a markdown link match has non-empty text without ']' and a non-empty url without ')' |
| GooseTextProcessing.MarkdownFrom | goose_tools/utils/text_processing.py:82-89 | every markdown link found has non-empty text without ']' and a non-empty url without ')' |
| GooseTextProcessing.ExtractLinks | goose_tools/utils/text_processing.py:79-101 | all markdown links come first, in order, and all HTML links after them |
| GooseTextProcessing.MarkdownRoundTrip | goose_tools/utils/text_processing.py:82-89 | a markdown link written out as [text](url) is read back as exactly that link |
| GooseExtractCode.Extension | goose_tools/scripts/extract_code.py:29 | os.path.splitext's extension is empty or starts with '.' and holds no '/' |
| GooseExtractCode.DotFileIsText | goose_tools/scripts/extract_code.py:29-70 | a file named ".py" has no extension (a leading dot does not start one) and is detected as 'text' |
| GooseExtractCode.DetectUpperCasePython | goose_tools/scripts/extract_code.py:29-70 | the extension is taken after the last '/' and lower-cased: "src.d/app.PY" is 'python' |
| GooseExtractCode.ExtractImports | goose_tools/scripts/extract_code.py:73-102 | the imports are exactly the lines the language's import pattern matches, in file order |
| GooseExtractCode.FilterKeepsAll | goose_tools/scripts/extract_code.py:97-100 | every matching line is kept by the line filter |
| GooseExtractCode.FilterAppend | goose_tools/scripts/extract_code.py:97-100 | filtering the lines keeps their order: it distributes over concatenation |
| GooseExtractCode.ExtractFunctions | goose_tools/scripts/extract_code.py:105-166 | the loop's output is the fold of the per-line rule: definitions, then body lines until a Python dedent or closing brace, each body followed by a blank separator |
| GooseExtractCode.DefinitionsOnly | goose_tools/scripts/extract_code.py:145-146 | without full bodies the output is exactly the lines the definition pattern matches, in order |
| GooseExtractCode.FunctionStepAdds | goose_tools/scripts/extract_code.py:138-164 | one line adds nothing, the line itself, or the line and a blank separator |
| GooseExtractCode.FullFunctionsFromFile | goose_tools/scripts/extract_code.py:138-164 | with full bodies every output line is a line of the file or the blank separator |
| GooseExtractCode.FullFunctionsDefinitions | goose_tools/scripts/extract_code.py:138-164 | with full bodies the definition lines in the output are exactly the file's, in order |
| GooseExtractCode.ExtractComments | goose_tools/scripts/extract_code.py:169-209 | the loop's output is the fold of the corrected per-line rule (a block opened and closed on one line does not stay open) |
| GooseExtractCode.CommentsInBlock | goose_tools/scripts/extract_code.py:195-207 | the loop is inside a block comment exactly when a line after the last closing one opened a block |
| GooseExtractCode.CommentsWithoutBlocks | goose_tools/scripts/extract_code.py:195-207 | when no line opens a block, the comments are exactly the lines the comment pattern matches, in order |
| GooseExtractCode.CommentsFromFile | goose_tools/scripts/extract_code.py:195-207 | every output line is a line of the file or a blank separator, and every line the pattern matches is kept |
| GooseExtractCode.SameLineBlockSteps | goose_tools/scripts/extract_code.py:205-207 | a code line that opens and closes a block makes the as-written loop copy the next line; the corrected loop does not |
| GooseExtractCode.SameLineBlockAsWritten | goose_tools/scripts/extract_code.py:205-207 | "a(); /* b */" then "c": as written "c" is reported as a comment; as intended only the first line is |
| GooseExtractCode.SampleLinesShape | goose_tools/scripts/extract_code.py:212-247 | a file within max_lines is returned whole; a longer one gives max_lines lines plus two "..." markers: the first third, a centred middle third and the last lines, non-overlapping and in file order |
| GooseExtractCode.SampleZeroAsWritten | goose_tools/scripts/extract_code.py:229-245 | as written, max_lines 0 returns both markers followed by the whole file, since lines[-0:] is every line |
| GooseExtractCode.SampleZero | goose_tools/scripts/extract_code.py:229-245 | as intended, max_lines 0 gives only the two markers |
| GooseExtractCode.SampleAgrees | goose_tools/scripts/extract_code.py:229-245 | for every positive max_lines the corrected sampler equals the code as written |
| GooseExtractCode.DetectLanguage | goose_tools/scripts/extract_code.py:20-70 | the language the table gives for the lowercased extension, "text" when the table has none |
| GooseExtractWeb.MarkerLength | goose_tools/scripts/extract_web.py:225 | a match of `\[[0-9]*\]` at the head is '[', digits only, then ']' |
| GooseExtractWeb.RemoveMarkers | goose_tools/scripts/extract_web.py:225 | removing the markers never lengthens the line and adds no character the line did not have |
| GooseExtractWeb.RemoveMarkersKeepsText | goose_tools/scripts/extract_web.py:224-225 | only '[', ']' and digits are deleted: every other character of the line is kept, in order |
| GooseExtractWeb.MarkerDropped | goose_tools/scripts/extract_web.py:224-225 | a "[digits]" marker (digits possibly none) at the head of a line is deleted |
| GooseExtractWeb.NoBracketUnchanged | goose_tools/scripts/extract_web.py:224-225 | a line without '[' is left as it is |
| GooseExtractWeb.NestedMarkerStays | goose_tools/scripts/extract_web.py:225 | the substitution is one pass: "[[1]]" becomes "[]", a marker formed by the deletion |
| GooseExtractWeb.FilterFilter | goose_tools/scripts/extract_web.py:228-238 | two list comprehensions in turn keep the same lines as one by the conjunction of their tests |
| GooseExtractWeb.CleanLinesSelected | goose_tools/scripts/extract_web.py:208-240 | the kept lines are exactly the (marker-free) lines that match filter_pattern, do not match exclude_pattern and are not blank, in page order |
| GooseExtractWeb.CleanLinesIff | goose_tools/scripts/extract_web.py:228-238 | a line is kept if and only if it is a cleaned page line that passes both patterns and is not blank; so no kept line is blank |
| GooseExtractWeb.CleanContentLines | goose_tools/scripts/extract_web.py:240 | splitting clean_content's result into lines, as main does at line 338, gives exactly the kept lines |
| GooseExtractWeb.Domain | goose_tools/scripts/extract_web.py:253 | the domain holds no '/' and is a prefix of the url with its schemes removed |
| GooseExtractWeb.DomainOfUrl | goose_tools/scripts/extract_web.py:253 | for "https://host/path" and "http://host/path" with no ':' or '/' in host, the domain is the host |
| GooseExtractWeb.GenerateSummary | goose_tools/scripts/extract_web.py:243-273 | the heading loop with its break at ten yields the summary text built from the first ten heading lines |
| GooseExtractWeb.TenthHeading | goose_tools/scripts/extract_web.py:264-268 | once ten headings are found, no later line changes the list, so the break is safe |
| GooseExtractWeb.HeadingBulletsShape | goose_tools/scripts/extract_web.py:262-268 | at most ten headings are listed; each is "- " plus an all-caps or '#' line of the page; with ten or fewer heading lines all are listed in order |
| GooseExtractWeb.TruncatedShape | goose_tools/scripts/extract_web.py:355-361 | the first min(len(lines), max_lines) lines are kept (none for a negative limit), and the note is added exactly when lines were dropped and counts them |
| GooseExtractWeb.TruncatedAgrees | goose_tools/scripts/extract_web.py:355-361 | for a limit that is not negative the code as written keeps the same lines and note |
| GooseExtractWeb.NegativeLimitAsWritten | goose_tools/scripts/extract_web.py:355-361 | as written a negative max_lines drops the last lines yet the note reports len(lines) - max_lines, more lines than the page has |
| GooseExtractWeb.RemoveScheme | goose_tools/scripts/extract_web.py:253 | removing every "http://" and "https://" never lengthens the URL |
| GooseExtractWeb.HeadingBullets | goose_tools/scripts/extract_web.py:262-268 | the heading loop stops at ten bullets |
| GooseAuth.UserManager.constructor | goose_tools/auth/models.py:16-30 | the manager starts over the file's contents ({} for a file that does not exist yet) |
| GooseAuth.NewUserFields | goose_tools/auth/models.py:60-67 | a new record holds exactly username, password hash, email, admin flag, creation time and a null last login |
| GooseAuth.UserManager.CreateUser | goose_tools/auth/models.py:49-71 | a taken name leaves the store as it is and answers "Username already exists"; otherwise exactly that user's new record is added |
| GooseAuth.UserManager.Authenticate | goose_tools/auth/models.py:73-90 | an unknown name or a rejected password fails with the same message and changes nothing; a record without a password raises KeyError; success records the login time on that user only and returns the record |
| GooseAuth.UserManager.GetUser | goose_tools/auth/models.py:92-95 | the record when the name is known, None otherwise |
| GooseAuth.UserManager.UpdateUser | goose_tools/auth/models.py:97-114 | an unknown name changes nothing; otherwise only that user's record changes, to the merge of the given fields |
| GooseAuth.MergeFields | goose_tools/auth/models.py:106-110 | the loop over the given fields yields the old record with every given field but the password set |
| GooseAuth.UpdatedFields | goose_tools/auth/models.py:97-110 | the merged record keeps every old field, adds the given ones but the password, and a given field wins |
| GooseAuth.UpdateKeepsPassword | goose_tools/auth/models.py:98-110 | update_user never changes the password, even when the data holds one, and keeps every record holding a hash |
| GooseAuth.UserManager.ChangePassword | goose_tools/auth/models.py:116-129 | the old password is checked first; on failure only authenticate's effect happens and the answer is "Current password is incorrect"; on success the new hash replaces the password |
| GooseAuth.ChangeThenAuthenticate | goose_tools/auth/models.py:116-129 | after a change the new password logs in and an old one the verifier rejects does not; a failed change leaves the store as it was |
| GooseAuth.UserManager.DeleteUser | goose_tools/auth/models.py:131-144 | an unknown name changes nothing; otherwise exactly that user is removed |
| GooseAuth.DeleteThenAuthenticate | goose_tools/auth/models.py:131-144 | a deleted user no longer logs in and every other user is unchanged |
| GooseAuth.UserManager.ListUsers | goose_tools/auth/models.py:146-157 | every user is listed, no record holds a password, and every other field is kept |
| GooseAuth.WithoutPasswords | goose_tools/auth/models.py:150-155 | same user names, no password in any record, every other field kept |
| GooseAuth.CreateDefaultAdmin | goose_tools/auth/models.py:161-169 | an admin is created exactly when the store is empty, with GOOSE_ADMIN_PASSWORD or "admin"; otherwise nothing changes |
| GooseAuth.DefaultAdminLogsIn | goose_tools/auth/models.py:164-167 | without GOOSE_ADMIN_PASSWORD the default administrator logs in with "admin" and has the admin flag |
| GooseAuth.SameFailureMessage | goose_tools/auth/models.py:78-84 | an unknown user and a wrong password get the same message and neither changes the store |
| GooseAuth.LoginRecordsLastLogin | goose_tools/auth/models.py:86-90 | a successful login means the user exists and the password verified, and changes only that user's last_login |
| GooseAuth.ValidNeverRaises | goose_tools/auth/models.py:82-83 | when every record holds a password, authenticate never raises |
| GooseAuth.CreateThenAuthenticate | goose_tools/auth/models.py:49-90 | a user just created logs in with the password given and gets the admin flag given; a password the verifier rejects is refused |
| GooseAuth.OperationsKeepValid | goose_tools/auth/models.py:49-144 | create, authenticate, update, change_password and delete keep every record holding a password |

## Left out

- BranchingChain.Chain.Execute: the walk is bounded by a step budget (maxSteps) so that every run of the model ends; the source loops without a bound, and a cycle of steps runs forever there.
- BranchingChain: `process_category` of the support-ticket example is not modelled: it is a JSON-or-heuristic parse of the model's reply, passed in as the processor.
- BranchingChain: logging, asyncio and the messages' dictionary form are left out; the chat model is a function of the prompts, the temperature and the token limit.
- BranchingChain.Chain.Execute: a processor is a total function here; in Python a processor that raises does so after the reply has been stored under output_key, leaving the results partly updated, and that path is not modelled.
- RecursiveChain: the chat model receives the user message as a Prompt value whose text is Render; it can then answer anything for each message, which covers every model that depends on the text alone. Nothing is proved about Render's text: it holds literals several hundred characters long.
- RecursiveChain: logging, the result dictionary's "status" and "call_history" keys and the example runner are left out; the dictionary becomes the Outcome datatype (the history is the chain's field).
- TextProcessor: the Rust extension paths (octotools_rs) are foreign code; only the Python fallbacks are modelled, and `model_name` is ignored as the fallbacks ignore it.
- TextProcessor: str.split, str.lower, str.upper and str.strip are modelled for ASCII letters and ASCII whitespace; Unicode case mapping and Unicode whitespace are left out.
- TextProcessor: the import-time banner printing and `benchmark_text_processing` (a timing loop over the wall clock) are left out.
- TextProcessingNode: `modelName` and `useRustExtensions` are read but have no effect on the Python paths and are left out; config entries of the wrong type are not modelled (the constructor takes typed optional values).
- TextProcessingNode: `\w` is modelled as ASCII letters, digits and underscore; the `test()` runner is left out.
- Db: the Supabase client and its query (select, eq, order by created_at descending, limit) are foreign code: the rows or the error the query produces are parameters, and the exception text str(e) is that error string.
- Db: the exact wording of the TypeError raised when a stored message is not a dictionary (it depends on the value's Python type) is replaced by one fixed text.
- Db: the async scheduling of fetch_conversation_history and store_message is left out; each is a function of the query's outcome.
- Api: pydantic's own type coercion (for example a number given for a string field) is not modelled: fields arrive with their declared types, and the error texts for the length limits and the enumerations are those of pydantic 1, whose `validator`/`root_validator` decorators the file uses.
- Api: `uuid.uuid4()` and `datetime.utcnow()` are parameters (freshId, now), and timestamps are integers.
- Api: ConversationMessage has no validator of its own beyond its nested Message, and is not modelled separately.
- SolnConfig: `load_dotenv()` and logging are left out; the environment, after the .env file is read, is a parameter. The getters' fallbacks are reachable in Python only by assigning an unsupported provider after construction, which the datatype still allows.
- SolnConfig.PyInt: int() also accepts underscores between digits and non-ASCII digits; those forms are not modelled, and the ValueError text uses the raw value where Python uses its repr.
- SolnConfig.ConfigHolder.GetConfig: identity of the returned object is modelled by value (the stored configuration is returned unchanged).
- GooseFileUtils: `\w` is ASCII letters, digits and '_' (Python's is Unicode-aware); the one-decimal float formatting is a parameter; the existence check, json.load and the file's lines are parameters.
- GooseFileUtils: get_user_dirs, parse_date, ensure_directory, safe_write_file, list_files_with_info, read_json_file and write_json_file only touch the file system or the clock and are not modelled.
- GooseTokenCounter: opening the file and json.loads are parameters; the loop over a file that fails midway while being read is not modelled.
- GooseTextProcessing: clean_html is left out: it is a chain of regular-expression substitutions and html.unescape, whose entity table is not modelled.
- GooseTextProcessing.ExtractLinks: the HTML link pattern's matches are a parameter, since its backtracking over attributes is not modelled; only the markdown scanner is written out.
- GooseTextProcessing.ExtractSections: only the default heading pattern is modelled; a caller-supplied section_pattern is not.
- GooseTextProcessing: `\s` and `\w` are the ASCII classes (plus the separators 0x1C-0x1F for `\s`); Python's Unicode classes are wider.
- GooseExtractCode: the regular expressions are a parameter `matches(pattern, line)` standing for re.match; the language's pattern string is modelled, the matching engine is not.
- GooseExtractCode: str.splitlines is modelled as a split on '\n' (the other line boundaries Python recognises are not modelled).
- GooseExtractCode: main (argparse, reading the file, writing the output) is I/O and is not modelled; func_start in extract_functions is assigned but never read and is left out.
- GooseExtractWeb: extract_with_requests, extract_with_lynx, extract_with_browser and the rest of main (argument parsing, the fallback between methods, the header with the date, writing the file and the metadata) are network, subprocess and file I/O and are not modelled.
- GooseExtractWeb: re.search with the caller's filter and exclude patterns is a parameter `search(pattern, line)`; an invalid pattern's re.error is not modelled.
- GooseExtractWeb: str.splitlines is modelled as a split on '\n'; the other line boundaries Python recognises ('\r', '\r\n', '\x0b', '\x0c', '\x1c'-'\x1e', '\x85', '\u2028', '\u2029') are not.
- GooseAuth: reading and writing users.json (creating the directory, json.dump) is file I/O; the file's contents are the field `users`, and a missing or corrupt file reads as {} before the manager is built.
- GooseAuth: bcrypt's hashing and checking are the parameters `hash` and `verify` (the random salt is not modelled); datetime.now().isoformat() is the parameter `now`.
- GooseAuth: a users file whose JSON is not an object of objects is not modelled (the store is typed as a map of records); two managers writing the same file concurrently are not modelled.
- GooseAuth.UserManager.Authenticate: the record returned is the one saved, modelled by value; Python returns the same dict object.
- GooseAuth.UserManager.Authenticate: `verify` is total; bcrypt.checkpw raises ValueError on a stored hash that is not a valid bcrypt hash, and that exception path is not modelled.
- CrewExecution: Rayon's thread pool, Tokio's spawn/join_all and the Arc<Mutex<..>> status cells are modelled as deterministic loops in task-list order; a panic is one more opaque failure outcome given by the parameter `panics`.
- CrewTasks: the sleep inside Task::execute is left out; the work of a task is the injected `Perform` function, since execute itself always returns Ok.
- CrewModel: the PyO3 binding layer (crewai-pyo3's lib.rs, with its global runtime and memory probing), config.rs (YAML file reading) and tools.rs (wall-clock timing) are not modelled; CrewErrors only keeps the error kinds and their texts.
- OptimizedIntegration: PerformanceMetrics (float timings and throughput) and logging are left out; the batch name's time.time() is the parameter `now`.
- OptimizedWorkflow: ResourceMonitor (psutil), ResultCache (md5 and files), the LangSmith run tree and the LLM-driven execute path are not modelled; only the team-role table and the numbering of agents and tasks are.
- CrewServiceIntegration: the HTTP requests are the parameter `send`; the constructor's connectivity probe (a GET whose outcome is only logged), logging and the performance monitoring flag are left out.
- LoxValues: Python floats are exact reals, so rounding and the float text of `str()` are not modelled; str(float), str(list) and time.time() come from the Host parameter.
- LoxInterpreter: evaluation carries fuel; a program that runs out of it yields OutOfFuel where Python would run on (or hit its recursion limit), and the Python recursion limit itself is not modelled.
- LoxLexer: a NUMBER token keeps its lexeme as its literal; float() of the lexeme is not modelled (the interpreter reads it as an exact real).
- LoxParser: a ParseError is modelled as the message it carries; the exception object itself is not.
- ToolModel: the `function` attribute is known only by its identity and called through a host function; `getattr`/`hasattr` on methods such as to_dict or execute are not modelled, only the data attributes are.
- AgentModel: debug_init (inspect.signature and printing) is left out; `get`, `[]` and `in` see only the data attributes, not the methods.
- ProjectModel: only the typed attributes are modelled; a dictionary whose values have other Python types than the constructor annotates is not.
- ProjectModel.ProjectBaseModel: the deliverables list is a value; in Python the list passed to the constructor is stored as is, so add_deliverable and the setters also change the caller's list, and that aliasing is not modelled.
- WorkflowModel: timestamps and created_at/updated_at are kept as the strings given; no clock is read.
- TextUtils: the regular-expression substitutions are modelled as character filters over their character classes; `\s` and `\w` are the ASCII classes.
- UiUtils: everything in the file other than extract_json_objects and parse_json is Streamlit UI and session state and is not modelled; the error messages printed for a JSONDecodeError are left out, and json.loads is a parameter.
- Helpers: load_config and save_config are file I/O (YAML and JSON) and are not modelled.
- Helpers.ChunkText: models the corrected loop, which stops once a chunk reaches the end of the text; the loop as written does not end there when the overlap is positive (see Findings).
- Helpers.NextStart: adds a guard the source does not have: when end - overlap would not move past the start (an overlap at least the chunk's length), the next start is end instead; the loop as written stalls there forever (see Findings).
- Helpers.ChunkText: requires chunk_size > 0 and overlap >= 0; a negative overlap, which Python accepts and which skips characters between chunks, and a chunk_size of 0 or less, on which the loop as written does not end, are not modelled.
- Middleware: RequestLoggingMiddleware and setup_middleware (logging and app wiring) are not modelled; the downstream call_next is the parameter `downstream`, and float timestamps are integers.
- Middleware.Authenticate: the config object read through get_config() is the AuthSettings value; the request state and headers other than the authentication header are left out.
- Middleware.RateLimiter.Dispatch: one request is handled at a time; in Python two requests from the same client can interleave at the `await call_next`, after both have passed the limit check, and that interleaving is not modelled.
- YouTube: get_youtube_client and the other functions of the file call the YouTube API over the network and are not modelled.
- ChainUtils: times are whole clock ticks read from a `now` parameter; get_step_avg_time and the averages in get_summary are float divisions and are left out.
- ChainUtils: json.loads is the parameter `loads`; the JSON schema is kept as its "properties" entries only, so a schema without them behaves as an absent one; str.format is modelled for string arguments and plain field names only.
- ChainUtils.Format: the KeyError message lists the missing names in Python's set order; the model keeps the set of names.
- ChainUtils: ListOutputParser is modelled with its default item_pattern `^\s*[-*]\s+(.+)$` (and the numbered fallback); a caller-supplied item_pattern is not modelled.
- ErrorHandling: the formatted traceback is the parameter `trace`; logging and log_request/log_response are left out, and setup_exception_handlers is app wiring.
- Base.IsSpace, Base.Lower, Base.Strip, Base.IsWordChar: ASCII only, and every member built on them (str.split, str.strip, str.lower, `\s`, `\w` throughout the model) with them; Python's Unicode rules differ, for example DetectLanguage on "a.\u212At" (KELVIN SIGN) keeps the extension ".\u212At" and answers "text", where Python's lower() gives ".kt" and "kotlin".
- Base.Lines: splits on '\n' only; every str.splitlines in the model inherits this, and the other line boundaries Python recognises are not modelled.

## Findings

| source | as written | input that shows it | evidently intended | confidence | as-written member | corrected member |
|---|---|---|---|---|---|---|
| crewai-service/crewai_service_integration.py:165-166 | batching is chosen when `len(tasks) > task_batch_size`, and the batches hold at least one task each | task_batch_size 0 in "parallel" mode with one task: the single batch [t] satisfies the guard again, so execute_crew recurses forever on it | a batch never triggers batching again | not executed | CrewServiceIntegration.AsWrittenRebatchesForever | CrewServiceIntegration.BatchesDoNotRebatch |
| interpreter/parser/parser.py:407-427 | `synchronize` lists `TokenType.CLASS`, which the token type enumeration does not define | the program `+ 1;`: the first token fails to parse, and looking up CLASS raises AttributeError instead of resynchronising | stop after ';' or before a statement keyword | not executed | LoxParser.SynchronizeAsWrittenFails | LoxParser.Parser.Synchronize |
| interpreter/interpreter/interpreter.py:256-274 | the index errors raise `RuntimeError(expr.index, ...)`, passing an expression where a token is expected, and reading its line raises AttributeError | the program `print [1][5];` | the interpreter's own RuntimeError with the message, which the interpreter reports | not executed | LoxInterpreter.GetIndexAsWrittenEscapes | LoxInterpreter.GetIndex |
| AutoGroq/src/utils/helpers.py:96-108 | the next start is always `end - overlap`, also once `end` has reached the end of the text | chunk_text("abcd", 3, 1): start goes 0, 2, 3, 3, ... and the loop never ends | stop once a chunk reaches the end of the text | not executed | Helpers.ChunkTextAsWrittenLoops | Helpers.ChunksConcat |
| AutoGroq/src/utils/helpers.py:96-108 | the next start `end - overlap` is not checked to move forward | chunk_text("abcdef", 2, 2): the first chunk is "ab" and the start goes back to 0, forever | every iteration moves the start forward | not executed | Helpers.ChunkTextAsWrittenStallTrace | Helpers.NextStart |
| AutoGroq/src/utils/helpers.py:103 | the break list holds `'\!'`, the two characters backslash and '!', which a single character never equals | any text whose only sentence break in the window is '!' | '!' is a sentence break like '.' and '?' | not executed | Helpers.BreakAsWrittenMissesExclamation | Helpers.WindowEnd |
| goose_tools/utils/file_utils.py:76-80 | a long name keeps `base[:255 - len(ext)] + ext`, and a negative bound keeps almost all of the base | "a." followed by 300 'x' characters: the result is 301 characters long | at most 255 characters | not executed | GooseFileUtils.SanitizeLongExtension | GooseFileUtils.SanitizeFilenameBounds |
| goose_tools/scripts/extract_code.py:205-207 | a line holding '/*' opens a block comment even when '*/' closes it on the same line | the lines "a(); /* b */" and "c": "c" is copied as a comment | the block ends on the line that closes it | not executed | GooseExtractCode.SameLineBlockAsWritten | GooseExtractCode.CommentsInBlock |
| goose_tools/scripts/extract_code.py:229-245 | the tail is `lines[-end_lines:]`, which is the whole list when end_lines is 0 | max_lines 0: the sample is the two markers followed by the whole file | no lines from the end when none are asked for | not executed | GooseExtractCode.SampleZeroAsWritten | GooseExtractCode.SampleLinesShape |
| goose_tools/scripts/extract_web.py:355-361 | `lines[:max_lines]` with a negative max_lines drops lines from the end, and the note reports `len(lines) - max_lines` | ten lines and --max-lines -5: five lines are kept and fifteen reported as truncated | a negative limit keeps no lines and the note reports the lines dropped | not executed | GooseExtractWeb.NegativeLimitAsWritten | GooseExtractWeb.TruncatedShape |
