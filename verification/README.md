# opcbridge: models and proofs

This project models the parts of the opcbridge suite that decide things by themselves, and proves what they promise for
every input, every run or every reachable state. `dafny verify dfyconfig.toml` checks all of it.

Code that changes state in place is a class or a method with loops; each is proved to compute a specification function of
its inputs or its old state, and the theorems are lemmas about those functions and about whole runs of them.

| component | files |
|---|---|
| Flow validation (Kahn's algorithm) | `FlowGraph.dfy` |
| Flow worker: queues, event processing, trigger and rate-limit nodes | `FlowEngine.dfy` (state machine), `FlowService.dfy` (the object), `FlowTimers.dfy`, `FlowRates.dfy`, `FlowHops.dfy`, `FlowPorts.dfy`, `FlowShield.dfy`, `FlowForgery.dfy`, `FlowLiveness.dfy` (theorems) |
| Flow expression evaluator | `Numerals.dfy`, `MathExpression.dfy`, `ExpressionTrees.dfy`, `ExpressionAcceptance.dfy` |
| Static read dependencies of automation scripts | `AutomationDependencies.dfy` (analysis), `ScriptLanguage.dfy` (programs and layouts), `ScriptFindings.dfy`, `AutomationExactness.dfy` |
| Script interpreter, against that analysis | `ScriptInterpreter.dfy` (interpreter), `ScriptReading.dfy`, `InterpreterSoundness.dfy`, `ScriptHoles.dfy` |
| Glob matching, comment stripping | `Glob.dfy`, `CommentStripper.dfy` |
| Consumer demand: registrations, leases, heartbeat client | `ConsumerDemand.dfy`, `ConsumerDemandLeases.dfy`, `ConsumerDemandClient.dfy` |
| Database sync and historical backfill | `DatabaseSync.dfy`, `DatabaseSyncTheorems.dfy`, `Backfill.dfy`, `BackfillTheorems.dfy` |
| Polling measurement and planning | `ActiveSweep.dfy`, `AsyncPollBatch.dfy`, `DemandSchedulerPreview.dfy` |

## Conventions and assumptions

- Time is an integer number of milliseconds (seconds of a backfill are multiplied out). Where an ordered clock is needed, a
  lemma says so. A section under a mutex is one atomic step.
- JSON is a datatype with absent, wrongly typed and valid members where the code checks for them.
- Calls into the outside (drivers, HTTP, SQL, the clock) are parameters: oracles, answers that must be true of a table, or
  replies. Nothing is assumed of them unless a lemma's `requires` says it.
- Events come into a flow from polled tags, MQTT messages and test events; they have no key, and test events can be put in at
  any node, null included.
- The evaluator's numbers are an abstract type with named operations; no law of arithmetic is assumed, so the theorems hold
  of IEEE doubles.
- `std::isspace`, `std::isalpha` and `std::isdigit` are those of the C locale.
- The script interpreter is the one in `opcbridge/main.cpp`, which works on the text of a script. A `World` decides what
  the text does not: values of expressions, which steps fail, which branches are taken, when a run is broken off. Theorems
  hold in every world.

## Where the code differs from what one would expect

- **Glob.** A `*` in the *text* is consumed by an equal `*` of the pattern before the pattern's star is treated as a
  wildcard. So the matcher is right for every pattern exactly when the text has no star, and for every text exactly when the
  pattern has none (`Glob.ExactForText`, `Glob.ExactForPattern`). It never matches wrongly.
- **Comment stripper.** A slash directly before a quote leaves the machine outside its string state: `/"//"` becomes `/"`
  (`CommentStripper.SlashLosesLiteral`). Some literals survive that: `/"\""` does, because the quote in it puts the machine
  back in step (`CommentStripper.EscapedQuoteIsHarmless`). All continuations of a text are stripped right exactly when every
  literal directly behind a slash is of that kind (`CommentStripper.StripsExactly`). A literal with no quote in it is not,
  unless it ends in a slash (`CommentStripper.QuotelessIsHarmful`).
- **Reserved ports.** Flow validation accepts edges into the ports the engine reserves for its timers. What comes over one
  is taken for a release if it finds the node in the right state, and the messages sent before it at the same event decide
  that. `FlowPorts.Forges` says which messages of which node can do it: nodes that pass everything on can over every such
  edge, because a null from a test event does not move a trigger (`FlowPorts.PassingForges`); behind writable values it
  depends on the generation they leave (`FlowPorts.TakesEffectMeans`, `FlowPorts.SplitForges`); write, publish and e-mail
  nodes send nothing, and a switch sends only from ports of its own (`FlowPorts.OnlySelectable`). Without a message of this
  kind timers and rate limiters are safe in every run; with one that a test event brings about, there is a run of test
  events in which a trigger fires without its timer, or a rate limiter emits too soon or what it never accepted
  (`FlowForgery.TimersHoldExactly`, `FlowForgery.RatesHoldExactly`).
- **Script literals.** The analysis takes string literals for inert text. The interpreter searches the raw text: an
  assignment, a `setTag` call and a reference inside a literal are found and evaluated. So there are scripts with a complete
  analysis that reports nothing and runs that read a tag (`ScriptHoles.ReferenceInLiteral` for any tag,
  `ScriptHoles.AssignmentInLiteral`, `ScriptHoles.SetTagInLiteral`). The analysis is sound for every text none of whose
  literals holds `tag`, `quality` (in any case) or `if` before a parenthesis (`InterpreterSoundness.AnalysisIsSound`). Where
  each of these begins a whole call on two quoted texts, the analysis covers every run exactly if it reports what these
  calls read (`InterpreterSoundness.CoveredExactly`).
- **Batch polling.** With a timeout result equal to the pending one the loop never ends on a driver that stays pending
  (`AsyncPollBatchModel.EndsExactlyWhen`).
- **Sync.** A commit that fails on B after A has committed leaves A's new rows; the run reports failure. That is the only
  way an unsuccessful run changes a table (`DatabaseSyncTheorems.PartialCommit`).

## Model

| member | source | states |
|---|---|---|
| FlowGraph.ValidateGraph | opcbridge-flow/opcbridge_flow.cpp:791-809 | The verdict names the first edge that is improper, and otherwise is "cycle" exactly when the edge relation, parallel edges included, has a cycle; an accepted flow comes with an order of all nodes along which every edge goes forward |
| FlowGraph.Drain | opcbridge-flow/opcbridge_flow.cpp:801-808 | Comparing the number of visited nodes with the number of nodes decides cyclicity |
| FlowGraph.Sources | opcbridge-flow/opcbridge_flow.cpp:801-802 | The queue starts with exactly the nodes that have no incoming edge |
| FlowGraph.Visit | opcbridge-flow/opcbridge_flow.cpp:805-806 | Taking away one node's edges keeps every counter equal to the edges still coming from unvisited nodes, and queues a node once, when its counter reaches 0 |
| FlowGraph.Finished | opcbridge-flow/opcbridge_flow.cpp:808 | When the queue is empty, all nodes were visited if and only if there is no cycle |
| FlowGraph.WalkBack | opcbridge-flow/opcbridge_flow.cpp:808 | If every unvisited node has an unvisited predecessor, there is a cycle |
| FlowGraph.TopologicalIsAcyclic | opcbridge-flow/opcbridge_flow.cpp:803-808 | An order along which every edge goes forward excludes cycles |
| FlowServiceModel.FlowService.Enqueue | opcbridge-flow/opcbridge_flow.cpp:815-821 | Appends to the queue |
| FlowServiceModel.FlowService.EnqueueDelayed | opcbridge-flow/opcbridge_flow.cpp:823-831 | Refuses at the limit; otherwise inserts behind everything due no later |
| FlowServiceModel.FlowService.ReplaceTriggerTimer | opcbridge-flow/opcbridge_flow.cpp:833-846 | Removes every delayed release of the node, then inserts the new one unless the limit is reached |
| FlowServiceModel.FlowService.SplitParts | opcbridge-flow/opcbridge_flow.cpp:1033-1039 | One message per part and outgoing edge, in that order, with the part's name for a key |
| FlowServiceModel.FlowService.SwitchPorts | opcbridge-flow/opcbridge_flow.cpp:1042-1063 | The loop over the rules sends along the ports of the rules that equal the event's key, the first one only unless all are checked, and from "otherwise" if there is none; one message per port and edge from it, in that order |
| FlowServiceModel.FlowService.DelayEachMessage | opcbridge-flow/opcbridge_flow.cpp:1301-1314 | One delayed message per outgoing edge, as far as the limit allows |
| FlowServiceModel.FlowService.ProcessRateLimit | opcbridge-flow/opcbridge_flow.cpp:1258-1300 | The state the rate-limit node leaves, for releases and inputs alike |
| FlowServiceModel.FlowService.ProcessTriggerNode | opcbridge-flow/opcbridge_flow.cpp:1315-1358 | The state the trigger node leaves: release, stale release, reset, start, extension |
| FlowServiceModel.FlowService.ProcessEvent | opcbridge-flow/opcbridge_flow.cpp:1003-1457 | The state after one event: dropped over the hop limit, for an old epoch, or without a node; otherwise processed by the node's kind (pass on, convert, labelled inputs, split, switch, delay, rate limit, trigger, or send nothing) |
| FlowServiceModel.FlowService.PullDue | opcbridge-flow/opcbridge_flow.cpp:862-872 | All due delayed events, in their order, follow what was queued into the batch |
| FlowServiceModel.FlowService.WorkerPass | opcbridge-flow/opcbridge_flow.cpp:857-877 | One worker pass ends, with batch and queue empty, in the state that many turns of the state machine lead to |
| FlowPorts.ProcessGroups | opcbridge-flow/opcbridge_flow.cpp:1020-1456 | What processing an event queues is a sequence of groups, each an event the node can send, along the edges it can send it along, in their order |
| FlowPorts.RunKeepsPorts | opcbridge-flow/opcbridge_flow.cpp:1003-1457 | In every reachable state keys come from splits, a pending event on a reserved port was made by the engine or its port is named by an edge of the flow, an own release of a rate limiter has a writable value to release, and a trigger that neither extends nor resets is at generation 0 or 1 |
| FlowPorts.TakesEffectMeans | opcbridge-flow/opcbridge_flow.cpp:1323-1351 | Behind n ordinary messages of its group a release takes effect exactly if some generation the trigger can be at is taken by them to the one the release names |
| FlowPorts.OnlySelectable | opcbridge-flow/opcbridge_flow.cpp:1042-1063 | A switch sends only along edges from the port of one of its rules or, where it has it, from "otherwise" |
| FlowPorts.PassingForges | opcbridge-flow/opcbridge_flow.cpp:1452-1456 | Inputs and debug nodes forge over an edge into a trigger's port exactly if the trigger can be at its generation, whatever edges come first |
| FlowPorts.SplitForges | opcbridge-flow/opcbridge_flow.cpp:1026-1041 | A split, which sends no null, does so exactly if the ordinary messages before it can also lead to that generation |
| FlowShield.GroupShielded | opcbridge-flow/opcbridge_flow.cpp:1323-1351 | In a group without a forging message no release can take effect, wherever the group is processed |
| FlowShield.ActKeepsShield | opcbridge-flow/opcbridge_flow.cpp:815-877 | Every action keeps, for each node, that no release queued can take effect in the order of processing, nor in any part of the delayed queue that can be left |
| FlowShield.TimersAreSafe | opcbridge-flow/opcbridge_flow.cpp:833-877 | Without a message that forges a timer, in every reachable state, in queue order, a node's outstanding releases have strictly increasing generations, at most the current one; the delayed queue holds at most one per node; and only a timer that was neither superseded nor reset has ever fired |
| FlowShield.NoneAtZero | opcbridge-flow/opcbridge_flow.cpp:1315-1358 | A node whose generation is 0 has no release outstanding, so numbers starting again at 0 cannot meet an old one |
| FlowShield.RatesAreSafe | opcbridge-flow/opcbridge_flow.cpp:1258-1300 | Without a message that forges a rate release, in every reachable state each rate limiter has at most one release outstanding and none when not scheduled; any two emissions are at least its delay apart; every emission is of the value accepted last |
| FlowForgery.TimersHoldExactly | opcbridge-flow/opcbridge_flow.cpp:791-809 | No message that forges a timer: only live timers fire in any run. One that a test event brings about: some run fires something else. If all edges into triggers' reserved ports are direct, only live timers fire in every run if and only if there is no such message |
| FlowForgery.ForgedTimerFires | opcbridge-flow/opcbridge_flow.cpp:1323-1334 | The run, of test events only: the trigger is brought to the generation from which the messages of the group lead to the one the release names, and a release it never made fires |
| FlowForgery.RatesHoldExactly | opcbridge-flow/opcbridge_flow.cpp:791-809 | The same for rate limiters: emissions keep their distance and are of the value accepted last |
| FlowForgery.ForgedReleaseEmits | opcbridge-flow/opcbridge_flow.cpp:1258-1271 | The run, of test events only: a rate limiter emits although it has accepted nothing, or twice at the same instant |
| FlowForgery.DirectForges | opcbridge-flow/opcbridge_flow.cpp:596-611 | Where the edges into a node's reserved port are direct, whatever message strikes it, some message that a test event brings about does |
| FlowLiveness.NothingIsLost | opcbridge-flow/opcbridge_flow.cpp:823-846 | While the delayed queue has room and the hop limit is beyond the flows' depth, a rate limiter that waits and a trigger whose timer is live have their release pending, at a place that takes it |
| FlowLiveness.DueIsProcessed | opcbridge-flow/opcbridge_flow.cpp:857-877 | In every reachable state, whatever is queued or due by then comes to the front in the next worker pass |
| FlowLiveness.ScheduledExactly | opcbridge-flow/opcbridge_flow.cpp:1258-1300 | Then a rate limiter is scheduled exactly while one release of its own is outstanding |
| FlowLiveness.LiveTimerPends | opcbridge-flow/opcbridge_flow.cpp:1315-1358 | And a live timer's release is the newest one outstanding, and the only one of the trigger's current generation |
| FlowTimers.TriggerKeeps | opcbridge-flow/opcbridge_flow.cpp:1315-1358 | Every branch of the trigger node keeps the timer invariant |
| FlowTimers.PullKeepsTimers | opcbridge-flow/opcbridge_flow.cpp:862-872 | Moving due events keeps the order of each node's releases |
| FlowRates.OwnRate | opcbridge-flow/opcbridge_flow.cpp:1258-1300 | Every branch of the rate-limit node keeps that invariant for its own node |
| FlowRates.OtherRate | opcbridge-flow/opcbridge_flow.cpp:1258-1300 | And for every other node |
| FlowHops.RunsAreBounded | opcbridge-flow/opcbridge_flow.cpp:1003-1004 | In every reachable state of accepted flows an event's hops are bounded by twice the rank of its node |
| FlowHops.HopsAreBounded | opcbridge-flow/opcbridge_flow.cpp:1003-1457 | Every event that has moved has made at most 2n-1 hops, n the number of nodes of its flow |
| FlowHops.LimitNeverHit | opcbridge-flow/opcbridge_flow.cpp:1004 | When 2n-1 is within the limit for every flow, "Maximum event hops exceeded" cannot be raised |
| FlowHops.ProcessAdds | opcbridge-flow/opcbridge_flow.cpp:1003-1457 | One event adds only events with one hop more, to neighbours or to its own timer port, and none past the limit |
| FlowHops.TurnDescends | opcbridge-flow/opcbridge_flow.cpp:873-877 | One turn lowers the measure of the drain |
| FlowHops.InnerLoopEnds | opcbridge-flow/opcbridge_flow.cpp:873-877 | Without another producer the inner loop ends, for every batch, input and fan-out |
| MathExpression.MathExpression.Evaluate | opcbridge-flow/opcbridge_flow.cpp:264-269 | Value of the whole text, or the error: trailing text, non-finite result, or that of a part |
| MathExpression.MathExpression.Expression | opcbridge-flow/opcbridge_flow.cpp:271-275 | The advancing object returns the value and position of the functional parser, for sums |
| MathExpression.MathExpression.Term | opcbridge-flow/opcbridge_flow.cpp:276-286 | The same for products, with the two zero-divisor errors |
| MathExpression.MathExpression.Unary | opcbridge-flow/opcbridge_flow.cpp:287 | The same for signs |
| MathExpression.MathExpression.Primary | opcbridge-flow/opcbridge_flow.cpp:288-307 | The same for parentheses, numbers, inputs and calls |
| MathExpression.MathExpression.Arguments | opcbridge-flow/opcbridge_flow.cpp:300-305 | The same for argument lists |
| MathExpression.MathExpression.Identifier | opcbridge-flow/opcbridge_flow.cpp:320 | The longest name after white space |
| Numerals.NumeralStops | opcbridge-flow/opcbridge_flow.cpp:291-293 | std::stod reads a literal completely when no character that would prolong it follows |
| Numerals.NumeralPrefix | opcbridge-flow/opcbridge_flow.cpp:291-293 | And whatever it reads is such a literal |
| ExpressionTrees.LayoutEvaluates | opcbridge-flow/opcbridge_flow.cpp:264-325 | On every layout of every well-formed tree the evaluator consumes all text and returns the tree's value or its first error |
| ExpressionTrees.ReadExpression | opcbridge-flow/opcbridge_flow.cpp:271-275 | Within a longer text too: the parser stands behind the tree with its value as left operand |
| ExpressionTrees.ReadTerm | opcbridge-flow/opcbridge_flow.cpp:276-286 | The same one level of precedence down |
| ExpressionTrees.ReadCall | opcbridge-flow/opcbridge_flow.cpp:298-306 | The arguments of a call are read to values in order, or the first error |
| ExpressionAcceptance.AcceptsExactlyTheTrees | opcbridge-flow/opcbridge_flow.cpp:264-325 | A text evaluates to v if and only if it is a layout of a well-formed tree with value v, and v is finite |
| ExpressionAcceptance.LayoutsAgree | opcbridge-flow/opcbridge_flow.cpp:264-325 | No text has two readings of different outcome |
| ExpressionAcceptance.FindExpression | opcbridge-flow/opcbridge_flow.cpp:271-275 | From every successful parse a tree can be recovered that is laid out in exactly the consumed text and has the value |
| ExpressionAcceptance.MinimalIsWellFormed | opcbridge-flow/opcbridge_flow.cpp:271-287 | Printing with parentheses only where precedence or left association needs them is well formed and keeps the meaning |
| ExpressionAcceptance.PrintedFormulaEvaluates | opcbridge-flow/opcbridge_flow.cpp:260-325 | Printing a formula minimally and evaluating it gives its meaning, and fails exactly when that fails or is not finite |
| AutomationDependencies.ReadDependencies | opcbridge/automation_dependencies.h:20-107 | The loops compute the analysis given by two functions, lexer and scan |
| AutomationDependencies.Tokenize | opcbridge/automation_dependencies.h:26-76 | The first loop computes the lexer function, with its two early returns |
| AutomationDependencies.ReadString | opcbridge/automation_dependencies.h:38-56 | A literal up to its unescaped quote, its escapes kept and its line breaks noted |
| AutomationDependencies.Balance | opcbridge/automation_dependencies.h:67-75 | The delimiter stack and the doubts a single character raises |
| AutomationDependencies.ScanMeans | opcbridge/automation_dependencies.h:82-105 | The scan stays complete exactly when every token is found clean, and reports the union of the reads found |
| AutomationDependencies.AnalysisMeans | opcbridge/automation_dependencies.h:77-106 | The analysis is complete exactly when lexing was, delimiters balance and every token is clean |
| AutomationExactness.AnalysisIsExact | opcbridge/automation_dependencies.h:17-107 | On any layout of a program the analysis is complete if and only if all calls are of the understood kinds and no literal spans lines, and then reports exactly the reads written in it |
| AutomationExactness.LayoutAbsorbed | opcbridge/automation_dependencies.h:26-76 | Lexing a layout gives the lexemes' tokens whatever white space and comments stand between them |
| AutomationExactness.ProgramNeutral | opcbridge/automation_dependencies.h:69-77 | A program's delimiters balance |
| ScriptFindings.ProgramFinds | opcbridge/automation_dependencies.h:82-105 | Scanning a program's tokens finds it clean exactly when it is restricted, and then finds the reads written in it |
| ScriptInterpreter.StripLogicComments | opcbridge/main.cpp:8811-8904 | The loop blanks comments and nothing else, in the five states of the source |
| ScriptReading.LexStripped | opcbridge/main.cpp:8811-8904 | Blanking comments changes no token of a script the analysis has no doubts about |
| ScriptReading.CallIsLiteral | opcbridge/automation_dependencies.h:95-104 | In such a text every call of tag or quality in the code has two literals for arguments and is reported |
| InterpreterSoundness.IfBlocksInCode | opcbridge/main.cpp:10438-10503 | If blocks begin at a keyword in the code and end at a brace in the code, if every head in a literal begins a whole call |
| InterpreterSoundness.CallIsReported | opcbridge/main.cpp:10505-10516 | Cutting out if blocks makes no call: one found in the remaining text is whole in the full text, and reported or one in a literal |
| InterpreterSoundness.ExpressionSound | opcbridge/main.cpp:9170-9940 | Wherever the expression parser starts, whatever values and failures it meets, it looks up only known tags: reported, or read by a call in a literal |
| InterpreterSoundness.MatchIsReported | opcbridge/main.cpp:9047-9111 | The pattern for literal calls finds only known tags |
| InterpreterSoundness.AssignmentsSound | opcbridge/main.cpp:9944-9986 | The assignment pattern, applied to raw text, evaluates only known reads |
| InterpreterSoundness.TextSound | opcbridge/main.cpp:10100-10193 | So do assignments and setTag calls of one text |
| InterpreterSoundness.ReferencesSound | opcbridge/main.cpp:8918-8963 | And the search for references |
| InterpreterSoundness.RunIsSound | opcbridge/main.cpp:10693-10760 | For every text whose analysis is complete and every reading or branching head in whose literals begins a whole call on two quoted texts without escapes: everything a run reads, in any world, is reported or read by one of these calls (tags of "_system" are no driver's) |
| InterpreterSoundness.CoveredExactly | opcbridge/main.cpp:10693-10760 | For these scripts the report covers every run if and only if it lists what the calls in literals read |
| InterpreterSoundness.AnalysisIsSound | opcbridge/main.cpp:10693-10760 | In particular: when no literal holds the head of a reading or branching call, everything a run of the script reads is reported |
| InterpreterSoundness.SetupIsSound | opcbridge/main.cpp:10682-10692 | The same for the setup part of a script |
| InterpreterSoundness.ProgramIsSound | opcbridge/main.cpp:10693-10760 | On any layout of a program the analysis understands, a run reads no more than is written in the program |
| InterpreterSoundness.PatternInLiteral | opcbridge/main.cpp:8926-8963 | The other way: a reading call inside a literal, in the form of the search pattern, is looked up in every run of the script |
| ScriptHoles.ReferenceInLiteral | opcbridge/main.cpp:8926-8963 | For every connection other than "_system" and every tag, their names being any text without quotes, backslashes and line ends, a script whose complete analysis reports nothing, and every run looks the tag up |
| ScriptHoles.AssignmentInLiteral | opcbridge/main.cpp:9953-9967 | For names of letters, digits and underscores, such a script that evaluates an assignment written inside a literal |
| ScriptHoles.SetTagInLiteral | opcbridge/main.cpp:10100-10131 | Such a script that evaluates the value of a setTag call written inside a literal |
| Glob.ConsumerDemandGlob | opcbridge/consumer_demand.h:75-85 | Computes the one fast matcher; a match is right always, and a mismatch too unless both strings have a star |
| Glob.LoggerGlobMatch | opcbridge-logger/opcbridge_logger.cpp:608-636 | The logger's copy computes the same matcher, so the two agree on every input |
| Glob.FastIsSound | opcbridge/consumer_demand.h:75-85 | Whatever the two-pointer loop accepts matches by the recursive definition |
| Glob.ExactForText | opcbridge/consumer_demand.h:75-85 | The loop is right on a text for every pattern if and only if the text has no star |
| Glob.ExactForPattern | opcbridge/consumer_demand.h:75-85 | It is right on a pattern for every text if and only if the pattern has no star |
| Glob.FailsOnText | opcbridge/consumer_demand.h:79 | For every text with a star, a pattern that matches and is refused |
| Glob.FailsOnPattern | opcbridge/consumer_demand.h:79 | For every pattern with a star, a text that matches and is refused |
| Glob.LastStarSuffices | opcbridge/consumer_demand.h:80-81 | Remembering only the last star loses no match |
| CommentStripper.StripComments | opcbridge-logger/opcbridge_logger.cpp:722-783 | The character loop computes the stripped text, and stripping that again changes nothing |
| CommentStripper.StripIsIdempotent | opcbridge-logger/opcbridge_logger.cpp:732-783 | Idempotent on every string |
| CommentStripper.ExactlyTheCommentsGo | opcbridge-logger/opcbridge_logger.cpp:732-783 | On plain stretches, string literals, block and line comments in any sequence, exactly the comments go and each line comment leaves its newline, if every literal directly behind a slash is harmless |
| CommentStripper.SplitsIsCopied | opcbridge-logger/opcbridge_logger.cpp:732-783 | A text leaves the machine where it was and is copied if and only if it splits into whole literals, slashes with a character that opens no comment, and other characters |
| CommentStripper.StripsExactly | opcbridge-logger/opcbridge_logger.cpp:732-783 | A sequence of pieces is stripped right under every continuation of every beginning if and only if every literal directly behind a slash is harmless |
| CommentStripper.SlashLosesLiteral | opcbridge-logger/opcbridge_logger.cpp:739-760 | A literal behind a slash that is read as a comment and lost |
| CommentStripper.EscapedQuoteIsHarmless | opcbridge-logger/opcbridge_logger.cpp:739-760 | A literal behind a slash that survives it: the quote in it puts the machine back in step |
| CommentStripper.QuotelessIsHarmful | opcbridge-logger/opcbridge_logger.cpp:739-760 | A literal without a quote in it does not, unless it ends in a slash |
| ConsumerDemandModel.ConsumerDemand.Apply | opcbridge/consumer_demand.h:17-54 | A refused message changes nothing; an accepted one replaces or releases its own owner only |
| ConsumerDemandModel.ReadTags | opcbridge/consumer_demand.h:34-39 | Accepts exactly lists of "connection:name" keys with both parts, and returns their set |
| ConsumerDemandModel.ReadPatterns | opcbridge/consumer_demand.h:43-49 | Accepts exactly lists of patterns with both members non-empty, and returns them in order |
| ConsumerDemandModel.DemandIndex.Merge | opcbridge/consumer_demand.h:60-72 | Merges one scope into its owner's object and no other |
| ConsumerDemandModel.IncrementAll | opcbridge/consumer_demand.h:69 | Each key is counted once more, in whatever order they are visited |
| ConsumerDemandModel.MergedDemands | opcbridge/consumer_demand.h:60-94 | A merged object answers yes exactly when it did before or the scope asks for the tag |
| ConsumerDemandModel.AggregateIsExact | opcbridge/consumer_demand.h:60-94 | The object of any registrations answers yes exactly when one of them has all tags, lists the key, or has a matching pattern |
| ConsumerDemandModel.CoversMeans | opcbridge/consumer_demand.h:87-94 | For names without a star a pattern asks exactly by the recursive definition of matching |
| ConsumerDemandModel.ConsumerDemandMatches | opcbridge/consumer_demand.h:87-94 | The query loop gives that answer |
| ConsumerDemandLeasesModel.ConsumerDemandLeases.Apply | opcbridge/consumer_demand_leases.h:11-25 | Refused messages change nothing; others prune and then renew or end their own (client, owner) pair |
| ConsumerDemandLeasesModel.ConsumerDemandLeases.Append | opcbridge/consumer_demand_leases.h:26-30 | Every unexpired entry is merged once: each owner's answers and counts grow by exactly its entries |
| ConsumerDemandLeasesModel.ConsumerDemandLeases.Prune | opcbridge/consumer_demand_leases.h:33-36 | Erasing while iterating leaves exactly the unexpired entries, unchanged |
| ConsumerDemandLeasesModel.EntriesAreLive | opcbridge/consumer_demand_leases.h:11-36 | After any history the server holds a scope for a pair exactly when that pair's latest message registered it less than 60 s ago |
| ConsumerDemandLeasesModel.DemandIsExact | opcbridge/consumer_demand_leases.h:26-36 | After any history, appended demand is exactly what was there before plus the live registrations with that owner label |
| ConsumerDemandLeasesModel.OthersDoNotMatter | opcbridge/consumer_demand_leases.h:21-23 | What a pair holds depends on its own messages only |
| ConsumerDemandLeasesModel.SilentContributesNothing | opcbridge/consumer_demand_leases.h:33-36 | Without a successful registration for 60 s a pair contributes nothing |
| ConsumerDemandLeasesModel.AddedOneMore | opcbridge/consumer_demand_leases.h:29 | Merging one more entry extends answers and counts of every owner by exactly that entry |
| ConsumerDemandClientModel.ConsumerDemandClient.Pass | opcbridge/consumer_demand_client.h:38-53 | For every base URL: released and forgotten when no longer desired, posted when new, changed or due, left alone otherwise and when the stop flag came first; what is posted, what is remembered |
| ConsumerDemandClientModel.ConsumerDemandClient.ReleaseAll | opcbridge/consumer_demand_client.h:41-44 | One release per base, nothing else touched |
| ConsumerDemandClientModel.ConsumerDemandClient.Stop | opcbridge/consumer_demand_client.h:61 | Stopping releases everything remembered |
| ConsumerDemandClientModel.LeaseNeverLapses | opcbridge/consumer_demand_client.h:38-61 | Client and server together: with passes at most D apart, at most k posts failing in a row and (k+1)(10 s + D) < 60 s, after the first accepted registration the server holds the last accepted scope at every instant up to D after the last pass, whatever others do |
| ConsumerDemandClientModel.BeatKeepsLease | opcbridge/consumer_demand_client.h:45-51 | One pass keeps the lease ahead of its expiry, posting or not, failing or not |
| DatabaseSyncModel.LoadSide | opcbridge-logger/opcbridge_logger.cpp:2968-3031 | One candidate, a latest row, for exactly the (tag, period) keys present in the window; fails over the record limit |
| DatabaseSyncModel.SyncDatabase.Insert | opcbridge-logger/opcbridge_logger.cpp:3108-3138 | Accepted rows are added; a rejected one is classified by what the table holds |
| DatabaseSyncModel.VisitKey | opcbridge-logger/opcbridge_logger.cpp:3140-3188 | Tables and counters after one key, with the adjustments for inserts found unnecessary |
| DatabaseSyncModel.VisitKeys | opcbridge-logger/opcbridge_logger.cpp:3140-3188 | The loop over the keys, left at the first failure |
| DatabaseSyncModel.Reconcile | opcbridge-logger/opcbridge_logger.cpp:3043-3201 | Loop, prediction, rollback and the two commits |
| DatabaseSyncModel.RunSyncJob | opcbridge-logger/opcbridge_logger.cpp:2918-3202 | A run is stopped early without touching a table exactly when a check, a query or a transaction start stops it; otherwise it is a run of the loop on what it read |
| DatabaseSyncTheorems.RunPreserves | opcbridge-logger/opcbridge_logger.cpp:3140-3202 | No run removes or changes a row; dry runs, failed keys and a failed first commit leave both tables; a success adds exactly `inserted` rows |
| DatabaseSyncTheorems.PartialCommit | opcbridge-logger/opcbridge_logger.cpp:3193-3202 | An unsuccessful run leaves B, and changes A if and only if no key failed, A committed, B did not, and a row was put into A |
| DatabaseSyncTheorems.RunConverges | opcbridge-logger/opcbridge_logger.cpp:2962-3202 | With one bucketing, after a successful run a key is on both sides exactly when it was on either (one-way jobs: on B), and no other key appears |
| DatabaseSyncTheorems.SecondRunChangesNothing | opcbridge-logger/opcbridge_logger.cpp:2962-3202 | A second run on the same window inserts nothing and leaves both tables, for every matching interval, whatever it meets |
| DatabaseSyncTheorems.InSyncChangesNothing | opcbridge-logger/opcbridge_logger.cpp:3140-3202 | On tables in sync any run, dry or not, copies nothing |
| DatabaseSyncTheorems.OneWayKeepsA | opcbridge-logger/opcbridge_logger.cpp:3146 | A one-way job never writes to A |
| DatabaseSyncTheorems.CountersConserve | opcbridge-logger/opcbridge_logger.cpp:3140-3196 | In every successful run the classes partition the selected keys, inserted is what both directions count, skipped the rest; at most one failure is counted |
| DatabaseSyncTheorems.DryRunPredicts | opcbridge-logger/opcbridge_logger.cpp:3189-3192 | What a dry run reports, in total and per direction, is what a successful run on the same tables then inserts |
| DatabaseSyncTheorems.NoneExists | opcbridge-logger/opcbridge_logger.cpp:3124-3134 | With one bucketing no insert of a run can meet a row with its own time and item |
| BackfillModel.BackfillService.Work | opcbridge-logger/opcbridge_logger.cpp:3307-3350 | The worker ends, cancelled, complete or failed and saved; its windows are consecutive from the cursor on, the cursor passed exactly those that succeeded, the totals are their sum |
| BackfillModel.BackfillService.Start | opcbridge-logger/opcbridge_logger.cpp:3292-3306 | Starts a running task that has no worker; fails one whose job is gone |
| BackfillModel.BackfillService.Cancel | opcbridge-logger/opcbridge_logger.cpp:2469-2480 | Only a running task can be cancelled, and the request is saved |
| BackfillModel.BackfillService.Restart | opcbridge-logger/opcbridge_logger.cpp:1526-1551 | After a restart the task is the one saved, without a worker |
| BackfillTheorems.ChunksTile | opcbridge-logger/opcbridge_logger.cpp:3307-3350 | Over every run with failures, cancellation and restarts at any moment: the successful windows since a restart are consecutive tiles from the saved cursor, each once, and every instant before the cursor lies in a tile that succeeded |
| BackfillTheorems.TilesDisjoint | opcbridge-logger/opcbridge_logger.cpp:3329-3331 | No instant lies in two tiles |
| BackfillTheorems.OnlyAfterSavedRepeats | opcbridge-logger/opcbridge_logger.cpp:3324-3331 | A window can run again only from the cursor that was saved before the last restart on |
| BackfillTheorems.CompleteIsInSync | opcbridge-logger/opcbridge_logger.cpp:3323-3327 | A complete task has its cursor at the end; no row was lost and every key of the whole range is on both sides |
| BackfillTheorems.NothingLeftToDo | opcbridge-logger/opcbridge_logger.cpp:3307-3350 | One more run over the whole range then changes nothing |
| BackfillTheorems.SyncKeepsTiles | opcbridge-logger/opcbridge_logger.cpp:3331-3343 | A chunk, successful, failed or committed by half, keeps every tile in sync that was |
| ActiveSweepModel.ActiveSweep.Configure | opcbridge/active_sweep.h:15-18 | Takes names and epoch and starts measuring anew |
| ActiveSweepModel.ActiveSweep.SetActive | opcbridge/active_sweep.h:19-24 | Starts anew only when the epoch is current and the set changed |
| ActiveSweepModel.ActiveSweep.Completed | opcbridge/active_sweep.h:25-38 | Ignores reads from another epoch, of inactive names, or begun before the boundary; otherwise the state after noting the read and, when it is the last one missing, closing the sweep |
| ActiveSweepModel.ActiveSweep.TakeSnapshot | opcbridge/active_sweep.h:39-52 | Averages over the kept samples in the two windows, last duration and age only after a counted sweep |
| ActiveSweepModel.RunIsConsistent | opcbridge/active_sweep.h:25-38 | In every run the seen names are a subset of the active ones and never all of them between calls |
| ActiveSweepModel.StepIsConsistent | opcbridge/active_sweep.h:30 | So comparing sizes decides equality of the sets |
| ActiveSweepModel.SweepReadsEverything | opcbridge/active_sweep.h:25-38 | A sweep that ends holds a read of every active name started at or after its boundary and finished by the new one |
| ActiveSweepModel.SweepsTelescope | opcbridge/active_sweep.h:32-36 | Durations since the last reset are non-negative and sum to the time from the priming instant to the boundary |
| ActiveSweepModel.PruningNeverShows | opcbridge/active_sweep.h:37-45 | For any instant not before the last sample, averages over up to 60 s of the pruned samples equal those of all samples since the last reset |
| AsyncPollBatchModel.AsyncPollBatch | opcbridge/async_poll_batch.h:11-41 | The started positions are a prefix ending at the first cancellation; each is captured exactly once with its own start instant, aborted only when still pending at deadline or cancellation; the passes are bounded by the timeout |
| AsyncPollBatchModel.StartAll | opcbridge/async_poll_batch.h:17-23 | Starts until cancellation, capturing at once what is not pending |
| AsyncPollBatchModel.PollAll | opcbridge/async_poll_batch.h:26-38 | One pass takes every active request one step further in its story |
| AsyncPollBatchModel.FirstEndIsFirst | opcbridge/async_poll_batch.h:30-33 | A pending request ends in the first pass that sees another status, cancellation or its deadline, which is within the bound |
| AsyncPollBatchModel.EndsExactlyWhen | opcbridge/async_poll_batch.h:31-35 | The loop ends in every world if and only if the timeout result differs from the pending one |
| DemandSchedulerPreviewModel.DemandSchedulerPreview.Refresh | opcbridge/demand_scheduler_preview.h:17-47 | The plan after a demand snapshot: entries decided tag by tag, others forgotten |
| DemandSchedulerPreviewModel.DemandSchedulerPreview.ShouldPoll | opcbridge/demand_scheduler_preview.h:49-55 | The verdict on one tag |
| DemandSchedulerPreviewModel.DemandSchedulerPreview.TakeSnapshot | opcbridge/demand_scheduler_preview.h:56-75 | The selected rows; per connection, polled plus idle rows are all its rows and no row is lost |
| DemandSchedulerPreviewModel.FailsOpen | opcbridge/demand_scheduler_preview.h:17-55 | Over any rounds with unique tags and an ordered clock, a tag is not polled exactly when the last plan is fresh, lists it for this epoch and the supported driver, has listed it throughout both graces, and no round within the idle grace saw demand |
| DemandSchedulerPreviewModel.EntryRemembers | opcbridge/demand_scheduler_preview.h:26-44 | An entry remembers when its unbroken run of rounds began and the last demand in it |
| DemandSchedulerPreviewModel.RefreshedAt | opcbridge/demand_scheduler_preview.h:20-46 | A refresh decides each key by its own tag and entry; a key without a tag is forgotten |
| DemandSchedulerPreviewModel.SnapshotAgrees | opcbridge/demand_scheduler_preview.h:64-73 | Every row shown carries the verdict should_poll gives, stale or not |

## Left out

- Threads, mutexes and condition variables: lock-protected sections are atomic steps.
- HTTP, curl, SQL text, drivers, files, JSON parsing and printing: parameters, or values already decoded; malformed demand snapshots, on which refresh throws, are not modelled.
- Redeploying a flow while events wait: all flow theorems speak of one deployment; events with epoch 0 that a redeploy does not reach are not covered.
- What conversions, labelled inputs and splits compute: a conversion is any function of the value, a node with labelled inputs may or may not pass on a value, the parts of a split are any; all of a node's labels are one. The retained inputs are not part of the state.
- Flow runtime statistics and status texts: not part of the state. The log and the stamps in the flow state are the model's own history.
- FlowLiveness.NothingIsLost: at the limit of the delayed queue a release can be lost, and after a reset with extension off a trigger stays silent; when a release that is due is processed is what `FlowLiveness.DueIsProcessed` says.
- FlowForgery.TimersHoldExactly: one way for messages that no single test event brings about: those of nodes with labelled inputs, of a switch at a key that only a split gives, of a rate limiter that a forged release makes send before it accepted anything, and the delayed value of a trigger that also sends an initial one, where the two differ in what they do to the target. Such a message needs others before it, which may move the target on; some of these edges are harmless.
- FlowForgery.RatesHoldExactly: one way in the same cases.
- FlowServiceModel.FlowService.ProcessEvent: reads the clock once per event, where the code may read it more than once.
- Error positions in the evaluator's messages: errors carry their kind only; IEEE rounding is abstracted.
- ScriptLanguage: script constructs that the analysis never accepts (loops, functions, member access); the exactness theorem speaks of programs the language can write, the soundness theorem of every text.
- ScriptInterpreter: values of expressions, number scanning and failures are left to the world; the preview of references is taken to look up every match, not the first ten found; of the loops only the one that blanks comments is a method, the others are functions over positions; balance checks before a run, which only refuse scripts, are left out.
- InterpreterSoundness.CoveredExactly: leaves open scripts with a literal that holds a head of another form: in upper case, at the end of a longer word, before other arguments, with escapes in them, or of an if.
- AutomationExactness.AnalysisIsExact: the reason text of an incomplete analysis is computed by the model but not characterised.
- ConsumerDemandClientModel.LeaseNeverLapses: posts take no time; a registration is attempted by a pass that is not cut short by the stop flag.
- The client's status counters and its random identifier.
- Tables are multisets of rows without NULL times or items; a commit that fails is rolled back. The display rows of a dry run are left out.
- The one-sided predecessor of the sync run (`run_sync_job`): it would repeat the same theorems in a simpler form.
- DatabaseSyncTheorems.RunConverges: the window is fixed and nobody else writes; with two bucketings that differ (daylight saving), only preservation and conservation are claimed.
- Locks and connection handling of a sync run, and validation of identifiers and database types before it connects.
- BackfillTheorems.ChunksTile: conversion between datetime text and seconds is taken as lossless; several tasks and the choice of the task to start are not modelled.
- Saving of the runtime state is a step that may happen at any time or not at all; file errors are not told apart.
- ActiveSweepModel: durations are exact integers of milliseconds rather than doubles.
- modbus_read_recovery.h, poll_read_gate.h, read_freshness.h, idle_connection_probe.h, execution_demand.h, tag_demand.h, runtime_config_state.h, poll_sweep_estimate.h: short classes with facts of one branch each.
- connection_names.h, connection_tag_cleanup.h, opcua-certificate.js, server.js, ws.h and the vendored httplib.h: file, process and network plumbing.
