# A Dafny model of BPMNinja

BPMNinja is a BPMN 2.0 workflow engine written in Rust. This project restates its
hard core in Dafny and proves what that core is relied on for. `dafny verify
dfyconfig.toml` checks all of it.

The model follows the form of the code. What mutates in place (the condition
parser, the XML scanner, tokens, the log buffer, the engine's table of pending
catches, the process definition) is a class or a method with loops, proved equal
to a function; the theorems are lemmas about those functions. What interleaves
(deleting members of a collection) is a state machine over its atomic steps.

## Components

- **Condition language** (`Condition*.dfy`). Lexer, recursive-descent parser and
  short-circuit evaluator. The parser decides a layered grammar that is defined
  independently of it, in both directions. Printing and parsing are inverse, on
  tokens and on text, with all parentheses and with no more than needed. What every
  construct evaluates to is said in terms of its operands (`ConditionLaws`). Boolean
  rewriting keeps verdicts and failures.
- **Model compiler** (`Definition`, `BpmnModel`, `Flatten*`, `Erasure`,
  `EventSubProcesses`, `HandlerRegions`, `Deployment`, `Deployed*`). A nested
  process becomes one flat graph. Its paths are exactly the hierarchical paths with
  passed-through starts and link catches erased, at any depth. Attached event
  sub-processes stay apart from the main process, and the path theorems carry over
  to every part of what is deployed. Where a token can go on is decided exactly, and
  so is which documents compile and deploy.
- **XML** (`XmlScan`, `XmlWalk`, `XmlRuns`, `XmlLoss`, `XmlDue`, `XmlTree`). The
  event-driven scan equals a recursive walk exactly when nothing is lost, and then
  reports each violation as often as it is due in the tree; the tree builder rebuilds
  every document.
- **Timers** (`Durations`, `DurationText`). Durations are exact 64-bit sums.
- **Data mappings and scopes** (`DataMapping`, `MappingParser`, `MappingGrammar`,
  `ActivityParser`, `ActivityGrammar`, `Tokens`, `DataScopes`, `DataLaws`). Which XML
  describes which mappings is decided exactly. A mapping phase is simultaneous. A token
  with an undo record refines a two-layer environment over every run.
- **Conditional catches** (`ConditionalEvents`, `ConditionalRuns`,
  `ConditionalTokens`, `ConditionalHistory`, `ConditionalExample`). What a pass does
  to every catch and token, in any order; when it can fail; and that catches are
  edge detectors over every run.
- **Tombstones** (`Tombstones`). No interleaving loses a delete.
- **Gateways** (`Gateway`).
- **Log buffer** (`LogBuffer`). What its file restores after every run, from every
  file, through crashes and writes that broke off.

## What the proofs found

- The range test on an array index admits 2^64 itself, which the cast to 64 bits
  turns into the largest index; anything larger is rejected
  (`ConditionSyntax.CastIsLossless`).
- `!` cannot be pushed through a comparison when an operand is undefined
  (`ConditionEval.NotThroughComparison` gives the exact condition).
- Equality of numbers tolerates an epsilon and `>=` does not, so `a >= b` can be
  false where `a == b` holds (`ConditionEval.OrderOfNumbers`).
- A pass over conditional catches can fail, although every catch has its token,
  exactly when an intermediate catch and another catch of the same token become
  true together (`ConditionalRuns.PassFailsExactly`, with an instance in
  `ConditionalExample.PassFails`).
- A pass can also succeed and leave a catch without its token. It does so exactly
  when an intermediate catch becomes true and another catch of its token is
  registered, a misplaced one that becomes true aside (`ConditionalRuns.PassKeepsTokensExactly`,
  `ConditionalExample.PassStrands`).
- An interrupting catch that becomes true fires for certain only if no other
  one-shot catch of its token becomes true in the same pass; otherwise the order
  decides (`ConditionalRuns.OneShotFiresExactly`).
- The comment beside `COMPACT_AFTER` promises that the log file stays near 5500
  lines. That holds within one run of the process
  (`LogBuffer.FileLengthIsBounded`), but a restart forgets how much was written, and
  over restarts the file grows without bound (`LogBuffer.RestartsDefeatCompaction`;
  the exact length is `LogBuffer.FileLength`).
- The log file restores what is in memory at every point of every run if and only if
  it was clean at first (`LogBuffer.RestorableExactly`). Reading stops at a line that
  is not UTF-8, so pushes behind one are lost by a restart until the file is compacted
  (`LogBuffer.UndecodableLineLosesPush`). A line without a line break takes the next
  push with it (`LogBuffer.OpenLineLosesTwo`). The code leaves such lines itself when
  it is killed within an append (`LogBuffer.TornRestores`).
- A missing error or escalation code is the same trigger as the code `*`
  (`EventSubProcesses.IdentityIsExact`).
- The end tag of a process inside a process ends the scan of the outer one, so its
  list lacks what follows (`XmlLoss.ListIsCutShort`, `XmlLoss.ScanIsWalkExactly`,
  `XmlRuns.NestedProcessHidesRest`). For the same reason an empty `process` tag
  inside a process differs from a start and an end tag
  (`XmlRuns.EmptyTagIsStartAndEnd`).
- The checks of a definition do not look at the entry of an embedded sub-process.
  It is a node exactly unless the inner start leads to itself
  (`FlattenPaths.EntryIsNode`; `FlattenExample.SelfLoopLeavesNoEntry` is a process
  that deploys and has no such node).
- A sub-process need not have an outgoing flow, so a token can reach its end and have
  nowhere to go (`FlattenProgress.ProgressIsExact` names all such places,
  `DeployedExample.TokenGetsStuck` is one).
- Conditions on the single flow out of an erased inner start or link catch are
  dropped by the compiler; the model follows the code.
- The comment on validation demands two outgoing flows of every gateway; the code
  is content with two incoming ones, and so is the model (`Definition.Validate`).
- Durations may repeat units and mix their order, which section 4.4.3.2 of ISO
  8601:2004 does not allow; the model follows the code.
- An enter that fails has already given up the scope of another activity
  (`DataScopes.FailureAppliesNothing`).

## Model

| member | source | states |
|---|---|---|
| `ConditionSyntax.CastIsLossless` | engine-core/src/condition.rs:701-739 | an index literal keeps its value exactly when it is below 2^64 |
| `ConditionParser.Parse` | engine-core/src/condition.rs:569-739 | the function the parser computes: every success consumes at least one token, under the measure (tokens left, grammar level) |
| `ConditionParser.Extend` | engine-core/src/condition.rs:569-646 | the left-associating loops never leave more tokens than they were given |
| `ConditionParser.Parser.constructor` | engine-core/src/condition.rs:543-546 | a parser starts at the first token of a list whose only end marker is last |
| `ConditionParser.Parser.Advance` | engine-core/src/condition.rs:547-557 | the index moves on by one and never past the end marker |
| `ConditionParser.Parser.ParseCondition` | engine-core/src/condition.rs:558-568 | the index-moving parser computes ParseAll: one expression and then the end marker |
| `ConditionParser.Parser.ParseOr` | engine-core/src/condition.rs:569-578 | computes the or-level, with the index inside the list |
| `ConditionParser.Parser.ParseAnd` | engine-core/src/condition.rs:579-588 | computes the and-level |
| `ConditionParser.Parser.ParseNot` | engine-core/src/condition.rs:589-597 | computes the not-level |
| `ConditionParser.Parser.ParseComparison` | engine-core/src/condition.rs:598-616 | computes the comparison level, which does not chain |
| `ConditionParser.Parser.ParseAdditive` | engine-core/src/condition.rs:617-631 | computes sums, associating to the left |
| `ConditionParser.Parser.ParseMultiplicative` | engine-core/src/condition.rs:632-647 | computes products, associating to the left |
| `ConditionParser.Parser.ParseUnary` | engine-core/src/condition.rs:648-656 | computes negations |
| `ConditionParser.Parser.ParsePrimary` | engine-core/src/condition.rs:657-700 | computes literals, parentheses and paths |
| `ConditionParser.Parser.ParsePath` | engine-core/src/condition.rs:701-739 | computes the accesses that follow a root name |
| `ConditionParser.Parser.ParseAccess` | engine-core/src/condition.rs:701-739 | computes one field or index access, or none |
| `ConditionDecides.ParseIsSound` | engine-core/src/condition.rs:558-739 | every syntax tree the parser returns is a derivation in the layered grammar of exactly the tokens it consumed, and what it leaves is the rest of the list |
| `ConditionDecides.ParseIsComplete` | engine-core/src/condition.rs:558-739 | every derivation is found by the parser, whatever follows that cannot continue it |
| `ConditionDecides.ParseKeepsEof` | engine-core/src/condition.rs:542-557 | a list that ends in its only end marker still does after parsing, so the index never leaves it |
| `ConditionDecides.ParserDecidesGrammar` | engine-core/src/condition.rs:558-739 | for every terminated token list the parser returns e if and only if the list is a spelling of a derivation that means e |
| `ConditionDecides.GrammarIsUnambiguous` | engine-core/src/condition.rs:558-739 | two derivations with the same tokens mean the same expression |
| `ConditionPrinter.ParseUndoesPrint` | engine-core/src/condition.rs:558-745 | parsing the parenthesised print of every well-formed expression returns exactly that expression |
| `ConditionLexer.SkipRun` | engine-core/src/condition.rs:268-449 | the scanning loop stops after the longest run |
| `ConditionLexer.ReadNumber` | engine-core/src/condition.rs:451-471 | reads the longest number; a point needs a digit after it |
| `ConditionLexer.ReadChar` | engine-core/src/condition.rs:473-540 | reads the closing quote or one character of a string body, escapes included, and fails only where the whole body does |
| `ConditionLexer.ReadString` | engine-core/src/condition.rs:473-540 | reads a string body with its escapes up to the closing quote, or fails exactly where the specification does |
| `ConditionLexer.TokenAt` | engine-core/src/condition.rs:268-449 | reads the token at a position |
| `ConditionLexer.Tokenize` | engine-core/src/condition.rs:268-449 | computes all tokens with the end marker, or fails exactly where one token fails |
| `ConditionSpacing.LexIgnoresMargins` | engine-core/src/condition.rs:231-258 | white space around a condition never changes its tokens |
| `ConditionEval.ResolvePath` | engine-core/src/condition.rs:789-815 | follows field and index accesses; anything missing on the way is undefined |
| `ConditionEval.NormalizeKeepsVerdict` | engine-core/src/condition.rs:751-787 | pushing negations to the leaves and reassociating chains keeps every verdict, failures included, in every environment |
| `ConditionEval.NormalizeIsNormal` | engine-core/src/condition.rs:751-787 | the rewritten expression has negations on leaves only and chains nested to the right |
| `ConditionEval.AssociativeLaws` | engine-core/src/condition.rs:751-787 | and and or are associative, for values and failures |
| `ConditionEval.DeMorgansLaws` | engine-core/src/condition.rs:751-787 | negation turns and into or and or into and, for values and failures |
| `ConditionEval.SkippedOperandIsIrrelevant` | engine-core/src/condition.rs:751-787 | expressions that agree wherever evaluation gets to have the same result, whatever stands in the operands that short-circuiting skips, at any depth |
| `ConditionEval.OnlyRootsMatter` | engine-core/src/condition.rs:751-815 | the result depends only on the root variables the expression names |
| `ConditionEval.MissingIsStrict` | engine-core/src/condition.rs:828-910 | arithmetic over a missing value is undefined or fails |
| `ConditionEval.MissingNeverCompares` | engine-core/src/condition.rs:29-49 | each of the six comparisons over a missing value makes the condition false |
| `ConditionEval.NotThroughComparison` | engine-core/src/condition.rs:828-865 | negation moves through a comparison if and only if no operand is undefined |
| `ConditionEval.OrderOfNumbers` | engine-core/src/condition.rs:828-882 | numbers compare by their order and are equal within the epsilon; so >= is > or == if and only if the left number is not smaller by less than that |
| `ConditionEval.OnlyZeroDivides` | engine-core/src/condition.rs:884-910 | evaluating arithmetic on two numbers fails if and only if it divides by zero or takes the remainder by zero |
| `ConditionEval.RemainderIsTruncated` | engine-core/src/condition.rs:884-910 | the remainder leaves a whole multiple of the divisor, is smaller than it, and never has the opposite sign to the dividend |
| `ConditionLaws.NumbersCalculate` | engine-core/src/condition.rs:884-910 | operands that evaluate to numbers: their sum, difference, product and negation evaluate to just that |
| `ConditionLaws.NumbersDivide` | engine-core/src/condition.rs:884-910 | a quotient of numbers times the divisor is the dividend; by zero it fails |
| `ConditionLaws.NumbersLeaveRemainder` | engine-core/src/condition.rs:884-910 | the remainder of any two operands that evaluate to numbers is the truncated one; by zero it fails |
| `ConditionLaws.OthersDoNotCalculate` | engine-core/src/condition.rs:884-910 | a failing operand fails, an undefined one makes the result undefined, and anything else but numbers fails |
| `ConditionLaws.NumbersCompare` | engine-core/src/condition.rs:828-882 | numbers compare by their exact order, and are equal if they differ by less than 2^-52 |
| `ConditionLaws.OthersCompare` | engine-core/src/condition.rs:828-882 | other values are equal if they are the same and have no order; nothing compares to an undefined value |
| `ConditionLaws.ConnectivesDecide` | engine-core/src/condition.rs:751-787 | each connective evaluates its left operand, and the right one only if that does not decide; the result is true or false by what counts as true |
| `ConditionLaws.HoldsIf` | engine-core/src/condition.rs:29-49 | a condition holds if and only if it evaluates to something that counts as true: true, numbers but zero, texts but the empty one, arrays and objects |
| `ConditionLaws.TextHoldsIf` | engine-core/src/condition.rs:29-49 | a text holds if and only if it parses to a condition that evaluates to something that counts as true |
| `ConditionLaws.PathsResolve` | engine-core/src/condition.rs:789-815 | a name is its variable or undefined; each further segment is the field or item it names, or undefined |
| `ConditionText.ParseConditionText` | engine-core/src/condition.rs:741-749 | unwraps, lexes and parses a text, computing ParseText |
| `ConditionText.LexUndoesSpelling` | engine-core/src/condition.rs:268-449 | lexing undoes any spelling of a token list, with signs or words for the connectives |
| `ConditionText.WrapperIsTransparent` | engine-core/src/condition.rs:231-258 | a condition means the same inside the expression wrapper as without it |
| `ConditionText.OtherTextsFail` | engine-core/src/condition.rs:231-258 | blank texts fail, and so do wrappers that do not surround the whole text or hold nothing |
| `ConditionText.WrittenIsRead` | engine-core/src/condition.rs:741-749 | any spelling of a printed expression is parsed back to it |
| `ConditionText.ParseUndoesWrite` | engine-core/src/condition.rs:741-749 | parsing the written text of an expression returns exactly that expression |
| `ConditionShort.ParseUndoesShortPrint` | engine-core/src/condition.rs:558-745 | parsing undoes printing with no more parentheses than precedence and left associativity ask for |
| `ConditionShort.ParseUndoesShortText` | engine-core/src/condition.rs:268-745 | the same for the text, with signs or with the words and, or, not for the connectives |
| `ConditionShort.ComparisonsDoNotChain` | engine-core/src/condition.rs:598-616 | a second comparison sign fails, whatever the operands and whatever follows |
| `ConditionLiterals.NamesAreRead` | engine-core/src/condition.rs:260-266 | letters, digits and underscores, no digit first, and none of the words, are read whole as a name |
| `ConditionLiterals.OtherCharactersFail` | engine-core/src/condition.rs:268-449 | no token begins with any other character; a bar, an ampersand and an equals sign have to be doubled |
| `ConditionLiterals.EscapesAreRead` | engine-core/src/condition.rs:489-500 | each of the eight escapes is read as its character, anywhere in a string |
| `ConditionLiterals.OtherEscapesFail` | engine-core/src/condition.rs:486-530 | any other letter after a backslash fails, and so does a backslash at the end |
| `ConditionLiterals.CodePointsAreRead` | engine-core/src/condition.rs:501-522 | four hexadecimal digits in either case, or a plus sign and three, are read as that character; surrogates fail |
| `ConditionLiterals.OtherCodesFail` | engine-core/src/condition.rs:501-512 | anything else among the four fails, and so do fewer than four |
| `ConditionLiterals.FractionsAreRead` | engine-core/src/condition.rs:451-471 | digits, a point and digits are read as the number with that many decimal places |
| `Definition.IncomingFlowCount` | engine-core/src/domain/definition.rs:287-294 | counts the sequence flows into a node, one per source and position |
| `Definition.CountStarts` | engine-core/src/domain/definition.rs:61-84 | counts the start events |
| `Definition.HasEnd` | engine-core/src/domain/definition.rs:86-106 | whether there is an end event |
| `Definition.CheckFlows` | engine-core/src/domain/definition.rs:108-118 | whether all flows connect existing nodes |
| `Definition.CheckNode` | engine-core/src/domain/definition.rs:120-209 | whether a node is attached and connected as its kind demands |
| `Definition.Validate` | engine-core/src/domain/definition.rs:50-225 | validation accepts exactly the well-formed graphs |
| `Definition.WellFormedMeans` | engine-core/src/domain/definition.rs:50-225 | a graph is well formed if and only if it has one start, some end, flows between its nodes only, and every node has the flows its kind demands, gateways two on one side, and event-based ones lead to message, timer and signal catches only |
| `BpmnModel.ResolveLinkScope` | bpmn-parser/src/parser.rs:419-474 | resolves the links of a scope if and only if every catch is proper and names are distinct |
| `BpmnModel.CollectOutFlows` | bpmn-parser/src/parser.rs:1754-2245 | the flows out of a node in document order |
| `Flatten.AddThrow` | bpmn-parser/src/parser.rs:476-502 | a throw is accepted if and only if it is proper, and becomes a node and a flow to the target of its catch |
| `Flatten.AddThrows` | bpmn-parser/src/parser.rs:476-502 | so does every throw of a scope, if and only if all are proper |
| `Flatten.AddFlows` | bpmn-parser/src/parser.rs:1653-1664 | keeps every flow but those out of erased starts and link catches |
| `Flatten.AddStart` | bpmn-parser/src/parser.rs:1784-1836 | places or passes through the single start of a sub-process |
| `Flatten.AddEnds` | bpmn-parser/src/parser.rs:1838-1861 | places ends; inside a sub-process they return to it |
| `Flatten.AddOwn` | bpmn-parser/src/parser.rs:1081-1664 | everything of a scope but the scopes inside it: starts with their kinds, ends, parts, throws and kept flows |
| `Flatten.CheckEventSubs` | bpmn-parser/src/parser.rs:1638-1651 | event sub-processes have no flows of their own |
| `Flatten.FlattenScope` | bpmn-parser/src/parser.rs:1754-2245 | flattens a scope and all scopes inside it, if and only if the scope is accepted |
| `Flatten.FlattenSubs` | bpmn-parser/src/parser.rs:1666-1688 | flattens the embedded scopes one after the other |
| `Flatten.Compile` | bpmn-parser/src/parser.rs:1690-1693 | a scope compiles if and only if it is accepted and its graph is well formed |
| `Erasure.ErasedPathIsFlat` | bpmn-parser/src/parser.rs:1754-2245 | a simulated path with its erased steps left out is a path of the simulation |
| `Erasure.FlatPathIsErased` | bpmn-parser/src/parser.rs:1754-2245 | a covered path is some path with its erased steps left out |
| `FlattenEdges.GraphPlacesEverything` | bpmn-parser/src/parser.rs:1754-2245 | every scope of a compiled process finds its own nodes, starts with their kinds, and flows in the graph, in document order with their conditions, and nothing else is in it |
| `FlattenDocument.GraphMirrorsDocument` | bpmn-parser/src/parser.rs:1081-2245 | the graph of a compiled process, handler or scope inside, at any depth: starts with their kinds, the entry of each sub-process, its fork as a parallel gateway, ends that return to their sub-process, tasks as they are, links resolved, and each flow with its condition in document order |
| `FlattenDocument.AcceptsExactly` | bpmn-parser/src/parser.rs:419-502 | the compiler accepts a scope if and only if its starts, ends, links, parts and sub-processes meet the stated demands, at any depth |
| `FlattenPaths.GraphSimulates` | bpmn-parser/src/parser.rs:1754-2245 | every hierarchical step is a flat step, or leads through an erased node to one |
| `FlattenPaths.GraphCovers` | bpmn-parser/src/parser.rs:1754-2245 | every flat step is a hierarchical step, or two through an erased node |
| `FlattenPaths.NestedPathIsFlat` | bpmn-parser/src/parser.rs:1754-2245 | every path through the nested process, with erased starts and link catches left out, is a path through the flat graph, at any depth |
| `FlattenPaths.FlatPathIsNested` | bpmn-parser/src/parser.rs:1754-2245 | every path through the flat graph is such an erasure of a path through the nested process |
| `FlattenPaths.EntryIsNode` | bpmn-parser/src/parser.rs:1754-1836 | the entry of an embedded scope is a node if and only if its start does not lead to itself |
| `FlattenProgress.ProgressIsExact` | engine-core/src/domain/definition.rs:137-162 | a token at a node of a deployed process or handler can go on if and only if the node is not an end of it, an end of a sub-process without outgoing flow, a compensation boundary event without flow, or a sub-process whose start leads to itself |
| `FlattenExample.ExampleIsDeployable` | bpmn-parser/src/parser.rs:1754-2245 | two processes with a sub-process that meet every demand of the path theorems |
| `FlattenExample.SelfLoopLeavesNoEntry` | bpmn-parser/src/parser.rs:1754-1836 | a process that deploys although the entry of its sub-process is not a node |
| `EventSubProcesses.IdentityIsExact` | bpmn-parser/src/parser.rs:2417-2429 | trigger texts are equal if and only if the triggers are, a missing code counting as the code * |
| `EventSubProcesses.ProcessDefinition.AttachEventSubProcess` | bpmn-parser/src/parser.rs:2431-2478 | fails without a trace if and only if a handler has the identifier or the same trigger, or a node is there already; otherwise adds the nodes, the flows behind those of the same source, and the handler |
| `EventSubProcesses.ProcessDefinition.MergeFlows` | bpmn-parser/src/parser.rs:2466-2468 | the merged flow table |
| `EventSubProcesses.ProcessDefinition.FindStart` | engine-core/src/domain/definition.rs:228-246 | finds a start outside the handlers, in any order of the nodes |
| `HandlerRegions.ValidatedIsSound` | engine-core/src/domain/definition.rs:50-225 | a validated definition without handlers is sound |
| `HandlerRegions.AttachKeepsSound` | bpmn-parser/src/parser.rs:2431-2478 | attaching keeps handlers disjoint, triggers distinct, flows inside their region, one main start, and every node connected |
| `HandlerRegions.AttachAllKeepsSound` | bpmn-parser/src/parser.rs:2431-2478 | so does any number of attachments, refused ones included |
| `HandlerRegions.StartIsStable` | engine-core/src/domain/definition.rs:228-246 | no attachment changes which node is the start of the process |
| `HandlerRegions.WalkStaysInRegion` | bpmn-parser/src/parser.rs:2431-2478 | no walk along sequence flows crosses between main process and handlers or leaves the nodes |
| `HandlerRegions.RegionIsUnique` | engine-core/src/domain/definition.rs:248-252 | every node is in exactly one region |
| `Deployment.CompileEventSubProcess` | bpmn-parser/src/parser.rs:2247-2331 | an event sub-process compiles if and only if it has one triggered start with one flow and an accepted, well-formed body |
| `Deployment.CompileHandlers` | bpmn-parser/src/parser.rs:1666-1676 | compiles the event sub-processes of a process in order |
| `Deployment.AttachHandlers` | bpmn-parser/src/parser.rs:1691-1693 | attaches all handlers if and only if none clashes when its turn comes |
| `Deployment.CompileProcess` | bpmn-parser/src/parser.rs:1666-1696 | everything that deploys is sound, and equals the flattened process with its handlers attached |
| `DeployedDocument.DeploysExactly` | bpmn-parser/src/parser.rs:1081-1696 | a process deploys if and only if it and its event sub-processes are accepted and well formed, and the event sub-processes are apart from it and from each other in identifiers, triggers and nodes |
| `DeployedDocument.DeployedMirrorsDocument` | bpmn-parser/src/parser.rs:1666-1696 | what is deployed mirrors the document of the main process and of every event sub-process, at any depth |
| `DeployedDocument.HandlerIsDeployed` | bpmn-parser/src/parser.rs:2247-2331 | every event sub-process is a handler with its identifier, start, nodes, trigger, and whether it interrupts |
| `DeployedDocument.HandlerComesFrom` | bpmn-parser/src/parser.rs:1691-1693 | there is no other handler |
| `Deployment.StartEvent` | engine-core/src/domain/definition.rs:228-246 | in a sound definition the start found is the only one, in whatever order nodes are searched |
| `DeployedPaths.DeployedStep` | bpmn-parser/src/parser.rs:1666-1696 | from a node of one part of a deployed process (the main process or a handler), a step through the whole is exactly a step of that part: along a flow, into a sub-process or back |
| `DeployedPaths.DeployedPathIsNested` | bpmn-parser/src/parser.rs:1666-1696 | every path through what is deployed stays in its part and is an erased path through that nested part |
| `DeployedPaths.NestedPathIsDeployed` | bpmn-parser/src/parser.rs:1666-1696 | every path through a nested part, erased, is a path through what is deployed |
| `DeployedPaths.DeployedProgress` | bpmn-parser/src/parser.rs:1666-1696 | a token in what is deployed can go on if and only if it is not where its own part stops |
| `DeployedExample.HandlerExampleDeploys` | bpmn-parser/src/parser.rs:1666-1696 | a process with a sub-process and an event handler that meets every demand of the theorems on deployed paths |
| `DeployedExample.TokenGetsStuck` | engine-core/src/domain/definition.rs:137-162 | in that process a token reaches the end of a sub-process that leads nowhere, and cannot go on |
| `XmlScan.Scanner.ClassifyEventDefinition` | bpmn-parser/src/parser.rs:741-806 | counts a definition at the nearest event and says what it violates; what that is, is said over the tree by XmlDue.ScanReportsWhatIsDue |
| `XmlScan.Scanner.CollectForElement` | bpmn-parser/src/parser.rs:823-873 | says what an element violates given its ancestors |
| `XmlScan.Scanner.TagSeen` | bpmn-parser/src/parser.rs:888-921 | opens a process, or notes violations and pushes a frame |
| `XmlScan.Scanner.EndSeen` | bpmn-parser/src/parser.rs:923-928 | pops a frame; the end of a process closes the current one |
| `XmlScan.Scanner.Scan` | bpmn-parser/src/parser.rs:930-955 | computes the run of the stack machine over all events |
| `XmlRuns.Scan` | bpmn-parser/src/parser.rs:823-955 | from every valid state of the scanner, scanning an element does what a tour of it does |
| `XmlRuns.ScanIsTour` | bpmn-parser/src/parser.rs:823-955 | for every document the scan yields the processes and violation lists of a recursive tour, in which the end of an inner process ends the outer one |
| `XmlWalk.TourInside` | bpmn-parser/src/parser.rs:823-928 | inside a process the tour finds a prefix of what the walk finds, and all of it unless a process in there is closed by an end tag |
| `XmlWalk.TourIsWalk` | bpmn-parser/src/parser.rs:823-928 | the tour is the plain walk for every document in which no process inside a process is closed by an end tag |
| `XmlRuns.ScanIsWalk` | bpmn-parser/src/parser.rs:823-955 | for each such document the scan yields the same processes and violation lists as the walk |
| `XmlLoss.ListIsCutShort` | bpmn-parser/src/parser.rs:888-928 | the list of a process and what the walk finds in it behind the first inner process that is closed are together what the walk finds; a further list begins if and only if a process opens behind it |
| `XmlLoss.ScanIsWalkExactly` | bpmn-parser/src/parser.rs:823-955 | for every document whose events hold no processes the scan equals the walk if and only if no process has a violation or a process behind an inner process that is closed |
| `XmlRuns.EmptyTagIsStartAndEnd` | bpmn-parser/src/parser.rs:888-928 | an empty tag equals a start and an end tag if and only if it is not a process inside a process |
| `XmlWalk.ProcessReports` | bpmn-parser/src/parser.rs:741-806 | in the walk of a process, wherever it stands outside of events, every event with two or more definitions is reported exactly once |
| `XmlRuns.ReportedOncePerEvent` | bpmn-parser/src/parser.rs:741-955 | in the list the scan makes of each process of a document, every event with two or more definitions is reported exactly once |
| `XmlDue.ScanReportsWhatIsDue` | bpmn-parser/src/parser.rs:516-955 | for every document without closed processes inside processes or processes inside events, the list of each process holds every violation of each of the nine kinds as often as it is due in its tree, by tables of supported and refused definitions |
| `XmlDue.SupportedEventIsFine` | bpmn-parser/src/parser.rs:741-806 | nothing is due for an event with a single definition that it supports, a start inside a plain sub-process aside |
| `XmlRuns.CurrentAfter` | bpmn-parser/src/parser.rs:888-928 | a process stays current if and only if no process inside it is closed |
| `XmlRuns.NestedProcessHidesRest` | bpmn-parser/src/parser.rs:923-928 | a concrete document whose violation the scan misses and the walk reports |
| `XmlTree.Tree` | bpmn-parser/src/data.rs:70-112 | builds the tree with a stack of nodes, computing the run over all events |
| `XmlTree.TreeRebuildsDocument` | bpmn-parser/src/data.rs:70-112 | the tree of a document has its text and elements in order, at every depth |
| `XmlTree.TreeRebuildsNode` | bpmn-parser/src/data.rs:70-112 | flattening a node to events and building the tree gives that node back |
| `XmlTree.AcceptsExactly` | bpmn-parser/src/data.rs:70-112 | building succeeds if and only if ends never outnumber starts |
| `Durations.Seconds` | bpmn-parser/src/parser.rs:77-152 | the loop with checked 64-bit arithmetic succeeds if and only if the segments are well formed, there is one, and the exact sum fits; then it returns that sum |
| `Durations.ParseDuration` | bpmn-parser/src/parser.rs:54-152 | trims, demands the leading P and computes the exact sum |
| `DurationText.DurationsAreExact` | bpmn-parser/src/parser.rs:54-152 | a text is accepted with n if and only if, between margins, it is P and well-formed parts by a table of units whose exact sum is n, and n fits into 64 bits |
| `DurationText.IntervalsAreExact` | bpmn-parser/src/parser.rs:295-331 | an interval of a count text and a duration is accepted if and only if the duration is and the count is empty or a number within 32 bits; then it has just these |
| `DurationText.OtherIntervalsFail` | bpmn-parser/src/parser.rs:295-331 | without a slash and without a time there is no interval |
| `DurationText.SecondsRoundTrip` | bpmn-parser/src/parser.rs:54-152 | PT n S reads back as n for every 64-bit n and fails beyond |
| `DurationText.FormsAgree` | bpmn-parser/src/parser.rs:295-327 | slash and compact repeating intervals agree for every count text and every PT duration without a slash |
| `DataMapping.Evaluate` | engine-core/src/domain/data.rs:16-37 | a mapping value evaluates if and only if every variable in it exists, at any depth, and then to its meaning |
| `DataMapping.EvaluateList` | engine-core/src/domain/data.rs:22-28 | the same for lists, in order |
| `DataMapping.EvaluateMap` | engine-core/src/domain/data.rs:29-35 | the same for maps, in any order of the entries |
| `DataMapping.EvaluateMappings` | engine-core/src/domain/data.rs:73-88 | a phase succeeds if and only if targets are non-blank and distinct and all variables exist |
| `DataMapping.PhaseIsSimultaneous` | engine-core/src/domain/data.rs:73-88 | every target gets the value its mapping has in the snapshot, whatever the other mappings write |
| `DataMapping.PhaseIgnoresOrder` | engine-core/src/domain/data.rs:73-88 | success and outcome are the same for every permutation of the mappings |
| `DataLaws.KnownExactly` | engine-core/src/domain/data.rs:16-37 | a mapping value can be evaluated if and only if every variable it names, at any depth, is there |
| `DataLaws.MeaningExactly` | engine-core/src/domain/data.rs:16-37 | it evaluates to v if and only if v is the JSON value it describes: literals, variables, lists item by item, maps entry by entry |
| `DataLaws.EvaluatesExactly` | engine-core/src/domain/data.rs:73-88 | a phase succeeds if and only if its targets are distinct and not blank and every variable named is there |
| `DataLaws.OutcomeIsApplied` | engine-core/src/domain/data.rs:73-88 | applying a phase sets every target to what its mapping is worth in the snapshot, and no other variable |
| `MappingParser.ReadValue` | bpmn-parser/src/data.rs:145-197 | reads nested lists, maps and expressions, computing Value |
| `MappingParser.ReadItems` | bpmn-parser/src/data.rs:147-162 | reads the children of a list in order and fails where one of them does |
| `MappingParser.ReadList` | bpmn-parser/src/data.rs:147-162 | reads a list |
| `MappingParser.ReadEntries` | bpmn-parser/src/data.rs:163-180 | reads the children of a map and refuses missing and duplicate keys |
| `MappingParser.ReadMap` | bpmn-parser/src/data.rs:163-180 | reads a map |
| `MappingParser.ReadUndoesWrite` | bpmn-parser/src/data.rs:145-197 | reading undoes writing for every writable value, at any depth and in any order of map entries |
| `MappingParser.ReadUndoesWrap` | bpmn-parser/src/data.rs:181-196 | the same for values inside parameters and entries |
| `MappingGrammar.ReadExactly` | bpmn-parser/src/data.rs:114-197 | a node is read as a value if and only if it describes it: lists of values, lists and maps, maps of entries with distinct keys, a variable in an expression, or text without one |
| `ActivityParser.AddTo` | bpmn-parser/src/data.rs:199-212 | adds one mapping to one list, if and only if its target is new and not blank |
| `ActivityParser.ReadTables` | bpmn-parser/src/data.rs:260-302 | collects the declared properties, inputs and outputs |
| `ActivityParser.ReadAssociations` | bpmn-parser/src/data.rs:304-343 | turns associations into mappings |
| `ActivityParser.ReadParameters` | bpmn-parser/src/data.rs:347-362 | turns input and output parameters into mappings |
| `ActivityParser.ReadExtensions` | bpmn-parser/src/data.rs:344-407 | reads all extensions of a group |
| `ActivityParser.ReadActivity` | bpmn-parser/src/data.rs:256-415 | computes the mappings of an activity; all four lists have proper targets |
| `ActivityParser.ParsedListsAreProper` | bpmn-parser/src/data.rs:256-415 | every list the parser builds has non-blank, distinct targets |
| `ActivityParser.OnlyMissingVariablesFail` | bpmn-parser/src/data.rs:256-415 | so at run time only a missing variable can make a phase of a parsed activity fail |
| `ActivityParser.AssociationIsMapped` | bpmn-parser/src/data.rs:304-343 | every association ends up as a mapping in the list of its direction |
| `ActivityGrammar.TablesExactly` | bpmn-parser/src/data.rs:260-302 | the tables of an activity are read if and only if every declaration is allowed and has an identifier of its own, and they hold exactly the declared names in their direction |
| `ActivityGrammar.ParsedIsMapped` | bpmn-parser/src/data.rs:256-415 | what is parsed was mapped by the elements of the activity: each association, parameter and call element adds its target and value to the list of its direction, in document order |
| `ActivityGrammar.MappedIsParsed` | bpmn-parser/src/data.rs:256-415 | what the elements declare and map in that way, with distinct targets that are not blank, is parsed |
| `Tokens.Token.ProcessVariables` | engine-core/src/domain/token.rs:20-32 | the variables visible outside the activity |
| `Tokens.Token.Restore` | engine-core/src/domain/token.rs:20-32 | puts back local names with their outside value, or removes them |
| `Tokens.Token.DiscardDataScope` | engine-core/src/domain/token.rs:34-39 | takes the scope and puts back the entry variables |
| `DataScopes.Enter` | engine-core/src/engine/data_mappings.rs:8-33 | activates a node as specified, after giving up the scope of another node |
| `DataScopes.Leave` | engine-core/src/engine/data_mappings.rs:36-58 | leaves a node as specified; a failure changes nothing |
| `DataScopes.ApplyCallTransfer` | engine-core/src/engine/data_mappings.rs:122-127 | adds transferred variables inside and outside |
| `DataScopes.PublishMultiInstanceOutputs` | engine-core/src/engine/data_mappings.rs:87-120 | publishes outputs, or worker variables that are no inputs, on the shared token |
| `DataScopes.InsertAll` | engine-core/src/engine/data_mappings.rs:94-107 | inserts all entries but hidden names |
| `DataScopes.ProcessVariablesAreOuter` | engine-core/src/domain/token.rs:20-32 | in every represented state the process variables are the outer layer |
| `DataScopes.StepRefines` | engine-core/src/engine/data_mappings.rs:8-127 | every operation on a token refines the one on the two-layer environment |
| `DataScopes.RunRefines` | engine-core/src/engine/data_mappings.rs:8-127 | so does every run of enters, writes, transfers, leaves and discards |
| `DataScopes.EveryRunRefines` | engine-core/src/engine/data_mappings.rs:8-127 | from every token outside an activity |
| `DataScopes.ReentryChangesNothing` | engine-core/src/engine/data_mappings.rs:16-18 | entering a node a second time changes nothing, for every token and every node |
| `DataScopes.FailureAppliesNothing` | engine-core/src/engine/data_mappings.rs:8-58 | a failing enter or leave applies no mapping |
| `DataScopes.InsideScope` | engine-core/src/engine/data_mappings.rs:36-58 | while an activity runs, the token keeps entry variables and outer layer apart |
| `DataScopes.ExitIsolates` | engine-core/src/engine/data_mappings.rs:36-58 | enter, any writes and transfers, leave: the entry variables, transfers and outputs remain, or without outputs the writes to other names as well |
| `DataScopes.InputsStayLocal` | engine-core/src/engine/data_mappings.rs:87-120 | without outputs no sequence of completions changes an input target on the shared token |
| `DataLaws.EnterIsExact` | engine-core/src/engine/data_mappings.rs:8-33 | what entering does to every variable and to the scope: the inputs are applied to the variables outside, whose values and input names it keeps |
| `DataLaws.OuterIsExact` | engine-core/src/domain/token.rs:20-32 | outside, local names are as they were and all others as they are |
| `DataLaws.LeaveIsExact` | engine-core/src/engine/data_mappings.rs:36-58 | what leaving does to every variable: the outputs are applied to the variables entered with, or nothing to the ones visible outside |
| `DataLaws.TransferIsExact` | engine-core/src/engine/data_mappings.rs:122-127 | a transfer sets its variables inside and among those entered with |
| `DataLaws.PublishIsExact` | engine-core/src/engine/data_mappings.rs:87-120 | a completion publishes all of the worker without mappings, all but input targets without outputs, and otherwise just the outputs, evaluated in the snapshot overlaid by the worker |
| `ConditionalEvents.Engine.ClearWaitStates` | engine-core/src/engine/mod.rs:436-553 | gives up every conditional catch of a token, in memory and in storage |
| `ConditionalEvents.Engine.CancelBoundaryWaits` | engine-core/src/engine/mod.rs:345-434 | gives up every conditional catch at the boundary of an activity, in memory and in storage |
| `ConditionalEvents.Engine.TakeToken` | engine-core/src/engine/conditional_events.rs:71-107 | takes the token of a one-shot catch out of the instance, moved to the node behind the catch with the variables of the instance, or fails and changes nothing |
| `ConditionalEvents.Engine.Spawn` | engine-core/src/engine/conditional_events.rs:155-211 | adds the token so moved beside the waiting one, under a fresh identifier, and keeps the catch registered as true; or fails and changes nothing |
| `ConditionalEvents.Engine.VisitCatch` | engine-core/src/engine/conditional_events.rs:50-222 | evaluates one catch: resets, ignores, fires by kind, or drops it |
| `ConditionalEvents.Engine.FireConditionalCatches` | engine-core/src/engine/conditional_events.rs:17-225 | a pass visits every pending catch once, in some order, against the kinds, variables and next nodes given, each condition true just if it holds in these variables; a suspended pass changes nothing |
| `ConditionalRuns.PassLeaves` | engine-core/src/engine/conditional_events.rs:50-222 | a pass without clashes succeeds in every order and leaves the same catches in memory and in storage whatever the order: those nothing removes, with the result just seen; and of the old tokens those nothing takes |
| `ConditionalRuns.CatchAfterPass` | engine-core/src/engine/conditional_events.rs:50-222 | a catch stays if and only if it is neither done nor interrupted, and then remembers the result just seen; its token stays unless a one-shot catch takes it |
| `ConditionalRuns.RemovedByInterruption` | engine-core/src/engine/conditional_events.rs:109-153 | a pass removes a non-interrupting catch if and only if an interrupting catch of its token becomes true in it |
| `ConditionalRuns.PassKeepsTokensExactly` | engine-core/src/engine/conditional_events.rs:67-153 | after a pass every catch still has its token if and only if no intermediate catch becomes true while another catch of its token is registered, a misplaced one that becomes true aside |
| `ConditionalRuns.PassIsSound` | engine-core/src/engine/conditional_events.rs:50-222 | the invariant that every catch has its token and intermediate catches are alone is kept by every pass, which cannot fail |
| `ConditionalRuns.OneShotFiresExactly` | engine-core/src/engine/conditional_events.rs:67-153 | a one-shot catch that becomes true fires exactly once in every order if and only if no other one-shot catch of its token becomes true in the pass |
| `ConditionalRuns.PassFailsExactly` | engine-core/src/engine/conditional_events.rs:67-222 | if every catch has its token, some order of a pass fails if and only if an intermediate catch and another of the same token become true together |
| `ConditionalRuns.FailureLosesCatch` | engine-core/src/engine/conditional_events.rs:67-222 | a catch that becomes true without a way on or without its token fails: it is lost in memory and stays in storage, an interrupting one has given up the other catches of its token, and no token moves |
| `ConditionalTokens.PassIsBalanced` | engine-core/src/engine/conditional_events.rs:50-222 | a pass takes each one-shot token out once, adds one fresh token per spawn, and touches no other token |
| `ConditionalTokens.FiredTokensGoOn` | engine-core/src/engine/conditional_events.rs:67-211 | each token a pass takes out or adds is the waiting one, moved to the node behind the catch, with the variables of the instance and the same merge mark and data scope; added ones are in the instance |
| `ConditionalTokens.OneInterruptionPerToken` | engine-core/src/engine/conditional_events.rs:109-153 | at most one catch takes a token out in a pass |
| `ConditionalTokens.InterruptionIsExact` | engine-core/src/engine/conditional_events.rs:67-153 | a token is taken out in a pass, by exactly one of its one-shot catches, if and only if one of them becomes true |
| `ConditionalRuns.PassHasEffect` | engine-core/src/engine/conditional_events.rs:50-222 | in any order a catch fires at most once, and does so if and only if it becomes true and no interrupting catch of its token became true before its turn |
| `ConditionalHistory.EventIsSound` | engine-core/src/engine/conditional_events.rs:17-225 | passes, suspended passes, restarts, registrations, and tokens that other events resume or that complete their activity keep the invariant; a restart changes nothing |
| `ConditionalHistory.RunIsSound` | engine-core/src/engine/conditional_events.rs:17-225 | so does every run |
| `ConditionalHistory.RegisterIsSound` | engine-core/src/engine/boundary.rs:105-114 | a new catch starts from false and keeps the invariant |
| `ConditionalHistory.LifeOfCatch` | engine-core/src/engine/conditional_events.rs:17-225 | over every run a catch is there up to some event, with the last result it saw, and if it is gone in the end, that event is the pass that removes it or gives it up |
| `ConditionalHistory.SpawnsPerEdge` | engine-core/src/engine/conditional_events.rs:17-225 | over every run a non-interrupting catch spawns exactly one token per false-to-true transition until it is given up; if an interrupting catch ends its life, one more in that pass if and only if its turn comes first and it becomes true |
| `ConditionalHistory.IntermediateFiresOnce` | engine-core/src/engine/conditional_events.rs:67-107 | an intermediate catch fires exactly once, in the first pass that finds it true, unless it is given up before, and never again |
| `ConditionalHistory.OneShotOverRun` | engine-core/src/engine/conditional_events.rs:67-153 | over every run a one-shot catch fires at most once, never while its condition stays false or after it is given up, and for certain in its first true pass if it has no rival there |
| `ConditionalHistory.OneShotFiresInFirstTruePass` | engine-core/src/engine/conditional_events.rs:67-153 | after any run that left it waiting, a one-shot catch fires exactly once in the next pass that finds it true, in every order, if and only if no other one-shot catch of its token becomes true there |
| `ConditionalExample.PassFails` | engine-core/src/engine/conditional_events.rs:67-107 | two catches of one token that become true together, and an order in which the pass fails |
| `ConditionalExample.PassStrands` | engine-core/src/engine/conditional_events.rs:67-107 | the same catches when only the intermediate one becomes true: the pass succeeds and the other is left without a token |
| `Tombstones.StepIsSound` | persistence-nats/src/trait_impl.rs:165-209 | every step of every client keeps tombstones without duplicates, among the definitions, and entries only get later versions |
| `Tombstones.RunIsSound` | persistence-nats/src/trait_impl.rs:114-209 | in every interleaving tombstones only accumulate, and definitions and XML never change |
| `Tombstones.DeletedForever` | persistence-nats/src/trait_impl.rs:165-209 | once a delete was confirmed its tombstone is there forever |
| `Tombstones.RefusalMeansProgress` | persistence-nats/src/trait_impl.rs:187-203 | a refused update means that another client's update was stored since the read |
| `Tombstones.RefusalsAreBounded` | persistence-nats/src/trait_impl.rs:165-209 | a delete is refused at most as often as the collection has definitions |
| `Tombstones.OnlyRequestedAreDeleted` | persistence-nats/src/trait_impl.rs:165-209 | in every interleaving what has a tombstone was asked to be deleted from that collection |
| `Tombstones.AloneDeletes` | persistence-nats/src/trait_impl.rs:165-209 | a delete nobody interferes with appends its tombstone and changes nothing else, or nothing at all if it is there |
| `Tombstones.LoadXml` | persistence-nats/src/trait_impl.rs:475-483 | returns the XML of a listed collection that has the definition alive, or nothing if none has |
| `Tombstones.DeletedIsNotOffered` | persistence-nats/src/trait_impl.rs:132-162 | after a confirmed delete no listing offers the definition again, each of its entries read at a moment of its own while others go on |
| `Gateway.Choose` | engine-core/src/engine/gateway.rs:37-84 | the first flow whose condition holds, else the first free flow, else the default, as an exact choice by position |
| `Gateway.ChoiceIsExclusive` | engine-core/src/engine/gateway.rs:37-84 | the choice, by position: of the flows whose condition holds the first, else of those without condition that do not lead to the default the first, else the default |
| `Gateway.SelectTargets` | engine-core/src/engine/gateway.rs:156-174 | the targets of all flows a complex gateway takes, in order |
| `Gateway.SelectOpen` | engine-core/src/engine/gateway.rs:107-120 | the targets of all flows an inclusive gateway takes: without a condition, or with one that holds |
| `Gateway.OpenTargets` | engine-core/src/engine/gateway.rs:107-174 | the inclusive selection is the complex selection without a default, for every list of flows |
| `Gateway.Fork` | engine-core/src/engine/gateway.rs:127-131 | one unmerged token per target with the same variables |
| `Gateway.ExecuteParallel` | engine-core/src/engine/gateway.rs:6-35 | waits at a join, otherwise moves or forks to all targets |
| `Gateway.ExecuteInclusive` | engine-core/src/engine/gateway.rs:86-134 | waits at a join, otherwise moves or forks to the targets taken, or fails |
| `Gateway.ExecuteComplex` | engine-core/src/engine/gateway.rs:136-196 | like inclusive, with the default as fallback |
| `Gateway.ExecuteExclusive` | engine-core/src/engine/gateway.rs:37-84 | moves to the exact choice, or fails without one; never waits, and keeps variables, merge mark and data scope |
| `Gateway.ParallelIsExact` | engine-core/src/engine/gateway.rs:6-35 | a token waits if two flows come in and it is not merged, else one goes on along every flow, in order |
| `Gateway.InclusiveIsExact` | engine-core/src/engine/gateway.rs:86-134 | else one goes on along every flow without a condition or with one that holds, in order; if there is none it fails |
| `Gateway.ComplexIsExact` | engine-core/src/engine/gateway.rs:136-196 | else one goes on along every flow whose condition holds or that has none and does not lead to the default, in order; if there is none, to the default, or it fails |
| `Gateway.ExclusiveIsAmongComplex` | engine-core/src/engine/gateway.rs:37-196 | the exclusive choice is one of the complex targets, and both fail on the same inputs |
| `Gateway.ComplexWithoutFallbackIsInclusive` | engine-core/src/engine/gateway.rs:86-196 | complex without default equals inclusive |
| `Gateway.InclusiveIsParallel` | engine-core/src/engine/gateway.rs:6-134 | without conditions inclusive equals parallel if and only if some flow leads out or the token waits |
| `Gateway.SplitIgnoresOrder` | engine-core/src/engine/gateway.rs:86-196 | which targets a split takes does not depend on the order of the flows |
| `Gateway.SplitTokensWaitAgain` | engine-core/src/engine/gateway.rs:6-196 | every token a split emits has the same variables and waits at the next join, whatever its kind |
| `LogBuffer.LoadEntries` | engine-server/src/log_buffer.rs:264-286 | loads the last 5000 parseable lines before the first that cannot be decoded |
| `LogBuffer.Buffer.constructor` | engine-server/src/log_buffer.rs:118-131 | a buffer starts with what its file restores |
| `LogBuffer.Buffer.Push` | engine-server/src/log_buffer.rs:208-256 | rolls the entry into memory, appends it, behind an unterminated line if there is one, and compacts after 500 writes |
| `LogBuffer.Buffer.CompactFile` | engine-server/src/log_buffer.rs:299-311 | the file holds just what is in memory |
| `LogBuffer.Buffer.Populate` | engine-server/src/log_buffer.rs:168-177 | replaces memory by the last 5000 of the given entries |
| `LogBuffer.StartIsExact` | engine-server/src/log_buffer.rs:264-286 | a process starts with the last 5000 of the entries on the lines of its file, in order, up to the first line that cannot be decoded |
| `LogBuffer.ExtendedRestores` | engine-server/src/log_buffer.rs:264-296 | exactly what any file restores after any number of appends: all of it if it was clean, nothing new behind an undecodable line, and otherwise all but the first entry and the line it continues |
| `LogBuffer.TornRestores` | engine-server/src/log_buffer.rs:289-296 | what a write that broke off costs a clean file, by what it left |
| `LogBuffer.FileRestoresExactly` | engine-server/src/log_buffer.rs:208-311 | at every point of every run from every file, through restarts, crashes and writes that broke off: what is in memory, and what the file restores before and after a compaction |
| `LogBuffer.FileRestoresBuffer` | engine-server/src/log_buffer.rs:208-311 | from a clean file, at every point of every run in which no write broke off, memory is the last 5000 of all entries loaded or pushed and equals what the file restores |
| `LogBuffer.CompactionHeals` | engine-server/src/log_buffer.rs:299-311 | the same holds from every compaction on, whatever the file was |
| `LogBuffer.RestorableExactly` | engine-server/src/log_buffer.rs:264-296 | a file restores what is in memory at every point of all such runs if and only if every line of it can be decoded and its last one ends or is blank |
| `LogBuffer.UndecodableLineLosesPush` | engine-server/src/log_buffer.rs:273-276 | a file with an undecodable line, and a push that a restart loses |
| `LogBuffer.OpenLineLosesTwo` | engine-server/src/log_buffer.rs:289-296 | a file with an unterminated entry, and a push that makes a restart lose both |
| `LogBuffer.FileLength` | engine-server/src/log_buffer.rs:208-256 | over every run the file has exactly the lines that were in memory at its last compaction, or its initial ones, plus the lines begun since, counted over restarts and broken-off writes |
| `LogBuffer.FileLengthIsBounded` | engine-server/src/log_buffer.rs:208-256 | the file stays within 500 lines of its initial length or 5000, plus 500 per restart |
| `LogBuffer.RestartsDefeatCompaction` | engine-server/src/log_buffer.rs:118-131 | restarting after every push adds a line per push to every file that ends with a line break, without bound |

## Left out

- ConditionLexer.TokenAt: letters in identifiers are the ASCII ones, because there is no table of Unicode letters here; the source accepts all of them.
- ConditionLexer.Tokenize: the same restriction to ASCII letters.
- ConditionText.ParseConditionText: the same restriction to ASCII letters.
- ConditionEval.OnlyZeroDivides: exact reals, so laws that depend on rounding (that subtraction undoes addition, that multiplication undoes division) are not claimed; they fail for floating-point numbers.
- Flatten.Compile: does not reject condition texts that do not parse, because a flow carries its condition already parsed.
- Deployment.CompileEventSubProcess: does not reject condition texts that do not parse or listeners on the handler, which are not part of the model.
- Deployment.CompileProcess: does not fail on condition texts or data declarations, which are not part of the model.
- Token routing outside gateways, join barriers, timers, locking of service tasks and the instance record: only the fields and contracts that the modelled code uses are here.
- Instance state, current node, audit log and history records of a conditional pass: written, never read by it.
- Overlapping passes over conditional catches: passes of one instance are sequential here, and persistence calls succeed.
- The order in which a pass visits catches, and the order of every hash map: any order, chosen by the proofs.
- IEEE rounding: numbers are exact reals, with the same epsilon in equality.
- Unicode letters in element references; white space is the full Unicode set.
- Error messages, error positions and line numbers: a failure is only a failure, and a violation its kind and identifiers.
- XML text: documents are trees and event streams. Tag names are the ones the scan tells apart, and its attribute flags are already decided.
- Identifiers of nodes, scopes, catches, clients and links: numbers, compared and never looked into; a blank text is zero. Random identifiers are unused numbers.
- The kinds of tasks and events beyond what validation and routing distinguish, execution listeners, default flows of gateways inside sub-processes, call activities and multi-instance attributes: long but easy cases of the compiler.
- Whether multi-instance parameters parse, which the builder checks as well.
- Join counts: an erased start no longer counts as an incoming flow of its target, so flattening is stated on paths.
- Which event definition an event sub-process start has: its trigger is an input, missing where the source rejects it.
- Definitions stored outside collections, the other stores, and the broker: a step either happens or its answer is lost; revisions are checked by the store.
- The text of log lines: a line is an entry, blank, something else, or not UTF-8. That an entry behind other text on its line does not parse, and that an entry written parses back, are taken from the format.
- Writers of one log file at the same time, failing writes, and the message-broker sink of the log buffer.
- Process selection, collaboration metadata, scope-wide data declarations and defaults.
- HTTP server, user interfaces, clients and observability.
