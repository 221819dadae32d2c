# aissembly in Dafny

aissembly is a small accumulator-loop language for scripting calls to language models. It has two independent front ends, and this project models the core of both in Dafny and proves properties of the model.

**`aissembly_core`**
- `ASTBuilder` reduces grammar matches to a closed AST. Every operator becomes an `op.*` call.
- `parse_program` feeds the source to the parser line by line. It tells an incomplete buffer apart from a real syntax error.
- `LazyStr` is a memoising string thunk.
- `Executor` is a tree-walking interpreter with builtins and model definitions (the "oracle").
- The unparser prints the AST back in block form.
- The call-site scanner finds `NAME(...)` calls with balanced parentheses outside quoted literals.
- Two prompt-rewrite passes walk every statement for `prompt` keyword arguments and consult the oracle.

**`aissembly_dsl`**
- an indentation-stack tokenizer;
- a recursive-descent, precedence-climbing parser over a token cursor;
- a desugaring pass into calls of the core IR combinators (`cond`, `loop.for`, `loop.while`, `op.*`, `ctrl.*`);
- the combinators themselves;
- an evaluator with mutable `Box` cells and closures.

There is one Dafny module per source file:

| module | file | source |
|---|---|---|
| `Basics` | basics.dfy | shared `Option` and `Result` |
| `PyStr` | py_str.dfy | the Python `str` behaviour both front ends rely on |
| `CoreAst` | core_ast.dfy | the node types of `aissembly_core/parser.py` |
| `CoreBuilder` | core_builder.dfy | `ASTBuilder` |
| `IncrementalParse` | core_incremental.dfy | `_parse_once` and `parse_program` |
| `LazyText` | lazy_str.dfy | `LazyStr` |
| `CoreExec` | core_executor.dfy | `aissembly_core/executor.py` |
| `Unparser` | unparser.dfy | `aissembly_core/unparser.py` |
| `FindFunctions` | find_functions.dfy | `aissembly_core/util/find_functions.py` |
| `AccuracyPass` | accuracy_pass.dfy | `aissembly_core/optimizations/accuracy_opt_passes.py` |
| `DecompositionPass` | decomposition_pass.dfy | `aissembly_core/optimizations/decomposition_opt_passes.py` |
| `DslAst` | dsl_ast.dfy | `aissembly_dsl/ast_nodes.py` and the exceptions |
| `DslTokenizer` | dsl_tokenizer.dfy | `aissembly_dsl/tokenizer.py` |
| `DslParser` | dsl_parser.dfy | `aissembly_dsl/parser.py` |
| `DslDesugar` | dsl_desugar.dfy | `aissembly_dsl/desugar.py` |
| `CoreIr` | core_ir.dfy | `aissembly_dsl/core_ir.py` |
| `DslEvaluator` | dsl_evaluator.dfy | `aissembly_dsl/evaluator.py` |

**How the model follows the source**
- Pure code (the builder reductions, `desugar`, the walks, the unparser's rendering) becomes functions.
- Code that updates state step by step becomes methods with loops. Each such method is proved equal to a specification function, and the properties are proved about that function. Examples:
  - the `_parse_once` buffer loop;
  - `Executor.run` and the loop evaluators;
  - the scanner's result loop;
  - the passes' loops;
  - the tokenizer's loops;
  - every `Parser` method, which advances a `pos` field;
  - `loop_for` and `loop_while`;
  - `resolve`;
  - the evaluator's top-level statements.
- A few long source functions are split into two methods, the second taking over one of the first's loops or branches: the statement loop of `parse_block` (`ParseBlockItems`), the `if` branch of `parse_atom` (`ParseInlineIf`) and the closing DEDENT loop of `tokenize` (`CloseLevels`). The order of effects on `pos` and on the token list is unchanged.
- Objects whose fields the source updates are classes: `LazyStr`, `Executor`'s environment, the DSL `Parser`, and the DSL interpreter's environment and box store.
- Python exceptions are the error side of a `Result`, or of an `Outcome` when the combinators need `LoopBreak`/`LoopContinue` signals.
- `Executor.call_llm` returns its placeholder dict, as the code does. Model calls with a real model behind them are an uninterpreted function parameter, the oracle, returning the reply string.
- The two prompt-rewrite passes are modelled twice. The pass as written receives the placeholder dict and raises at the first prompt it finds (see "## Findings"). The evidently intended pass receives the oracle's reply string, and the other properties of the passes are proved about that version.

**Where the code and its tests disagree, the model follows the code.**
- `BUILTINS` in `aissembly_core/executor.py` is keyed by `add`, `ne`, … while the core parser emits `op.add`, `op.neq`, …. The model therefore dispatches `op.add` to the model definitions, or fails with `ValueError("Unknown function")`, as the code does.
- With Lark's default `maybe_placeholders`, `f()` hands `None` to the `call` reduction, and iterating it raises `TypeError`. Lark's `transform` wraps an exception raised inside a reduction in a `VisitError` naming the rule, so `parse_program` ends with `VisitError` around that `TypeError`. `[]` becomes a list holding one `None`. The model keeps both behaviours.

## Model

| member | source | states |
|---|---|---|
| CoreAst.LookupKw | aissembly_core/parser.py:50-54 | a keyword is found exactly when some entry of the insertion-ordered kwargs has that key, and the value found is that entry's |
| CoreAst.PutKw | aissembly_core/parser.py:289 | `kwargs[k] = v`: afterwards `k` maps to `v`, every other key maps to what it did, keys stay distinct, and the length grows only for a new key |
| CoreBuilder.BuildComparison | aissembly_core/parser.py:336-340 | a lone operand passes through unchanged; `a OP b` becomes the `op.<name>` call on `[a, b]` |
| CoreBuilder.InfixCallShape | aissembly_core/parser.py:312-366 | every infix operator becomes a call with exactly the two operands and no keyword arguments, and two operators give the same call name exactly when they are the same operator |
| CoreBuilder.BuildNumber | aissembly_core/parser.py:246-250 | every optionally signed digit string, with a leading `+` or leading zeros too, reduces to the `Number` of its value, and a successful reduction is always such a token; a token with `.`, `e` or `E` is a float |
| CoreBuilder.SignedSpellings | aissembly_core/parser.py:246-250 | `+5` gives 5, `007` gives 7 and `-40` gives -40 |
| CoreBuilder.BuildNumberOfIntToString | aissembly_core/parser.py:246-250 | the decimal spelling of any integer reduces back to that integer |
| CoreBuilder.BuildString | aissembly_core/parser.py:252-254 | the result is a `String` two characters shorter than the token, and empty for a token shorter than two; its content is stated by `CoreBuilder.BuildStringOfQuoted` |
| CoreBuilder.BuildStringOfQuoted | aissembly_core/parser.py:252-254 | a double-quoted token reduces to exactly the text between the quotes |
| CoreBuilder.BuildList | aissembly_core/parser.py:262-263 | `[]` hands over the grammar's placeholder and gives `ListLiteral([None])`; otherwise the elements in order |
| CoreBuilder.BuildDict | aissembly_core/parser.py:265-268 | `{}` drops the placeholder and gives no pairs; otherwise the pairs in order |
| CoreBuilder.BuildFor | aissembly_core/parser.py:378-389 | five children map in order to start, end, step, init and body; four leave the step out and it becomes `Number(1)` |
| CoreBuilder.SplitArguments | aissembly_core/parser.py:282-292 | the keyword list `call` builds never holds a key twice |
| CoreBuilder.SplitArgumentsPositional | aissembly_core/parser.py:286-291 | the positional arguments are exactly the unnamed ones, in source order, whatever keywords sit between them |
| CoreBuilder.SplitArgumentsLastWins | aissembly_core/parser.py:288-289 | a repeated keyword keeps the value of its last occurrence |
| CoreBuilder.SplitArgumentsKeys | aissembly_core/parser.py:288-289 | a key is present exactly when some argument was passed under that name |
| CoreBuilder.BuildCall | aissembly_core/parser.py:282-292 | with an argument list, the call holds its positionals and its keyword dict; with none (`f()`, which hands over `None`) iterating it raises `TypeError` inside the reduction |
| CoreBuilder.TransformCall | aissembly_core/parser.py:452 | the reduction seen from `builder.transform`: the `TypeError` of `f()` arrives wrapped in `VisitError` for the rule `call`, and an argument list gives the same call as the reduction; see also aissembly_core/parser.py:282-292 |
| CoreBuilder.BuildSlice | aissembly_core/parser.py:307-310 | the first present bound is the start and the second the end, `None` for any that is absent |
| CoreBuilder.BuildAtom | aissembly_core/parser.py:294-302 | the loop folds the trailers left to right onto the primary: an index gives `op.get(node, i)`, a slice `op.slice(node, start, end)` |
| CoreBuilder.SliceBoundsShift | aissembly_core/parser.py:300-310 | `x[:e]` puts `e` in the start position of `op.slice`, because the slice keeps no record of which bound was written |
| IncrementalParse.NonBlank | aissembly_core/parser.py:438 | the kept lines are exactly the lines whose stripped text is not empty |
| IncrementalParse.ParseOnce | aissembly_core/parser.py:433-467 | the buffering loop returns what the specification `ParseOnceSpec` (feed every kept line, then parse a non-blank leftover once more) gives |
| IncrementalParse.ParseProgram | aissembly_core/parser.py:469-473 | running the parse `max(reparse_iterations, 1)` times returns the result of one parse |
| IncrementalParse.FeedLineByLine | aissembly_core/parser.py:440-457 | when every line parses on its own, the statements are those of the lines in order and the buffer ends empty |
| IncrementalParse.LineByLineProgram | aissembly_core/parser.py:433-467 | the program of a source whose lines each parse alone is the concatenation of their statements |
| IncrementalParse.FeedAppend | aissembly_core/parser.py:440-457 | feeding a list of lines is feeding a prefix and then the rest from the state the prefix left, unless the prefix already failed |
| IncrementalParse.LineFails | aissembly_core/parser.py:446-450 | whichever line it reaches, an error other than "incomplete" propagates and is the outcome of the whole parse |
| IncrementalParse.FirstLineFails | aissembly_core/parser.py:446-450 | the same for the first line: its error is the outcome of the whole parse |
| IncrementalParse.FeedIncomplete | aissembly_core/parser.py:441-449 | while every parse reports "incomplete", the buffer accumulates each line followed by a newline and no statement is added |
| IncrementalParse.NeverCompleteIsError | aissembly_core/parser.py:459-461 | a non-blank source that never parses completely ends in the error of the final parse, not in an empty program |
| LazyText.LazyStr.constructor | aissembly_core/parser.py:98-101 | a new `LazyStr` is unforced, has run its thunk zero times, keeps the thunk and reaches no other `LazyStr` |
| LazyText.LazyStr.Sum | aissembly_core/parser.py:115-118 | the `LazyStr` that `+` returns is unforced, its thunk is the concatenation of the two operands, its text is theirs in order, and it reaches exactly the `LazyStr`s of the operands |
| LazyText.LazyStr.Force | aissembly_core/parser.py:103-110 | `force` returns the thunk's text and runs the thunk on the first call only; a forced object is left as it is; forcing a sum forces its `LazyStr` operands through their own `force`, and every object forced before keeps its cached value |
| LazyText.LazyStr.Add | aissembly_core/parser.py:115-116 | `self + s` is a new, unforced `LazyStr` whose thunk is `str(self) + s`: its text is this one's followed by `s`, and forcing it goes through this object's cache |
| LazyText.LazyStr.RAdd | aissembly_core/parser.py:117-118 | `s + self` is a new, unforced `LazyStr` whose thunk is `s + str(self)`: its text is `s` followed by this one's |
| LazyText.LazyStr.AddLazy | aissembly_core/parser.py:115-116 | the sum of two `LazyStr`s is a new, unforced `LazyStr` whose thunk forces both operands, its text both texts in order |
| LazyText.ForceTwice | aissembly_core/parser.py:103-107 | forcing twice gives the same string both times and runs the thunk exactly once |
| LazyText.SumForcesOperand | aissembly_core/parser.py:109-116 | forcing `l + s` forces and caches `l`: forcing `l` afterwards gives its text, and its thunk has run exactly once |
| CoreExec.FloorMod | aissembly_core/executor.py:27 | Python's `%` on ints: the remainder lies between zero and the divisor, on the divisor's side |
| CoreExec.FloorDivMod | aissembly_core/executor.py:27 | Python's identity `a == (a // b) * b + a % b` holds for the modelled `%` |
| CoreExec.Repeat | aissembly_core/executor.py:25 | `s * n` has `n` copies' length, none when `n <= 0` |
| CoreExec.Fill | aissembly_core/executor.py:76 | keyword-only parameters take their values from the keywords by name; a missing one raises `TypeError` exactly when some parameter has no keyword |
| CoreExec.Bind | aissembly_core/executor.py:76 | `BUILTINS[name](*args, **kwargs)`: positionals fill the first parameters in order, keywords fill the rest by name, every keyword names a parameter not already filled, and anything else raises `TypeError` |
| CoreExec.Dispatch | aissembly_core/executor.py:75-79 | the exact name is looked up in `BUILTINS` first, then in `llm_defs` (which gives the placeholder reply), otherwise `ValueError("Unknown function: name")` |
| CoreExec.RangeSeq | aissembly_core/executor.py:86 | `range(start, end, step)` for a non-zero step: the `k`-th item is `start + k*step`, every item is before `end` in the step's direction, and the next one would not be |
| CoreExec.EvalArgs | aissembly_core/executor.py:73 | the positional arguments give one value each |
| CoreExec.EvalKwargs | aissembly_core/executor.py:74 | the keyword arguments give one value each, under the same keys in the same order |
| CoreExec.Env.constructor | aissembly_core/executor.py:45 | a fresh env dict is empty |
| CoreExec.Executor.constructor | aissembly_core/executor.py:41-42 | `llm_defs or {}`: a missing definition table becomes the empty one |
| CoreExec.Executor.Run | aissembly_core/executor.py:44-51 | the statement loop leaves the env that `RunSpec` gives; a missing or empty env is replaced by a fresh dict (a caller's empty dict is never written), a non-empty one is updated in place and returned |
| CoreExec.Executor.EvalExpr | aissembly_core/executor.py:53-70 | `eval_expr` returns what the specification `Eval` gives |
| CoreExec.Executor.EvalCall | aissembly_core/executor.py:72-79 | `eval_call` evaluates every argument and then dispatches, as `Eval` does |
| CoreExec.Executor.EvalArgList | aissembly_core/executor.py:73 | the positional-argument loop agrees with `EvalArgs` |
| CoreExec.Executor.EvalKwargList | aissembly_core/executor.py:74 | the keyword-argument loop agrees with `EvalKwargs` |
| CoreExec.Executor.EvalFor | aissembly_core/executor.py:81-90 | the for loop, reassigning `acc` over the range in a copy of the env, agrees with `Eval` |
| CoreExec.Executor.EvalWhile | aissembly_core/executor.py:92-101 | the while loop, testing in a copy of the env holding the current `acc`, agrees with `Eval` |
| CoreExec.OpPrefixNotBuiltin | aissembly_core/executor.py:22-37 | no name starting with `op.` is a key of `BUILTINS` |
| CoreExec.OpCallIsUnknown | aissembly_core/executor.py:72-79 | a call named `op.*`, as the parser builds for every operator, raises `ValueError("Unknown function")` unless `llm_defs` has that exact name |
| CoreExec.ParsedAdditionIsUnknown | aissembly_core/executor.py:75-79 | `7 + 6` as the parser builds it does not evaluate |
| CoreExec.CondEvaluatesOneBranch | aissembly_core/executor.py:66-69 | `Cond` evaluates its test and then only the branch the test's truthiness picks; the other branch can be anything, even raising |
| CoreExec.LandEvaluatesBoth | aissembly_core/executor.py:73 | `land` is a call, not a short circuit: with a false first operand a raising second operand still makes it raise; see also aissembly_core/executor.py:34 |
| CoreExec.LandLorValues | aissembly_core/executor.py:34-35 | with both operands evaluated, `land` and `lor` return the operand Python's `and`/`or` would |
| CoreExec.BindByKeyword | aissembly_core/executor.py:76 | keywords bind builtin parameters by name in any order, after the positional ones |
| CoreExec.BindRejects | aissembly_core/executor.py:76 | a parameter given twice, too many positionals or a missing parameter raise `TypeError` |
| CoreExec.ForIterFoldsRange | aissembly_core/executor.py:86-90 | the iterations from `i` on fold the body over the rest of the range |
| CoreExec.ForLoopFoldsRange | aissembly_core/executor.py:81-90 | a for loop evaluates start, end, step and init once and folds its body over `range(start, end, step)` from `init`, each iteration in the outer env plus `i` and `acc`; an empty range gives `init` and a zero step raises `ValueError` |
| CoreExec.FoldAddAccISums | aissembly_core/executor.py:86-90 | any loop body that adds the loop variable `i` onto `acc` (such as `add(acc, i)`) folds the range into `init` plus its sum |
| CoreExec.ForLoopLiterals | aissembly_core/executor.py:81-90 | a for loop over integer literals folds its body over the literal range |
| CoreExec.ForSumExample | aissembly_core/executor.py:81-90 | `for(range(1, 4), init=0) -> add(acc, i)` is 6 |
| CoreExec.WhileStep | aissembly_core/executor.py:92-101 | one while step: a false test returns `acc`; a true one makes the body's value the next `acc` |
| CoreExec.WhileCountFrom | aissembly_core/executor.py:92-101 | any while loop whose test is `acc < 3` and whose body adds one to `acc`, started from `acc == a`, reaches 3 after `3 - a` iterations, and runs out of its iteration budget if that is smaller |
| CoreExec.WhileCountExample | aissembly_core/executor.py:92-101 | `while(test=lt(acc, 3), init=0) -> add(acc, 1)` is 3 |
| CoreExec.RunLetAtEnd | aissembly_core/executor.py:46-48 | a `let` binds its name to its value, replacing any earlier binding and leaving every other name as it was |
| CoreExec.RunWithoutLetKeepsEnv | aissembly_core/executor.py:49-50 | statements other than `let` are evaluated for effect only and never change the env |
| CoreExec.RunLetStep | aissembly_core/executor.py:46-48 | a `let` whose value evaluates binds it and the run goes on with the next statement |
| CoreExec.RuntimeTestAsParsed | aissembly_core/executor.py:44-51 | the runtime test's first statement as the parser builds it (`op.add`) stops the run with `ValueError` |
| CoreExec.RuntimeTestWithBuiltinNames | aissembly_core/executor.py:44-101 | the runtime test written with the exact builtin names gives `x == 13`, `tag == "ok"`, `total == 6` and `steps == 3` |
| Unparser.EscapeChar | aissembly_core/unparser.py:22-24 | the JSON escape of one character is the character itself exactly when it needs no escaping |
| Unparser.EscapeAll | aissembly_core/unparser.py:22-24 | escaping never shortens the text |
| Unparser.Quote | aissembly_core/unparser.py:22-24 | `_quote` writes a string literal that starts and ends with `"` |
| Unparser.HexDigitValue | aissembly_core/unparser.py:22-24 | a hex digit written in a `\u` escape reads back as its value |
| Unparser.UnescapeChar | aissembly_core/unparser.py:22-24 | the escape of one character decodes to that character, whatever follows |
| Unparser.UnescapeEscapeAll | aissembly_core/unparser.py:22-24 | decoding the escaped text gives the text back |
| Unparser.QuoteRoundTrip | aissembly_core/unparser.py:22-24 | a JSON string decoder reads back every string `_quote` writes |
| Unparser.EscapeAllLength | aissembly_core/unparser.py:22-24 | escaping leaves a text unchanged exactly when none of its characters needs an escape |
| Unparser.StringRoundTripIffPlain | aissembly_core/unparser.py:22-24 | the parser's `string` reduction, which only drops the quotes, gives back the quoted string exactly when it has no character to escape; see also aissembly_core/parser.py:252-254 |
| Unparser.Spaces | aissembly_core/unparser.py:27 | `" " * n` is `n` spaces |
| Unparser.PadLines | aissembly_core/unparser.py:28 | each non-empty line gets the prefix and each empty line stays empty |
| Unparser.NoBreakPadded | aissembly_core/unparser.py:26-28 | padding a line without a line break adds no line break |
| Unparser.IndentLines | aissembly_core/unparser.py:26-28 | the lines of `_indent(s, n)` are the lines of `s`, each non-empty one after `n` spaces |
| Unparser.Unwrap | aissembly_core/unparser.py:62-79 | the base of a trailer chain is no trailer call, and the chain is empty exactly when the node is not one |
| Unparser.Reversed | aissembly_core/unparser.py:78 | `chain.reverse()` puts the `k`-th item at position `len - 1 - k` |
| Unparser.ReversedSnoc | aissembly_core/unparser.py:74-78 | an item appended last comes first after the reversal |
| Unparser.UnwrapTrailerChain | aissembly_core/unparser.py:62-79 | the unwrapping loop returns the base and the chain that `Unwrap` gives |
| Unparser.UnwrapFoldTrailers | aissembly_core/unparser.py:62-79 | unwrapping inverts the parser's trailer folding: the primary and the trailers come back in application order; see also aissembly_core/parser.py:294-302 |
| Unparser.ExprsToSource | aissembly_core/unparser.py:188-190 | each positional argument renders to one text |
| Unparser.PairsToSource | aissembly_core/unparser.py:94 | each dict pair renders to one text |
| Unparser.KwRendered | aissembly_core/unparser.py:191-192 | each keyword argument renders under its own key |
| Unparser.Keys | aissembly_core/unparser.py:191 | the keys of the keyword dict in insertion order |
| Unparser.KwTexts | aissembly_core/unparser.py:191-192 | one `k=v` text per key |
| Unparser.StmtToSource | aissembly_core/unparser.py:199-206 | a `let` renders as `let NAME = expr;`, a for, while or cond without a semicolon, any other statement with `;` |
| Unparser.StmtsToSource | aissembly_core/unparser.py:209 | each statement renders on its own |
| Unparser.RenderTrailerCall | aissembly_core/unparser.py:99-111 | an `op.get`/`op.slice` call renders as its base followed by the trailer |
| Unparser.RenderUnwrapped | aissembly_core/unparser.py:99-111 | a node renders as its unwrapped base followed by its trailers in application order, absent slice bounds as nothing |
| Unparser.RenderFoldTrailers | aissembly_core/unparser.py:99-111 | what the parser's `atom` builds renders as the primary followed by `[i]` and `[s:e]` trailers, the base not parenthesised; see also aissembly_core/parser.py:294-302 |
| Unparser.OperatorTables | aissembly_core/unparser.py:40-59 | every call name the parser gives an operator is in `_BINOP` with its own spelling, or in `_BOOLBIN` for `land`/`lor`, and is none of `op.lnot`, `op.get`, `op.slice`; see also aissembly_core/parser.py:312-366 |
| Unparser.RenderInfix | aissembly_core/unparser.py:163-185 | every operator call the parser builds renders as `a OP b`, each non-atom operand in parentheses, except that subtraction from the literal 0 renders as prefix `-x` |
| Unparser.RenderPrefix | aissembly_core/unparser.py:157-167 | `-x` and `not x` render as prefix operators, `x` in parentheses unless it is an atom |
| Unparser.RenderForStep | aissembly_core/unparser.py:141-148 | a for loop with step `Number(1)` renders exactly as the same loop written without a step |
| Unparser.LookupRenderedKw | aissembly_core/unparser.py:191-192 | with distinct keys, each present key renders as `key=value` |
| Unparser.KeysCount | aissembly_core/unparser.py:191 | with distinct keys, each key occurs once in the key list exactly when it is present |
| Unparser.KwTextsAgree | aissembly_core/unparser.py:191-192 | keyword texts depend only on each key's rendered value |
| Unparser.RenderGeneralCall | aissembly_core/unparser.py:187-193 | any other call renders as `name(...)`: positionals in order, then `k=v` pairs in sorted key order |
| Unparser.RenderKwargsOrderFree | aissembly_core/unparser.py:191-192 | two keyword dicts with the same entries in different insertion orders render alike |
| Unparser.JoinSnoc | aissembly_core/unparser.py:209 | joining with one more part adds the separator and the part |
| Unparser.ProgramAppend | aissembly_core/unparser.py:208-209 | a program renders statement after statement, separated by single newlines |
| FindFunctions.Alternatives | aissembly_core/util/find_functions.py:5-9 | one name or a collection of names gives the name alternatives in order; there is always at least one |
| FindFunctions.QuotedEnd | aissembly_core/util/find_functions.py:18-19 | a single- or double-quoted literal with backslash escapes ends just after its closing quote |
| FindFunctions.TripleEnd | aissembly_core/util/find_functions.py:16-17 | the lazy `[\s\S]*?` of a triple-quoted literal stops at the first closing triple quote, and there is none when it fails |
| FindFunctions.SkipLiteral | aissembly_core/util/find_functions.py:14-22 | a skipped span starts and ends with the same quote character, triple quotes tried before single ones |
| FindFunctions.PlainEnd | aissembly_core/util/find_functions.py:31 | `[^()"'\n\r]+` runs to the first character that is not plain text |
| FindFunctions.Items | aissembly_core/util/find_functions.py:29-39 | the `params` group runs up to the `)` that balances it and holds at least one item |
| FindFunctions.ItemEnd | aissembly_core/util/find_functions.py:30-37 | an item (plain text, a quoted literal, a nested non-empty group or a line break) ends after its start |
| FindFunctions.BlanksEnd | aissembly_core/util/find_functions.py:27 | `[ \t]*` runs over spaces and tabs only, to the first other character |
| FindFunctions.MatchName | aissembly_core/util/find_functions.py:25-41 | a match is the name, blanks, `(`, a balanced non-empty body and `)`; its full text is the source slice at its span and its params the text between the outer parentheses |
| FindFunctions.MatchAt | aissembly_core/util/find_functions.py:26 | the function branch tries the names in order and reports one of them |
| FindFunctions.Scan | aissembly_core/util/find_functions.py:43-61 | `finditer` reports well-formed matches of the given names in increasing source order, never overlapping |
| FindFunctions.ScanComplete | aissembly_core/util/find_functions.py:43-61 | every call the scan reaches outside a skipped literal is reported |
| FindFunctions.ScanSound | aissembly_core/util/find_functions.py:43-61 | every reported call is one the scan reached outside a skipped literal, at a position where the skip branch fails and the function branch matches it |
| FindFunctions.FindFunctionBlocks | aissembly_core/util/find_functions.py:50-61 | the result-building loop returns the matches `Scan` gives from the start of the text |
| FindFunctions.LiteralContentNeverReported | aissembly_core/util/find_functions.py:14-22 | text inside a quoted literal is never reported: every later match starts after the literal; see also aissembly_core/util/find_functions.py:43-47 |
| FindFunctions.UnterminatedQuoteNotSkipped | aissembly_core/util/find_functions.py:14-22 | a quote with no closing quote after it opens no skipped span |
| FindFunctions.QuotedEndNeedsQuote | aissembly_core/util/find_functions.py:18-19 | a quoted literal with no closing quote never ends |
| FindFunctions.EmptyCallNotReported | aissembly_core/util/find_functions.py:38 | `NAME()` is never reported |
| FindFunctions.EmptyGroupFails | aissembly_core/util/find_functions.py:34-38 | a nested empty `()` makes the item fail, and with it the whole call |
| FindFunctions.NoWordBoundary | aissembly_core/util/find_functions.py:26 | names are matched with no word boundary: in `XTARGET(a)` the call `TARGET(a)` is found |
| FindFunctions.PlainRun | aissembly_core/util/find_functions.py:31 | a run of plain characters ends at the first non-plain one |
| AccuracyPass.PromptedAll | aissembly_core/optimizations/accuracy_opt_passes.py:70-79 | rewriting the prompts inside a list of nodes keeps its length |
| AccuracyPass.PromptedPairs | aissembly_core/optimizations/accuracy_opt_passes.py:70-79 | rewriting the prompts inside dict-literal pairs keeps their number |
| AccuracyPass.PromptedKw | aissembly_core/optimizations/accuracy_opt_passes.py:70-79 | rewriting a keyword dict keeps its length and every key in place |
| AccuracyPass.SiteText | aissembly_core/optimizations/accuracy_opt_passes.py:74-75 | `'…' + node.value` succeeds exactly on a `String` prompt, giving its text; a `Number` or `Boolean` gives `TypeError`, any other node `AttributeError` |
| AccuracyPass.FirstError | aissembly_core/optimizations/accuracy_opt_passes.py:70-76 | no error exactly when every prompt found is a `String`; otherwise the error is that of some prompt all of whose predecessors are strings |
| AccuracyPass.FirstErrorAt | aissembly_core/optimizations/accuracy_opt_passes.py:70-76 | the first prompt that is not a `String` decides the error |
| AccuracyPass.RewriteProgram | aissembly_core/optimizations/accuracy_opt_passes.py:70-80 | the intended pass, whose oracle returns the reply text: it succeeds exactly when every statement's prompts are all strings, keeps the number of statements and rewrites each one on its own; the pass as written is `AccuracyAsWritten` |
| AccuracyPass.ProgramStep | aissembly_core/optimizations/accuracy_opt_passes.py:70-80 | the statements are handled in order: one rewritten statement is followed by the rest, and an error in it is the pass's error |
| AccuracyPass.AccuracyPass | aissembly_core/optimizations/accuracy_opt_passes.py:55-80 | the loop over statements and the prompts the walk yields in each, with the reply text of the oracle, returns the outcome `RewriteProgram` specifies, including the error of the first prompt that is not a `String` |
| AccuracyPass.ReadSites | aissembly_core/optimizations/accuracy_opt_passes.py:71-76 | reading the prompts of one statement in walk order fails with the first non-string prompt's error, or succeeds when all are strings |
| AccuracyPass.Lifted | aissembly_core/optimizations/accuracy_opt_passes.py:71-79 | lifting keeps the number of found values |
| AccuracyPass.LiftedAt | aissembly_core/optimizations/accuracy_opt_passes.py:71-79 | each found value is lifted on its own, in its own position |
| AccuracyPass.LiftedAppend | aissembly_core/optimizations/accuracy_opt_passes.py:71-79 | lifting distributes over concatenation |
| AccuracyPass.LookupPromptedKw | aissembly_core/optimizations/accuracy_opt_passes.py:46-47 | after the rewrite, looking up a key in a keyword dict gives the rewritten old entry, and a missing key stays missing; see also aissembly_core/optimizations/accuracy_opt_passes.py:79 |
| AccuracyPass.ValuesOfPrompted | aissembly_core/optimizations/accuracy_opt_passes.py:21-53 | after the rewrite the walk finds the same prompts in the same order, each `String` now holding the rewritten text; see also aissembly_core/optimizations/accuracy_opt_passes.py:79 |
| AccuracyPass.ValuesOfPromptedAll | aissembly_core/optimizations/accuracy_opt_passes.py:38-41 | the same, over a list of nodes; see also aissembly_core/optimizations/accuracy_opt_passes.py:79 |
| AccuracyPass.ValuesOfPromptedPairs | aissembly_core/optimizations/accuracy_opt_passes.py:31-36 | the same, over dict-literal pairs; see also aissembly_core/optimizations/accuracy_opt_passes.py:79 |
| AccuracyPass.ValuesOfPromptedPair | aissembly_core/optimizations/accuracy_opt_passes.py:31-36 | the same, over one dict-literal pair; see also aissembly_core/optimizations/accuracy_opt_passes.py:79 |
| AccuracyPass.ValuesOfPromptedKw | aissembly_core/optimizations/accuracy_opt_passes.py:44-49 | the same, over the values of a keyword dict; see also aissembly_core/optimizations/accuracy_opt_passes.py:79 |
| AccuracyPass.ComposePrompted | aissembly_core/optimizations/accuracy_opt_passes.py:70-79 | two rewrites in a row are one rewrite by the composed function |
| AccuracyPass.ComposeAll | aissembly_core/optimizations/accuracy_opt_passes.py:70-79 | the same, over a list of nodes |
| AccuracyPass.ComposePairs | aissembly_core/optimizations/accuracy_opt_passes.py:70-79 | the same, over dict-literal pairs |
| AccuracyPass.ComposePair | aissembly_core/optimizations/accuracy_opt_passes.py:70-79 | the same, over one dict-literal pair |
| AccuracyPass.ComposeKw | aissembly_core/optimizations/accuracy_opt_passes.py:70-79 | the same, over a keyword dict |
| AccuracyPass.OnlyPromptTextsChange | aissembly_core/optimizations/accuracy_opt_passes.py:79 | the assignment `node.value = val` changes nothing but prompt texts: with every prompt text blanked, the rewritten and the original trees agree |
| AccuracyPass.StatementEffect | aissembly_core/optimizations/accuracy_opt_passes.py:70-80 | on a statement the intended pass accepts, the walk finds as many prompts afterwards, each holding the `</think>`-filtered oracle reply to the instruction followed by its old text, and nothing but prompt texts differs |
| AccuracyPass.LastNamed | aissembly_core/optimizations/accuracy_opt_passes.py:62-66 | `ind` is the index of the last definition named for the pass, and it is `None` exactly when no definition has that name |
| AccuracyPass.FindIndex | aissembly_core/optimizations/accuracy_opt_passes.py:62-66 | the loop over the definitions leaves in `ind` what `LastNamed` specifies |
| AccuracyPass.PassCall | aissembly_core/optimizations/accuracy_opt_passes.py:68-76 | without `ind` the definitions lookup raises, `KeyError` for an empty list (replaced by `{}`) and `TypeError` for a list indexed by `None`; with one the reply is the placeholder dict, which holds one `prompt`, the one sent, and no key `</think>`; see also aissembly_core/executor.py:41-42, aissembly_core/executor.py:103-111 |
| AccuracyPass.ReplyPrompts | aissembly_core/executor.py:103-111 | the walk over the placeholder reply finds exactly the prompt sent, and the reply has no key `</think>` |
| AccuracyPass.AccuracyAsWritten | aissembly_core/optimizations/accuracy_opt_passes.py:70-80 | as written, a program the pass does not raise on comes back unchanged |
| AccuracyPass.RaisedIffPrompts | aissembly_core/optimizations/accuracy_opt_passes.py:70-79 | as written, the loop over one statement raises exactly when the walk finds a prompt in it |
| AccuracyPass.RaisedIffPromptsAll | aissembly_core/optimizations/accuracy_opt_passes.py:38-41 | the same, over a list of nodes |
| AccuracyPass.RaisedIffPromptsPairs | aissembly_core/optimizations/accuracy_opt_passes.py:31-36 | the same, over dict-literal pairs |
| AccuracyPass.RaisedIffPromptsPair | aissembly_core/optimizations/accuracy_opt_passes.py:31-36 | the same, over one dict-literal pair |
| AccuracyPass.RaisedIffPromptsCall | aissembly_core/optimizations/accuracy_opt_passes.py:44-49 | the same, over a keyword dict with its own `prompt` entry |
| AccuracyPass.RaisedIffPromptsKw | aissembly_core/optimizations/accuracy_opt_passes.py:44-49 | the same, over the values of a keyword dict |
| AccuracyPass.ReplacedRaises | aissembly_core/optimizations/accuracy_opt_passes.py:79 | once the `prompt` entry's `String` holds a reply with a prompt inside, the walk of the keyword dict raises |
| AccuracyPass.StringPromptRaises | aissembly_core/optimizations/accuracy_opt_passes.py:70-79 | as written, a call whose first prompt is a `String` raises: with a definition, `AttributeError` on the `prompt` string inside the stored reply; without one, the lookup error |
| AccuracyPass.AsWrittenOkIff | aissembly_core/optimizations/accuracy_opt_passes.py:70-80 | as written, the pass runs through exactly when no statement holds a prompt |
| AccuracyPass.OnePromptExample | aissembly_core/optimizations/accuracy_opt_passes.py:70-80 | on `gen(prompt="hi")` with a definition named for the pass, the intended pass rewrites the prompt and the pass as written raises `AttributeError` |
| AccuracyPass.NoneInSlice | aissembly_core/optimizations/accuracy_opt_passes.py:78 | no marker occurs inside a slice of a piece of a split on that marker |
| AccuracyPass.ThinkFilterSpec | aissembly_core/optimizations/accuracy_opt_passes.py:77-78 | a reply without `</think>` is kept as it is; otherwise the result is the stripped text between the first marker and the next one (or the end), and holds no marker |
| DecompositionPass.Sites | aissembly_core/optimizations/decomposition_opt_passes.py:24-70 | every entry the walk yields sits where it says: its owner is a call whose keyword dict is the parent, and that dict maps `prompt` to the value |
| DecompositionPass.SitesOfAll | aissembly_core/optimizations/decomposition_opt_passes.py:49-55 | the same, over a list of nodes |
| DecompositionPass.SitesOfPairs | aissembly_core/optimizations/decomposition_opt_passes.py:38-47 | the same, over dict-literal pairs |
| DecompositionPass.SitesOfPair | aissembly_core/optimizations/decomposition_opt_passes.py:38-47 | the same, over one dict-literal pair |
| DecompositionPass.SitesOfKw | aissembly_core/optimizations/decomposition_opt_passes.py:38-47 | the same, over the values of a keyword dict |
| DecompositionPass.Values | aissembly_core/optimizations/decomposition_opt_passes.py:88 | the values keep the walk's order, one per yielded entry |
| DecompositionPass.ValuesAppend | aissembly_core/optimizations/decomposition_opt_passes.py:88 | taking values distributes over concatenation |
| DecompositionPass.WalkAgrees | aissembly_core/optimizations/decomposition_opt_passes.py:24-70 | the walk with ancestor pointers meets the same prompt values, in the same order, as the accuracy pass's walk; see also aissembly_core/optimizations/accuracy_opt_passes.py:21-53 |
| DecompositionPass.WalkAgreesAll | aissembly_core/optimizations/decomposition_opt_passes.py:49-55 | the same, over a list of nodes |
| DecompositionPass.WalkAgreesPairs | aissembly_core/optimizations/decomposition_opt_passes.py:38-47 | the same, over dict-literal pairs |
| DecompositionPass.WalkAgreesPair | aissembly_core/optimizations/decomposition_opt_passes.py:38-47 | the same, over one dict-literal pair |
| DecompositionPass.WalkAgreesKw | aissembly_core/optimizations/decomposition_opt_passes.py:38-47 | the same, over a keyword dict |
| DecompositionPass.Pieces | aissembly_core/optimizations/decomposition_opt_passes.py:95-98 | no piece of the cleaned-up reply holds a newline |
| DecompositionPass.Kept | aissembly_core/optimizations/decomposition_opt_passes.py:102-103 | the kept pieces are exactly the non-empty ones: each kept piece is a non-empty piece, and every non-empty piece is kept |
| DecompositionPass.StepsAreLines | aissembly_core/optimizations/decomposition_opt_passes.py:95-103 | every step is a non-empty line |
| DecompositionPass.OneLineOneStep | aissembly_core/optimizations/decomposition_opt_passes.py:95-103 | a filtered reply that strips to one non-empty line gives exactly one step, that line |
| DecompositionPass.SetPrompt | aissembly_core/optimizations/decomposition_opt_passes.py:105-113 | the copied keyword dict has the same keys in the same order, the new prompt under `prompt` and every other value copied |
| DecompositionPass.Chain | aissembly_core/optimizations/decomposition_opt_passes.py:100-117 | the chain has one call per kept step |
| DecompositionPass.BuildChain | aissembly_core/optimizations/decomposition_opt_passes.py:100-117 | the loop over the pieces builds exactly `Chain` of the kept pieces: the first call gets the plain step, every later one the contextual prompt, each call copying the owner's name and arguments |
| DecompositionPass.ChainsFor | aissembly_core/optimizations/decomposition_opt_passes.py:87-117 | one chain per found prompt |
| DecompositionPass.DecomposeSites | aissembly_core/optimizations/decomposition_opt_passes.py:88-117 | with the reply text of the oracle, the loop over one statement's prompts fails with the first non-string prompt's error, and otherwise builds one chain per prompt from the reply, in walk order |
| DecompositionPass.DecomposeStatements | aissembly_core/optimizations/decomposition_opt_passes.py:87-120 | with the reply text of the oracle, the loop over the statements fails exactly as `DecomposeOutcome` says, and on success every prompt was a string and one chain was built per prompt in walk order |
| DecompositionPass.DecompositionPass | aissembly_core/optimizations/decomposition_opt_passes.py:72-120 | the intended pass, whose oracle returns the reply text, returns the program unchanged unless a prompt is not a string, whose error it raises; the chains are bound to a local name and never installed; the pass as written is `DecompositionAsWritten` |
| DecompositionPass.ChainsAppend | aissembly_core/optimizations/decomposition_opt_passes.py:87-117 | building chains distributes over concatenation of found prompts |
| DecompositionPass.ErrorInside | aissembly_core/optimizations/decomposition_opt_passes.py:87-93 | an error among one statement's prompts, after prompts that were all strings, is the pass's error whatever follows |
| DecompositionPass.SiteRaises | aissembly_core/optimizations/decomposition_opt_passes.py:88-98 | as written, the loop body raises at every prompt it is given: a prompt that is not a `String` with its own error, a missing definition with the lookup error, and otherwise `val.strip()` on the reply dict with `AttributeError` |
| DecompositionPass.DecompositionAsWritten | aissembly_core/optimizations/decomposition_opt_passes.py:79-98 | the loops as written, the definitions scan included, raise at the first prompt the walk finds, and return a program without prompts unchanged |
| DecompositionPass.AsWrittenAgainstIntended | aissembly_core/optimizations/decomposition_opt_passes.py:87-98 | as written, the pass runs through exactly when the program has no prompt; a first prompt that is not a `String` fails it as it fails the intended pass; and a program whose prompts are all strings, which the intended pass accepts, raises `AttributeError` |
| DecompositionPass.OnePromptDecomposed | aissembly_core/optimizations/decomposition_opt_passes.py:87-98 | on `gen(prompt="hi")` with a definition named for the pass, the intended pass accepts the program and the pass as written raises `AttributeError` |
| DslTokenizer.Span | aissembly_dsl/tokenizer.py:66-67 | the longest run of a character class from `pos`: every character in it is in the class and the next one is not; see also aissembly_dsl/tokenizer.py:39, aissembly_dsl/tokenizer.py:43 |
| DslTokenizer.Until | aissembly_dsl/tokenizer.py:40 | the first occurrence of the closing quote at or after `from`, or the end of the line when there is none |
| DslTokenizer.MatchAt | aissembly_dsl/tokenizer.py:37-46 | a match of `TOKEN_RE` is never empty and never runs past the line; see also aissembly_dsl/tokenizer.py:70 |
| DslTokenizer.Upper | aissembly_dsl/tokenizer.py:77 | `text.upper()` keeps the length |
| DslTokenizer.KindsOfKeywords | aissembly_dsl/tokenizer.py:19-35 | every keyword's upper-cased spelling is a scanned kind and none of them is `IDENT`; see also aissembly_dsl/tokenizer.py:75-77 |
| DslTokenizer.KindOfScanned | aissembly_dsl/tokenizer.py:73-99 | every match gets one of the scanned kinds, and an identifier is `IDENT` exactly when it is not a keyword |
| DslTokenizer.ScanLine | aissembly_dsl/tokenizer.py:63-101 | the inner loop only appends; every appended token's text is the non-empty slice of the line at its 1-based column; an unknown character is a `SyntaxError` |
| DslTokenizer.ScanLineKinds | aissembly_dsl/tokenizer.py:63-101 | every appended token has a scanned kind |
| DslTokenizer.Dedents | aissembly_dsl/tokenizer.py:60-62 | `n` DEDENT tokens at column 1 of the given line; see also aissembly_dsl/tokenizer.py:103-105 |
| DslTokenizer.Dedent | aissembly_dsl/tokenizer.py:60-62 | popping keeps the stack a strictly increasing prefix starting at 0, pops exactly the levels wider than the indent, and emits one DEDENT per level popped |
| DslTokenizer.LayoutSpec | aissembly_dsl/tokenizer.py:56-62 | a deeper line pushes its width and emits one INDENT; otherwise the wider levels are popped with one DEDENT each, and a width between two levels is accepted |
| DslTokenizer.LineStep | aissembly_dsl/tokenizer.py:53-102 | one line keeps the indent stack well formed and fails only with a `SyntaxError` |
| DslTokenizer.LinesFrom | aissembly_dsl/tokenizer.py:53-102 | the loop over lines keeps the stack well formed and fails only with a `SyntaxError` |
| DslTokenizer.PopLevels | aissembly_dsl/tokenizer.py:60-62 | the popping loop computes `Dedent` |
| DslTokenizer.LayoutLine | aissembly_dsl/tokenizer.py:56-62 | the indentation step of a line computes `Layout` |
| DslTokenizer.TokenizeLine | aissembly_dsl/tokenizer.py:54-102 | one iteration of the loop over lines computes `LineStep` |
| DslTokenizer.ScanTokens | aissembly_dsl/tokenizer.py:63-101 | the token loop of a line computes `ScanLine` |
| DslTokenizer.Tokenize | aissembly_dsl/tokenizer.py:49-107 | `tokenize` computes `Tokens`, including the unbound `lineno` of an empty source |
| DslTokenizer.CloseLevels | aissembly_dsl/tokenizer.py:103-105 | the closing loop emits one DEDENT on the line after the last for every level above 0 still on the stack |
| DslTokenizer.CountAppend | aissembly_dsl/tokenizer.py:49-107 | counting tokens of a kind distributes over concatenation |
| DslTokenizer.CountDedents | aissembly_dsl/tokenizer.py:60-62 | a run of DEDENTs counts only as DEDENTs |
| DslTokenizer.CountNone | aissembly_dsl/tokenizer.py:49-107 | a kind that does not occur counts zero |
| DslTokenizer.DepthAppend | aissembly_dsl/tokenizer.py:49-107 | the INDENT-minus-DEDENT depth distributes over concatenation |
| DslTokenizer.DepthDedents | aissembly_dsl/tokenizer.py:60-62 | `n` DEDENTs lower the depth by `n` |
| DslTokenizer.LayoutDepth | aissembly_dsl/tokenizer.py:56-62 | the indentation step changes the depth by as much as the stack grows or shrinks |
| DslTokenizer.ScanLineDepth | aissembly_dsl/tokenizer.py:63-101 | the scanned tokens of a line leave the depth as it was |
| DslTokenizer.LineStepDepth | aissembly_dsl/tokenizer.py:53-102 | each line keeps the open INDENTs equal to the stack's levels above 0 |
| DslTokenizer.LinesDepth | aissembly_dsl/tokenizer.py:53-102 | the same, for the whole loop over lines |
| DslTokenizer.TokensBalanced | aissembly_dsl/tokenizer.py:49-107 | a token list ends with EOF, and its INDENTs and DEDENTs balance |
| DslTokenizer.EmptySourceFails | aissembly_dsl/tokenizer.py:52-53 | the call fails with the unbound `lineno` exactly when the source is empty; see also aissembly_dsl/tokenizer.py:104-106 |
| DslTokenizer.SkippedLines | aissembly_dsl/tokenizer.py:54-55 | blank lines and comment lines emit nothing and leave the stack alone |
| DslTokenizer.OnlySkippedLines | aissembly_dsl/tokenizer.py:52-55 | a non-empty source of only blank and comment lines gives a lone EOF on the line after the last; see also aissembly_dsl/tokenizer.py:103-106 |
| DslTokenizer.TwoCharOperators | aissembly_dsl/tokenizer.py:41-42 | `==` is two EQUAL tokens, because the single `=` alternative comes first; `->` is one ARROW; `!=`, `>=` and `<=` are one OP each; see also aissembly_dsl/tokenizer.py:84-90 |
| DslParser.ExpectAt | aissembly_dsl/parser.py:28-33 | `_expect` succeeds exactly when the token under the cursor has the kind, and then moves one step, staying inside the list |
| DslParser.Items | aissembly_dsl/parser.py:36-43 | the loop of `parse` stops on the `EOF` token |
| DslParser.ParseProgram | aissembly_dsl/parser.py:36-43 | `parse` gives a `Program` and leaves the cursor on `EOF` |
| DslParser.Stmt | aissembly_dsl/parser.py:45-73 | `parse_stmt` consumes at least one token and never passes `EOF` |
| DslParser.Block | aissembly_dsl/parser.py:75-84 | `parse_block` consumes at least one token and never passes `EOF` |
| DslParser.BlockItems | aissembly_dsl/parser.py:78-82 | the statement loop of a block stops on its `DEDENT` |
| DslParser.IfStmt | aissembly_dsl/parser.py:86-96 | `parse_if_stmt` consumes at least one token and never passes `EOF` |
| DslParser.LoopBody | aissembly_dsl/parser.py:98-106 | `parse_loop_body` consumes at least one token and never passes `EOF` |
| DslParser.LoopInit | aissembly_dsl/parser.py:115-129 | the optional `init` clause never moves the cursor back or past `EOF` |
| DslParser.ForStmt | aissembly_dsl/parser.py:108-119 | `parse_for` consumes at least one token and never passes `EOF` |
| DslParser.WhileStmt | aissembly_dsl/parser.py:121-130 | `parse_while` consumes at least one token and never passes `EOF` |
| DslParser.Expr | aissembly_dsl/parser.py:133-152 | `parse_expr(min_prec)` consumes at least one token, takes every operator whose precedence is at least `min_prec`, and stops at the first token that is not such an operator |
| DslParser.ExprTail | aissembly_dsl/parser.py:147-151 | the operator loop takes every operator whose precedence is at least `min_prec` and stops at the first token that is not such an operator |
| DslParser.Atom | aissembly_dsl/parser.py:154-197 | `parse_atom` consumes at least one token and never passes `EOF` |
| DslParser.Primary | aissembly_dsl/parser.py:162-184 | the part of `parse_atom` before the call suffixes consumes at least one token |
| DslParser.Suffixes | aissembly_dsl/parser.py:186-196 | the call-suffix loop never moves the cursor back or past `EOF` |
| DslParser.Args | aissembly_dsl/parser.py:189-195 | the argument list never moves the cursor back or past `EOF` |
| DslParser.MoreArgs | aissembly_dsl/parser.py:192-194 | the comma loop of the arguments never moves the cursor back or past `EOF` |
| DslParser.LambdaExpr | aissembly_dsl/parser.py:199-211 | `parse_lambda` consumes at least one token and never passes `EOF` |
| DslParser.Params | aissembly_dsl/parser.py:202-207 | the parameter list never moves the cursor back or past `EOF` |
| DslParser.MoreParams | aissembly_dsl/parser.py:205-207 | the comma loop of the parameters never moves the cursor back or past `EOF` |
| DslParser.ExprIsExpr | aissembly_dsl/parser.py:133-152 | every expression the parser accepts is an expression tree, with no statement inside |
| DslParser.ExprTailIsExpr | aissembly_dsl/parser.py:147-151 | the operator loop keeps an expression tree an expression tree |
| DslParser.AtomIsExpr | aissembly_dsl/parser.py:154-197 | every atom is an expression tree |
| DslParser.PrimaryIsExpr | aissembly_dsl/parser.py:162-184 | every primary is an expression tree |
| DslParser.LambdaIsExpr | aissembly_dsl/parser.py:199-211 | every lambda's body is an expression tree |
| DslParser.SuffixesIsExpr | aissembly_dsl/parser.py:186-196 | call suffixes keep an expression tree an expression tree |
| DslParser.ArgsIsExpr | aissembly_dsl/parser.py:189-195 | every call argument is an expression tree |
| DslParser.MoreArgsIsExpr | aissembly_dsl/parser.py:192-194 | the same, for the comma loop |
| DslParser.StmtIsStmt | aissembly_dsl/parser.py:45-73 | every statement the parser accepts is a well-formed statement: expressions where expressions go, statements in blocks |
| DslParser.IfStmtIsStmt | aissembly_dsl/parser.py:86-96 | every `if` statement is well formed |
| DslParser.BlockIsStmt | aissembly_dsl/parser.py:75-84 | every block holds well-formed statements |
| DslParser.BlockItemsIsStmt | aissembly_dsl/parser.py:78-82 | the same, for the statement loop of a block |
| DslParser.LoopIsStmt | aissembly_dsl/parser.py:108-130 | `for` and `while` statements hold expressions for the iterable or test, the body and the initial value |
| DslParser.ItemsAreStmts | aissembly_dsl/parser.py:38-42 | the loop of `parse` collects well-formed statements |
| DslParser.ProgramWellFormed | aissembly_dsl/parser.py:36-43 | a parsed program is a sequence of well-formed statements |
| DslParser.AtomIsNotBinOp | aissembly_dsl/parser.py:154-197 | without parentheses, an atom is never an infix operation |
| DslParser.ExprWellPrec | aissembly_dsl/parser.py:133-152 | without parentheses, `parse_expr(min_prec)` builds a tree that respects the precedence table, left-associative at equal precedence, with every operator on its spine at least `min_prec` |
| DslParser.ExprTailWellPrec | aissembly_dsl/parser.py:147-151 | the same, for the operator loop |
| DslParser.UnlistedBindsLoosest | aissembly_dsl/parser.py:135-149 | an operator missing from the table (precedence 0) never sits under a listed one |
| DslParser.LeftAssociative | aissembly_dsl/parser.py:147-151 | `a - b - c` groups as `(a - b) - c` |
| DslParser.TighterBindsFirst | aissembly_dsl/parser.py:135-151 | `a + b * c` groups as `a + (b * c)` |
| DslParser.UnlistedBindsLast | aissembly_dsl/parser.py:135-151 | `a + b % c` groups as `(a + b) % c` |
| DslParser.CallsChain | aissembly_dsl/parser.py:186-196 | `f(a)(b)` is a call of the call `f(a)` |
| DslParser.LetAndMut | aissembly_dsl/parser.py:47-52 | `mut x = 1` is a mutable binding and `let x = 1` an immutable one |
| DslParser.DefaultInit | aissembly_dsl/parser.py:121-130 | a loop without `init` gets the name `none` as its initial value |
| DslParser.Parser.constructor | aissembly_dsl/parser.py:10-12 | a parser starts at the first token of the list |
| DslParser.Parser.FromSource | aissembly_dsl/parser.py:14-16 | `from_source` fails with the tokenizer's error, or gives a fresh parser at position 0 over the tokens |
| DslParser.Parser.Peek | aissembly_dsl/parser.py:19-20 | `_peek` is the token under the cursor, and any token but `EOF` has a successor |
| DslParser.Parser.Accept | aissembly_dsl/parser.py:22-26 | `_accept` steps over the token exactly when it has the kind, and says whether it did |
| DslParser.Parser.Expect | aissembly_dsl/parser.py:28-33 | `_expect` returns the token and steps past it, or raises a `SyntaxError` and leaves the cursor alone |
| DslParser.Parser.Parse | aissembly_dsl/parser.py:36-43 | `parse` returns what `ParseProgram` specifies and leaves the cursor where it says |
| DslParser.Parser.ParseStmt | aissembly_dsl/parser.py:45-73 | `parse_stmt` agrees with `Stmt`, result and cursor |
| DslParser.Parser.ParseBlock | aissembly_dsl/parser.py:75-84 | `parse_block` agrees with `Block` |
| DslParser.Parser.ParseBlockItems | aissembly_dsl/parser.py:78-82 | the statement loop of `parse_block` agrees with `BlockItems`: it stops at the DEDENT that closes the block and steps over one NEWLINE after each statement |
| DslParser.Parser.ParseIfStmt | aissembly_dsl/parser.py:86-96 | `parse_if_stmt` agrees with `IfStmt` |
| DslParser.Parser.ParseLoopBody | aissembly_dsl/parser.py:98-106 | `parse_loop_body` agrees with `LoopBody` |
| DslParser.Parser.ParseInit | aissembly_dsl/parser.py:115-129 | the `init` clause agrees with `LoopInit` |
| DslParser.Parser.ParseFor | aissembly_dsl/parser.py:108-119 | `parse_for` agrees with `ForStmt` |
| DslParser.Parser.ParseWhile | aissembly_dsl/parser.py:121-130 | `parse_while` agrees with `WhileStmt` |
| DslParser.Parser.ParseExpr | aissembly_dsl/parser.py:133-152 | `parse_expr` agrees with `Expr` |
| DslParser.Parser.ParseAtom | aissembly_dsl/parser.py:154-197 | `parse_atom` agrees with `Atom` |
| DslParser.Parser.ParsePrimary | aissembly_dsl/parser.py:155-184 | the first part of `parse_atom` agrees with `Primary` |
| DslParser.Parser.ParseInlineIf | aissembly_dsl/parser.py:169-177 | the `if` branch of `parse_atom` agrees with `InlineIf`: test, `:`, then-expression, `else`, `:`, else-expression |
| DslParser.Parser.ParseArgs | aissembly_dsl/parser.py:188-195 | the argument list of a call suffix agrees with `Args` |
| DslParser.Parser.ParseParams | aissembly_dsl/parser.py:202-207 | the parameter loop of `parse_lambda` collects the identifiers `Params` collects, stops where it stops and fails where it fails |
| DslParser.Parser.ParseLambda | aissembly_dsl/parser.py:199-211 | `parse_lambda` agrees with `LambdaExpr` |
| DslDesugar.Desugar | aissembly_dsl/desugar.py:19-64 | everything `desugar` returns is free of surface forms: only programs, bindings, expression statements, literals, names, calls and lambdas |
| DslDesugar.DesugarAll | aissembly_dsl/desugar.py:21-31 | the list comprehensions keep the length and give only desugared nodes |
| DslDesugar.DesugarDefined | aissembly_dsl/desugar.py:19-64 | `desugar` succeeds exactly on trees with no `if` statement, `break` or `continue` and with every infix operator in `OP_MAP` |
| DslDesugar.DesugarAllDefined | aissembly_dsl/desugar.py:21-31 | a list desugars exactly when each of its elements does |
| DslDesugar.DesugarFixes | aissembly_dsl/desugar.py:19-31 | a tree with no surface forms comes back unchanged; see also aissembly_dsl/desugar.py:62-63 |
| DslDesugar.DesugarAllFixes | aissembly_dsl/desugar.py:21-31 | the same, over a list |
| DslDesugar.DesugarIdempotent | aissembly_dsl/desugar.py:19-64 | desugaring twice is desugaring once |
| DslDesugar.IfExprBecomesCond | aissembly_dsl/desugar.py:32-43 | `let x = if 1 < 2: 3 else: 4` binds `x` to `cond` applied to three thunks, with the comparison a call of `op.lt` |
| DslDesugar.ForBecomesLoopFor | aissembly_dsl/desugar.py:44-52 | a `for` becomes a call of `loop.for` on the iterable, a lambda of the loop variable and `acc`, and the initial value |
| DslDesugar.UnmappedOperatorFails | aissembly_dsl/desugar.py:33 | an operator outside `OP_MAP` such as `%` raises `KeyError`; see also aissembly_dsl/desugar.py:5-16 |
| CoreIr.Lift | aissembly_dsl/core_ir.py:66-105 | a plain result becomes a returning or raising call outcome |
| CoreIr.RangeItems | aissembly_dsl/evaluator.py:18 | `range(start, stop, step)` holds `start + k * step` at index `k`, and is empty exactly when the start is already past the stop in the step's direction |
| CoreIr.OpCall | aissembly_dsl/core_ir.py:66-105 | an `op` function called with other than two positional arguments raises `TypeError` |
| CoreIr.BreakCall | aissembly_dsl/core_ir.py:57-59 | `ctrl.break_` with at most one argument raises `LoopBreak` carrying that argument or `None` |
| CoreIr.ContinueCall | aissembly_dsl/core_ir.py:61-63 | `ctrl.continue_` raises, and it raises `LoopContinue` exactly when called with no argument |
| CoreIr.LoopFor | aissembly_dsl/core_ir.py:20-34 | the loop of `loop_for` computes `ForFrom` from item 0 |
| CoreIr.LoopWhile | aissembly_dsl/core_ir.py:37-53 | the loop of `loop_while` computes `WhileFrom` from count 0 |
| CoreIr.CondLazy | aissembly_dsl/core_ir.py:16-17 | `cond` calls the test, then exactly one branch: the branch not taken can be replaced by anything, and a raising test is the outcome |
| CoreIr.ForFromFold | aissembly_dsl/core_ir.py:20-34 | while the limit is not reached and the body always returns, `loop_for` from item `idx` continues the left fold |
| CoreIr.ForIsFold | aissembly_dsl/core_ir.py:20-34 | without `max_iter`, a body that always returns makes `loop_for` the left fold of the body over the items, and `init` on no items |
| CoreIr.ForFromLimit | aissembly_dsl/core_ir.py:23-25 | from a fold prefix, `loop_for` with `max_iter = m` raises `LimitExceeded` when item `m` is reached |
| CoreIr.ForMaxIter | aissembly_dsl/core_ir.py:20-34 | with `max_iter = m`, `loop_for` raises `LimitExceeded("max_iter")` when there are more than `m` items and is the plain fold otherwise |
| CoreIr.ForBreakAndContinue | aissembly_dsl/core_ir.py:28-33 | a `LoopBreak(v)` from the body ends `loop_for` with `v`; a `LoopContinue` moves on with the accumulator unchanged |
| CoreIr.ForSumsRange | aissembly_dsl/core_ir.py:20-34 | `loop_for(range(1, 6), lambda i, acc: acc + i, 0)` is 15; see also aissembly_dsl/evaluator.py:18 |
| CoreIr.WhileFromLimit | aissembly_dsl/core_ir.py:41-46 | with the test true, the count at `count` and the limit at `m`, `loop_while` raises `LimitExceeded("max_iter")` |
| CoreIr.WhileMaxIter | aissembly_dsl/core_ir.py:37-53 | a test that stays true runs into `max_iter`: after `m` bodies the loop raises `LimitExceeded("max_iter")` |
| CoreIr.WhileEnds | aissembly_dsl/core_ir.py:41-50 | a false first test returns `init` without running the body; a `LoopBreak(v)` from the first body returns `v` |
| CoreIr.WhileBreakAndContinue | aissembly_dsl/core_ir.py:41-50 | at any count below the limit with the test true, a `LoopBreak(v)` from the body ends `loop_while` with `v`; a `LoopContinue` moves to the next count with the accumulator unchanged |
| CoreIr.RepeatLength | aissembly_dsl/core_ir.py:76-77 | `s * n` has `n` times the length of `s`, and is empty for `n <= 0` |
| CoreIr.ComparisonsAgree | aissembly_dsl/core_ir.py:83-105 | `op.ne` negates `op.eq`; `op.gt` and `op.ge` are `op.lt` and `op.le` with the operands swapped |
| CoreIr.EqualSymmetric | aissembly_dsl/core_ir.py:83-85 | `op.eq` is symmetric |
| CoreIr.OrderTrichotomy | aissembly_dsl/core_ir.py:83-97 | for two numbers or two strings exactly one of `a < b`, `a == b`, `b < a` holds |
| CoreIr.MulRepeats | aissembly_dsl/core_ir.py:75-77 | a string times an integer, on either side, is that many copies of the string |
| DslEvaluator.InitialEnv | aissembly_dsl/evaluator.py:15-25 | the initial env binds exactly the core IR combinators, `range`, `true`, `false`, `none` and the two loop aliases, all as plain values; see also aissembly_dsl/core_ir.py:108-113 |
| DslEvaluator.Resolve | aissembly_dsl/evaluator.py:28-35 | the attribute loop of `resolve` computes `ResolveName` |
| DslEvaluator.EvalArgs | aissembly_dsl/evaluator.py:67 | evaluating the arguments gives one value per argument |
| DslEvaluator.MakeRange | aissembly_dsl/evaluator.py:18 | `range` with one to three integer arguments gives a range with a non-zero step; other argument counts, non-integers and a zero step raise |
| DslEvaluator.Interpreter.constructor | aissembly_dsl/evaluator.py:38-40 | an interpreter starts from `initial_env()` and no boxes |
| DslEvaluator.Interpreter.Evaluate | aissembly_dsl/evaluator.py:38-76 | one top-level `evaluate` call gives the outcome and the new env and boxes that `Exec` specifies |
| DslEvaluator.Run | aissembly_dsl/evaluator.py:38-45 | `evaluate(program)` runs the program from the initial env |
| DslEvaluator.PlainNameLookup | aissembly_dsl/evaluator.py:28-32 | a name without a dot reads its env entry, through the box if mutable, and a missing name raises `KeyError`; see also aissembly_dsl/evaluator.py:63-64 |
| DslEvaluator.DotFree | aissembly_dsl/evaluator.py:29 | a name with no `.` character does not contain the separator |
| DslEvaluator.DottedName | aissembly_dsl/evaluator.py:29 | `a.b` with dot-free parts splits into `[a, b]` |
| DslEvaluator.DottedLookup | aissembly_dsl/evaluator.py:28-35 | `a.b` looks up `a` in the env and then attribute `b` of its value |
| DslEvaluator.AliasesAgree | aissembly_dsl/evaluator.py:22-23 | `loop.for` and `loop_for` resolve to the same combinator, and so do `loop.while` and `loop_while`; `op.add` resolves to the `add` member of `op`; see also aissembly_dsl/core_ir.py:108-113 |
| DslEvaluator.LetBinds | aissembly_dsl/evaluator.py:46-49 | `let` evaluates its expression, and on success binds the name to it (in a new box exactly when `mut`), leaving every other name and box alone; a raising expression leaves the state unchanged |
| DslEvaluator.SetUpdates | aissembly_dsl/evaluator.py:50-56 | `set` on a missing name raises `KeyError`, on a plain binding `RuntimeError("cannot set immutable variable")`; on a box it stores the value in that box and changes nothing else |
| DslEvaluator.BindZip | aissembly_dsl/evaluator.py:71-73 | a call binds each parameter up to the shorter of parameters and arguments, the last binding winning, and leaves every other name as it was in the closure's env |
| DslEvaluator.EvalArgsInOrder | aissembly_dsl/evaluator.py:67 | arguments are evaluated left to right: success means each argument's value sits at its index, and an error is the first argument's that raises |
| DslEvaluator.CalleeFirst | aissembly_dsl/evaluator.py:66-67 | the callee is evaluated before the arguments, so its error is the call's error |
| DslEvaluator.SugarIsUnsupported | aissembly_dsl/evaluator.py:76 | nodes left by the parser but not by `desugar` raise `TypeError` and change nothing |
| DslEvaluator.ProgramValue | aissembly_dsl/evaluator.py:41-45 | an empty program gives `None`; a program gives its last statement's value, running each statement on the state the previous one left, and stops at the first raise |
| DslEvaluator.LateBinding | aissembly_dsl/evaluator.py:69-75 | a lambda reads the env as it is when called: `let f = fn() -> y; let y = 1; f()` gives 1 |
| DslEvaluator.InnerLambdaSeesParameters | aissembly_dsl/evaluator.py:69-75 | an inner lambda sees its maker's parameters: `(fn(x) -> fn() -> x)(7)()` gives 7 |
| DslEvaluator.WhileCall | aissembly_dsl/evaluator.py:65-68 | calling `loop_while` runs the loop with the test and body closures, `init`, and the optional `max_iter` and `timeout_ms`; see also aissembly_dsl/core_ir.py:37-53 |
| DslEvaluator.WhileLimitRaises | aissembly_dsl/core_ir.py:42-43 | `loop_while(fn() -> true, fn(acc) -> acc, 0, 5)` raises `LimitExceeded("max_iter")`; see also tests/test_evaluator.py:24-26 |
| PyStr.LeadingSpaces | aissembly_core/parser.py:438 | the run of leading whitespace: all of it whitespace, and the next character not; see also aissembly_dsl/tokenizer.py:54 |
| PyStr.TrailingSpaces | aissembly_core/parser.py:438 | the run of trailing whitespace: all of it whitespace, and the character before it not; see also aissembly_dsl/tokenizer.py:54 |
| PyStr.Strip | aissembly_core/parser.py:438 | `s.strip()` is a slice of `s` that neither starts nor ends with whitespace, and everything cut off is whitespace; see also aissembly_dsl/tokenizer.py:54 |
| PyStr.StripEmptyIffBlank | aissembly_core/parser.py:438 | `s.strip() == ""` exactly when `s` is all whitespace; see also aissembly_dsl/tokenizer.py:54 |
| PyStr.BreakIndex | aissembly_core/parser.py:438 | the first line break, with no break before it, or the end; see also aissembly_dsl/tokenizer.py:52 |
| PyStr.SplitLines | aissembly_core/parser.py:438 | `s.splitlines()` gives lines with no line break in them, and no lines exactly for the empty string; see also aissembly_dsl/tokenizer.py:52 |
| PyStr.BreakIndexAt | aissembly_dsl/tokenizer.py:52 | a break-free line followed by a break ends at its own length |
| PyStr.SplitLinesOfJoin | aissembly_core/unparser.py:28 | joining break-free lines with newlines and splitting them again gives the lines back; see also aissembly_core/unparser.py:209 |
| PyStr.FindFrom | aissembly_dsl/evaluator.py:29 | the first occurrence at or after `from`, with none before it, or none at all |
| PyStr.NoOccurrenceBefore | aissembly_dsl/evaluator.py:29 | a prefix with no occurrence starting in it does not contain the separator |
| PyStr.SplitOn | aissembly_dsl/evaluator.py:29 | `s.split(sep)` gives at least one piece |
| PyStr.SplitOnPieces | aissembly_dsl/evaluator.py:29 | no piece contains the separator, and there is one piece exactly when the text does not contain it; see also aissembly_core/optimizations/accuracy_opt_passes.py:78 |
| PyStr.JoinSplitOn | aissembly_dsl/evaluator.py:29 | joining the pieces with the separator gives the text back |
| PyStr.DigitChar | aissembly_core/unparser.py:84 | a decimal digit's character is a digit |
| PyStr.NatToString | aissembly_core/unparser.py:84 | `str(n)` is a non-empty run of digits |
| PyStr.NatToStringRoundTrip | aissembly_core/unparser.py:84 | the digits of `str(n)` read back as `n` |
| PyStr.IntToStringRoundTrip | aissembly_core/unparser.py:84 | `int(str(i)) == i`, and `str(i)` is an optional sign followed by digits; see also aissembly_core/parser.py:246-250 |
| PyStr.LessTotal | aissembly_core/unparser.py:191 | any two strings are equal or ordered one way |
| PyStr.LessTransitive | aissembly_core/unparser.py:191 | string order is transitive |
| PyStr.LessIrreflexive | aissembly_core/unparser.py:191 | no string is less than itself |
| PyStr.Insert | aissembly_core/unparser.py:191 | inserting into a sorted list keeps it sorted and adds exactly the new string |
| PyStr.SortStrings | aissembly_core/unparser.py:191 | `sorted(keys)` is a sorted permutation of the keys |
| PyStr.LessEqAntisymmetric | aissembly_core/unparser.py:191 | two strings each at most the other are equal |
| PyStr.SortedUnique | aissembly_core/unparser.py:191 | two sorted lists holding the same strings are equal, so sorting has one result |

## Left out

- The Lark grammar, the LALR parser construction and `TreeIndenter` (aissembly_core/parser.py:123-223) are a foreign library. One `parser.parse(buffer)` call is a function parameter `attempt` that reports incomplete input, a syntax error or the parsed statements, so the builder reductions are modelled one by one and not as a whole parse.
- File and JSON I/O are not modelled: reading the definitions file in both passes, `load_llm_defs`, and the command line in aissembly_core/runtime.py. The passes take the parsed definitions as a list of entries, each with a `name` and an optional `model`. A file that is not a JSON list of such objects raises in `json.loads` or at `item['name']`, and that case is not modelled.
- The placeholder dict `call_llm` returns is modelled as its four entries. The passes as written receive that dict and raise at the first prompt they find (see "## Findings"). The intended passes take a string-valued oracle instead, and every property of the passes other than the as-written lemmas is stated for that oracle.
- aissembly_core/optimizations/integration_opt_passes.py is not part of this model: it reads undefined names and does nothing but I/O and one oracle call.
- `eval_node` (aissembly_core/parser.py:78-89) reads an undefined `ENV`. The context thunks the decomposition pass builds are therefore never forced, and the model records only which step each one wraps.
- Floating point is not modelled:
  - a float literal gives `Unmodelled("float literal")`;
  - true division by a non-zero integer gives `Unmodelled`;
  - division by zero raises `ZeroDivisionError` as in Python.
- `timeout_ms` of `loop_for` and `loop_while` depends on the wall clock. A call that passes one gives `Unmodelled("timeout_ms")`.
- The core executor's evaluation and the DSL closure calls take a `fuel` bound. A `while` loop of the core executor that has not stopped, or a DSL call nested deeper than the bound, ends with `OutOfFuel`. The source has no such bound, and results are stated for enough fuel.
- In the `loop_while` combinator the test is a function of the iteration count, and a loop whose test stays true and which has no `max_iter` is cut short by `fuel` as above.
- The `id()`-based `_seen` set of both walks is not modelled. On the closed AST every node is reached once, and the walks are plain pre-order traversals.
- The in-place assignment `node.value = val` of the accuracy pass is modelled as rebuilding the statement with the new prompt texts. Aliasing between statements cannot arise in a parsed tree.
- AccuracyPass.AccuracyPass: when the pass raises, the prompts it rewrote before the error stay changed in place in the caller's program; the model returns only the error.
- AccuracyPass.AccuracyAsWritten: likewise returns only the error, although the first prompt's `String` already holds the reply dict when the walk raises.
- Python attribute lookup on other values is `Unmodelled`:
  - dunder names;
  - `dict` methods on the `loop` namespace;
  - `mro` on the `op` and `ctrl` classes;
  - any attribute of ints, strings and closures.
- Three builtin cases of the core executor give `Unmodelled`: `mod` with a string left operand, which Python reads as printf-style formatting (`mod("%d", 5)` is `"5"`, `mod("a", 1)` raises `TypeError`); `eq` and `ne` on two lists or two dicts, which Python compares by content (two `call_llm` placeholder dicts, say); and `lt`, `le`, `gt`, `ge` on two lists, which Python compares lexicographically. Formatting needs Python's conversion rules, and content comparison needs equality on closures, which is object identity.
- Calling the `op` or `ctrl` class itself is `Unmodelled`. So is comparing two closures with `==`, which in Python compares object identity.
- `range` values with step 0 never arise, because `range()` rejects a zero step. Comparing or iterating one is therefore `Unmodelled`. A box index outside the store is the same kind of defensive branch.
- `Program`, `Let` and `Set` nested inside an expression (the DSL parser never builds one) give `Unmodelled`. Only top-level statements change the environment.
- The DSL parser's constructor requires a token list that ends with `EOF`, which `tokenize` always produces. A hand-built list without one would make `_peek` run past the end in the source.
- `int()` in the core builder also accepts surrounding whitespace and `_` separators, which grammar tokens never contain. Unicode digits are left out for the same reason.
- DslTokenizer.MatchAt: the `\d` of `TOKEN_RE` is read as `0`–`9`. On a `str` pattern Python's `\d` also matches the other Unicode decimal digits; the model rejects those as unknown characters, since a table of Unicode digits is out of scope.
- `desugar`'s `TypeError` message omits the node's `repr`.
- The `trace` parameters of the combinators are left out. So are `std_ops.py`, `tracing.py`, `errors.py` beyond its `LimitExceeded` error, the `__init__.py` files, and `LazyStr.__repr__`/`__format__`.
- The round trip `parse(unparse(x)) == x` is not stated, because the grammar is not modelled. The unparser's JSON quoting is proved to round-trip through a JSON string decoder.
- Tests that call APIs the shown code lacks, such as parser options, a Python adapter, and list and dict builtins, are not reflected in the model.

## Findings

| source | as written | input that shows it | evidently intended | confidence | as-written member | corrected member |
|---|---|---|---|---|---|---|
| aissembly_core/optimizations/accuracy_opt_passes.py:72-79 | `call_llm` returns its placeholder dict. `'</think>' in val` tests the dict's keys, `node.value = val` stores the dict in the `String`, and the walk then goes into it and yields the `prompt` string of the dict's `kwargs`, on which `+ node.value` raises `AttributeError` | definitions `[{"name": "accuracy_opt_passes"}]` and the program `gen(prompt="hi")` | the reply is the model's text; it is filtered for `</think>` and becomes the new prompt | not executed | AccuracyPass.OnePromptExample | AccuracyPass.StatementEffect |
| aissembly_core/optimizations/decomposition_opt_passes.py:90-98 | `call_llm` returns its placeholder dict, and `val.strip()` raises `AttributeError` on it | definitions `[{"name": "decomposition_opt_passes"}]` and the program `gen(prompt="hi")` | the reply is the model's text, split into one step per non-empty line | not executed | DecompositionPass.OnePromptDecomposed | DecompositionPass.DecompositionPass |
