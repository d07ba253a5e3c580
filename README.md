# A verified model of the `instrucciones` for-loop interpreter

The interpreter runs programs made of C-style `for` loops:

```
for (x = 0; x < 3; x++) { printf("hi"); }
```

Each loop has an initialisation (`id = numero`), a relational condition
(`id op numero` with `<`, `<=`, `>`, `>=`, `==`, `!=`), an update (`id++` or `id--`)
and a body of `printf` statements that may end with `break`. A visitor walks the parse
tree. It keeps one flat variable store, `memory`, in which an unset identifier reads
as 0. It runs the loops in order, and each loop does init, then check → body → update
repeatedly. A `break` ends the loop and skips that iteration's update. An unknown
operator aborts the run.

The project has four modules:

- `Syntax` (`syntax.dfy`) holds the tree as datatypes. The operators are closed
  enumerations. Each has one extra case (`OtherRel`, `OtherInc`) that carries the
  text of any other symbol, so that the interpreter's error paths can be expressed.
  `ParseRel` and `ParseInc` read an operator's text the way the interpreter's
  switches do, so a tree built from source text never carries a known symbol in the
  extra case. The two errors and a `Result` type are here too.
- `Semantics` (`semantics.dfy`) gives the meaning of every visitor operation as a
  function of the store. `Condition`, `Initialized` and `Updated` cover the store
  operations. `Stripped` is the `printf` line, written with JavaScript's `substring`
  clamp-and-swap rule over the characters of a Dafny string. `BodyRun` runs a body. `Iterate` and `RunBucle` run a loop under a fuel bound,
  and `RunInstrucciones` runs the list of loops. Break is a `Signal` value, and how a
  loop ends is an `Exit` value (`ConditionFalse`, `BreakTaken`, `Failed(error)`,
  `OutOfFuel`). A program's `Outcome` has no break case, so a break cannot escape its
  loop. The functions are plain definitions. What each one means is stated by a
  `…Meaning` lemma beside it, compared with a reference reading where there is one
  (the operators by the signs they accept, a body by the lines of its statements).
- `Visitor` (`visitor.dfy`) holds the class `CustomInstruccionesVisitor`. Its fields
  are `memory` (the store) and `emitted` (the printed lines). Each `visit…` method
  updates these fields in place and is proved equal to its `Semantics` function.
  `VisitBucle` is a `while` loop and `VisitInstrucciones` is a `for` loop over the
  instructions.
- `LoopProperties` (`properties.dfy`) proves what the interpreter promises about
  bodies, loops and programs. This includes three concrete programs: counting to
  three, breaking at once, and never running.

Three behaviours of the code are worth noting:

- The program is a list of loops run in order against one store, not exactly one
  loop.
- A one-character `printf` literal is emitted whole, because `substring(1, 0)` swaps
  its bounds. Here "character" means one character of the model's strings (see
  "## Left out").
- An unknown update operator still leaves its identifier inserted with 0 before the
  error is raised.

## Model

Each row names the member whose contract states the property. The definitions those
contracts are about model these lines of `CustominstruccionesVisitor.js`:

- `Semantics.Lookup`: line 63.
- `Semantics.Condition`: lines 59-80.
- `Semantics.Initialized`: lines 84-91.
- `Semantics.Updated`: lines 94-112.
- `Semantics.Substring`: line 133.
- `Semantics.BodyRun`: lines 115-127.
- `Semantics.Iterate`: lines 40-54.
- `Semantics.RunBucle`: lines 35-56.
- `Semantics.RunInstrucciones`: lines 17-23.

| member | source | states |
|---|---|---|
| `Visitor.CustomInstruccionesVisitor.constructor` | CustominstruccionesVisitor.js:5-8 | a new visitor starts with an empty store and nothing printed |
| `Syntax.ParseRel` | CustominstruccionesVisitor.js:61-79 | the six symbols of the switch read as their cases, and exactly the other texts read as `OtherRel`; the text is recovered from the result |
| `Syntax.ParseInc` | CustominstruccionesVisitor.js:96-108 | `++` and `--` read as their cases, and exactly the other texts read as `OtherInc`; the text is recovered from the result |
| `Syntax.ParseKnownOperators` | CustominstruccionesVisitor.js:65-77 | printing a known operator and reading it back gives the same operator, so no known symbol is ever treated as unknown |
| `Semantics.ConditionMeaning` | CustominstruccionesVisitor.js:59-80 | an unknown operator, and only that, is an error naming the operator; otherwise the answer is whether the sign of (stored value, unset read as 0) minus the literal is one the operator accepts, a reference reading of the six operators by accepted signs |
| `Semantics.ConditionReadsOnlyItsIdentifier` | CustominstruccionesVisitor.js:60-63 | the condition depends only on its identifier's value: stores agreeing there give the same answer, so two evaluations with no store change agree; an unset identifier behaves as one stored with 0 |
| `Semantics.Complement` | CustominstruccionesVisitor.js:65-77 | each known operator has a complement that accepts exactly the other signs |
| `Semantics.ComplementNegates` | CustominstruccionesVisitor.js:65-77 | a condition is false exactly when the same comparison with the complementary operator is true |
| `Visitor.CustomInstruccionesVisitor.EvalCondicion` | CustominstruccionesVisitor.js:59-81 | the method's switch gives exactly `Condition` on the current store, agrees with the accepted-signs reading, and changes nothing |
| `Semantics.InitializedMeaning` | CustominstruccionesVisitor.js:84-90 | after initialisation the identifier is present and reads as the literal, overwriting any old value; every other key keeps its value and no key is added besides the identifier |
| `Visitor.CustomInstruccionesVisitor.VisitInicializacion` | CustominstruccionesVisitor.js:84-91 | the store becomes `Initialized` of the old store, nothing is printed, and the returned value is the literal, which the store now holds |
| `Semantics.UpdatedMeaning` | CustominstruccionesVisitor.js:94-112 | `++` returns the old value (0 if absent) plus 1 and `--` minus 1, and the store maps the identifier to that value with every other key kept; an unknown operator is an error naming it, and the store's only change is the identifier inserted with 0 if absent |
| `Visitor.CustomInstruccionesVisitor.VisitActualizacion` | CustominstruccionesVisitor.js:94-112 | the new store and result are those of `Updated`, nothing is printed, and a returned value is what the store now holds |
| `Semantics.Stripped` | CustominstruccionesVisitor.js:130-135 | for a literal of length n >= 2 the line is the literal without its first and last character, of length n-2; a one-character literal comes back whole, the empty one stays empty |
| `Semantics.StrippedUnquotes` | CustominstruccionesVisitor.js:131-133 | stripping undoes quoting with any delimiter pair |
| `Visitor.CustomInstruccionesVisitor.VisitSalida` | CustominstruccionesVisitor.js:130-136 | prints and returns exactly the stripped literal, appending one line and leaving the store alone |
| `Visitor.CustomInstruccionesVisitor.VisitTerminar` | CustominstruccionesVisitor.js:139-142 | `break` raises the break signal |
| `Semantics.BreakIndex` | CustominstruccionesVisitor.js:115-127 | the position of the first `break` (or the body length): every statement before it is a `printf`, and the statement there is a `break` |
| `Semantics.BodyRunMeaning` | CustominstruccionesVisitor.js:115-142 | a body signals break exactly when it contains a `break`, and it prints the stripped literals of exactly the statements before the first `break`, in source order, as the reference reading `Printed` lists them |
| `Visitor.CustomInstruccionesVisitor.VisitSentencia` | CustominstruccionesVisitor.js:115-127 | the recursive walk appends exactly `BodyRun`'s lines, returns its signal, and leaves the store unchanged |
| `LoopProperties.BreakTruncates` | CustominstruccionesVisitor.js:115-142 | with `printf`s before a `break`, only those are printed, in order, the break is signalled, and statements after the `break` make no difference |
| `LoopProperties.GrammarBodyRun` | CustominstruccionesVisitor.js:115-127 | for a body of the grammar's shape, every `printf` prints, and the body breaks exactly when its last statement is `break` |
| `LoopProperties.IterateExits` | CustominstruccionesVisitor.js:40-54 | the iterations only extend the output and change no key but the update's identifier; a normal exit leaves the condition false, a break exit needs a body that breaks, and a failure is one of the loop's own operator errors |
| `LoopProperties.IterateContinues` | CustominstruccionesVisitor.js:40-54 | when the condition holds, the body does not break and the update succeeds, the loop continues from the updated store with the body's lines added |
| `LoopProperties.RunBucleExits` | CustominstruccionesVisitor.js:35-56 | a whole loop changes only its init and update identifiers, only extends the output, exits normally only with its condition false, breaks only with a breaking body, and fails only with its own operator errors |
| `Visitor.CustomInstruccionesVisitor.VisitBucle` | CustominstruccionesVisitor.js:35-56 | the `while` loop's exit, final store and output are exactly `RunBucle`'s |
| `LoopProperties.FuelMonotone` | CustominstruccionesVisitor.js:40 | a run that ends before the fuel bound ends identically under any larger bound, so the bound never changes a terminating run |
| `LoopProperties.EmittedRepeatsBody` | CustominstruccionesVisitor.js:40-54 | a loop's output is k whole copies of its body's lines, with k at most the number of bodies allowed to run |
| `LoopProperties.ZeroIterations` | CustominstruccionesVisitor.js:37-40 | a condition false at the first check runs no body, prints nothing, and leaves only the initialisation in the store |
| `LoopProperties.BreakSkipsUpdate` | CustominstruccionesVisitor.js:43-53 | a body that breaks ends the loop in its first iteration, with the store exactly as checked: the update is skipped |
| `LoopProperties.UnknownRelationalHalts` | CustominstruccionesVisitor.js:37-40 | an unknown relational operator fails at the first check, after the initialisation and before any output |
| `LoopProperties.UnknownIncrementHalts` | CustominstruccionesVisitor.js:41-53 | an unknown update operator fails after the first body that does not break; the error propagates unchanged and the only store change is the identifier seeded with 0 |
| `LoopProperties.CountingStep` | CustominstruccionesVisitor.js:40-53 | one iteration of a counting loop moves its identifier by exactly one step in the operator's direction and adds the body's lines |
| `LoopProperties.CountUp` | CustominstruccionesVisitor.js:35-56 | `x < n; x++` with a body that does not break runs exactly n - x bodies and prints that many copies, ending with x == n when x started below n; from x >= n it runs none and leaves x unchanged |
| `LoopProperties.CountDown` | CustominstruccionesVisitor.js:35-56 | `x > n; x--` with a body that does not break runs exactly x - n bodies and prints that many copies, ending with x == n when x started above n; from x <= n it runs none and leaves x unchanged |
| `LoopProperties.CountsToThree` | CustominstruccionesVisitor.js:35-56 | `for (x=0; x<3; x++) { printf("hi"); }` prints `hi` three times and ends with x == 3 |
| `LoopProperties.BreaksAtOnce` | CustominstruccionesVisitor.js:35-56 | `for (x=5; x>0; x--) { printf("go"); break; }` prints `go` once and ends with x == 5 |
| `LoopProperties.NeverRuns` | CustominstruccionesVisitor.js:35-56 | `for (x=0; x<0; x++) { printf("never"); }` prints nothing and ends with x == 0 |
| `LoopProperties.NormalExitNegates` | CustominstruccionesVisitor.js:40 | a loop that ends normally leaves the complementary comparison true on the final store: the `while` test at that point is false |
| `LoopProperties.RunInstruccionesExits` | CustominstruccionesVisitor.js:17-23 | a program only extends the output, and an abort carries an operator error of one of the program's loops |
| `Visitor.CustomInstruccionesVisitor.VisitInstrucciones` | CustominstruccionesVisitor.js:17-23 | the `for` loop over the instructions produces exactly `RunInstrucciones`'s outcome, store and output |
| `LoopProperties.RunInstruccionesAppend` | CustominstruccionesVisitor.js:17-23 | running two lists of loops in turn equals running their concatenation; the second starts from the first's store and output unless the first stopped the program |
| `LoopProperties.ProgramFuelMonotone` | CustominstruccionesVisitor.js:17-23 | a program that completes or aborts under some fuel bound ends identically, with the same store and output, under any larger bound |
| `LoopProperties.BreakDoesNotEscape` | CustominstruccionesVisitor.js:44-49 | a loop ended by `break` hands on to the next loop exactly as a normal exit would |

## Left out

- `index.js` is not part of this model. It covers lexing and parsing, the token table
  and parse-tree printing, reading the input files, the syntax-error listener and
  console input, which are all I/O glue around foreign parser code.
- The generated parser and its base visitor are not part of this model. Tree access
  through `ctx.…().getText()` becomes the fields of the `Syntax` datatypes.
  `visitPrograma` (lines 11-14) only delegates, and `visitInstruccion` (lines 26-32)
  only ever sees a loop, so a program is modelled directly as a `seq<Bucle>`.
- The chained `sentencia` rule (a `printf` followed by an optional further
  `sentencia`) is flattened into a statement sequence. `GrammarBody` states the
  grammar's shape, but the executor also accepts statements after a `break`.
- The `console.log` debug lines (89, 110, 134) are not modelled. Only the printed
  text of each `printf` is modelled, as lines appended to `emitted`, without the
  `Salida:` prefix.
- Numbers are not modelled as JavaScript floating point. `Number(getText())` and the
  stored values are unbounded integers, so NaN, non-integral literals and precision
  loss are left out.
- Identifiers that name inherited object properties (`toString`, `constructor`, …)
  are not modelled. The source's `in` and `||` tests see those inherited properties
  on its plain-object store. The model's store is a plain map.
- Strings are sequences of Unicode scalar values, not JavaScript's UTF-16 code units.
  `Stripped`'s lengths, and its one-character and empty cases, count scalar values.
  A literal holding a character outside the Basic Multilingual Plane therefore strips
  differently: JavaScript gives `""` for a lone such character, and the model returns
  it whole. Literals the grammar produces start and end with an ASCII quote, and on
  those the two agree.
- Exception messages are not modelled. The break exception becomes the `Signal`
  value `Break`. The two thrown errors become `Error` constructors that carry the
  operator text, without the message strings.
- VisitBucle: a loop whose condition never becomes false does not run forever. It
  stops with `OutOfFuel` after `fuel` bodies, and `VisitInstrucciones` then reports
  `FuelExhausted`. `FuelMonotone` shows that the bound changes no loop run that ends
  within it.
- VisitInstrucciones: a program with a loop whose condition never becomes false does
  not run forever. It reports `FuelExhausted` once that loop has run `fuel` bodies.
  `ProgramFuelMonotone` shows that the bound changes nothing for a program that
  completes or aborts within it.
- IterateExits: what it states about a loop that does not terminate covers only the
  bodies run before the fuel bound, for the same reason. `RunBucleExits`,
  `EmittedRepeatsBody` and `RunInstruccionesExits` are bounded in the same way.
