/** The meaning of each visitor operation as a function of the store (and, for the loop,
    of a fuel bound on the number of body executions). The visitor class proves its
    methods against these functions; the lemmas here and in LoopProperties state what
    the interpreter promises. */
module Semantics {
  import opened Syntax

  /** The variable store: identifier to integer. */
  type Memory = map<string, int>

  /** The value the interpreter reads for `id`: an unset identifier reads as 0. */
  function Lookup(m: Memory, id: string): int
  {
    if id in m then m[id] else 0
  }

  // ---------------------------------------------------------------- condition

  /** -1, 0 or 1 as `d` is negative, zero or positive. */
  function Sign(d: int): int
  {
    if d < 0 then -1 else if d == 0 then 0 else 1
  }

  /** Reference reading of the six operators: the signs of `value - literal` each accepts. */
  function Accepted(op: RelOp): set<int>
    requires !op.OtherRel?
  {
    match op
    case Lt => {-1}
    case Le => {-1, 0}
    case Gt => {1}
    case Ge => {0, 1}
    case Eq => {0}
    case Ne => {-1, 1}
  }

  /** `_evalCondicion`: compares the identifier's value with the literal; an operator
      outside the six is an error and yields no boolean. */
  function Condition(m: Memory, c: Condicion): Result<bool>
  {
    var value := Lookup(m, c.id);
    match c.op
    case Lt => Ok(value < c.num)
    case Le => Ok(value <= c.num)
    case Gt => Ok(value > c.num)
    case Ge => Ok(value >= c.num)
    case Eq => Ok(value == c.num)
    case Ne => Ok(value != c.num)
    case OtherRel(text) => Err(UnknownRelational(text))
  }

  /** An operator outside the six, and only such an operator, is an error that names it;
      otherwise the answer is exactly whether the sign of the stored value (0 if unset)
      minus the literal is one the operator accepts. */
  lemma ConditionMeaning(m: Memory, c: Condicion)
    ensures Condition(m, c).Err? <==> c.op.OtherRel?
    ensures c.op.OtherRel? ==> Condition(m, c) == Err(UnknownRelational(c.op.text))
    ensures !c.op.OtherRel? ==> Condition(m, c) == Ok(Sign(Lookup(m, c.id) - c.num) in Accepted(c.op))
  {
  }

  /** An unset identifier is read exactly as if it were stored with 0, and the answer
      depends on no other key: two stores agreeing on the identifier give the same answer
      (so evaluating twice with no store change in between agrees with itself). */
  lemma ConditionReadsOnlyItsIdentifier(m: Memory, m': Memory, c: Condicion)
    requires Lookup(m, c.id) == Lookup(m', c.id)
    ensures Condition(m, c) == Condition(m', c)
    ensures c.id !in m ==> Condition(m, c) == Condition(m[c.id := 0], c)
  {
  }

  /** The operator that accepts exactly the other signs. */
  function Complement(op: RelOp): (r: RelOp)
    requires !op.OtherRel?
    ensures !r.OtherRel? && Accepted(r) == {-1, 0, 1} - Accepted(op)
  {
    match op
    case Lt => Ge
    case Le => Gt
    case Gt => Le
    case Ge => Lt
    case Eq => Ne
    case Ne => Eq
  }

  /** A condition is false exactly when its complement is true. */
  lemma ComplementNegates(m: Memory, c: Condicion)
    requires !c.op.OtherRel?
    ensures Condition(m, Condicion(c.id, Complement(c.op), c.num)) == Ok(!Condition(m, c).value)
  {
    var s := Sign(Lookup(m, c.id) - c.num);
    assert s in {-1, 0, 1};
  }

  // ---------------------------------------------------------------- init and update

  /** `visitInicializacion`: a hard assignment of the literal. */
  function Initialized(m: Memory, i: Inicializacion): Memory
  {
    m[i.id := i.num]
  }

  /** After initialisation the identifier is present and reads as the literal, whatever it
      held before; every other key keeps its value. */
  lemma InitializedMeaning(m: Memory, i: Inicializacion)
    ensures var r := Initialized(m, i);
      && Lookup(r, i.id) == i.num && r.Keys == m.Keys + {i.id}
      && forall k :: k in m && k != i.id ==> r[k] == m[k]
  {
  }

  /** Store after a step, and the step's value or error. */
  datatype Step<T> = Step(memory: Memory, result: Result<T>)

  /** `visitActualizacion`: an absent identifier is first stored with 0; then `++` adds
      one and `--` subtracts one, and the new value is returned; any other operator is an
      error raised after that insertion. */
  function Updated(m: Memory, a: Actualizacion): Step<int>
  {
    var seeded := if a.id in m then m else m[a.id := 0];
    match a.op
    case Inc => Step(seeded[a.id := seeded[a.id] + 1], Ok(seeded[a.id] + 1))
    case Dec => Step(seeded[a.id := seeded[a.id] - 1], Ok(seeded[a.id] - 1))
    case OtherInc(text) => Step(seeded, Err(UnknownIncrement(text)))
  }

  /** `++` yields the old value (0 if unset) plus one and `--` minus one, and the store then
      maps the identifier to exactly that value and keeps every other key; any other
      operator is an error naming it, and the store's only change is the identifier
      inserted with 0 when it was absent. */
  lemma UpdatedMeaning(m: Memory, a: Actualizacion)
    ensures var r := Updated(m, a);
      && (a.op.Inc? ==> r.result == Ok(Lookup(m, a.id) + 1))
      && (a.op.Dec? ==> r.result == Ok(Lookup(m, a.id) - 1))
      && (r.result.Ok? ==> r.memory == m[a.id := r.result.value])
      && (a.op.OtherInc? ==> r.result == Err(UnknownIncrement(a.op.text)))
      && (a.op.OtherInc? ==> r.memory == if a.id in m then m else m[a.id := 0])
  {
  }

  // ---------------------------------------------------------------- output

  function Clamp(x: int, n: nat): nat
  {
    if x < 0 then 0 else if x > n then n else x
  }

  /** JavaScript's `String.prototype.substring`: both bounds are clamped into [0, |s|]
      and swapped when the start lies after the end. */
  function Substring(s: string, start: int, end: int): string
  {
    var a, b := Clamp(start, |s|), Clamp(end, |s|);
    if a <= b then s[a..b] else s[b..a]
  }

  /** `visitSalida`: the emitted line is the literal with one leading and one trailing
      character removed; a one-character literal comes back whole (the bounds 1 and 0
      are swapped) and the empty literal stays empty. */
  function Stripped(cadena: string): (r: string)
    ensures |cadena| >= 2 ==> r == cadena[1..|cadena| - 1]
    ensures |cadena| >= 2 ==> |r| == |cadena| - 2
    ensures |cadena| == 1 ==> r == cadena
    ensures |cadena| == 0 ==> r == []
  {
    Substring(cadena, 1, |cadena| - 1)
  }

  /** Stripping undoes quoting with any pair of delimiters. */
  lemma StrippedUnquotes(text: string, open: char, close: char)
    ensures Stripped([open] + text + [close]) == text
  {
    var q := [open] + text + [close];
    assert q[1..|q| - 1] == text;
  }

  // ---------------------------------------------------------------- body

  /** The break signal, as a value rather than an exception. */
  datatype Signal = Normal | Break

  /** What a body run emits and how it ends. */
  datatype BodyOutcome = BodyOutcome(lines: seq<string>, signal: Signal)

  /** The number of statements before the first `break` (`|body|` when there is none). */
  function BreakIndex(body: seq<Instr>): (k: nat)
    ensures k <= |body|
    ensures forall i :: 0 <= i < k ==> body[i].Salida?
    ensures k < |body| ==> body[k].Terminar?
  {
    if body == [] || body[0].Terminar? then 0 else 1 + BreakIndex(body[1..])
  }

  /** The line a statement would print on its own (a `break` prints nothing). */
  function Line(stmt: Instr): string
  {
    match stmt
    case Salida(cadena) => Stripped(cadena)
    case Terminar => ""
  }

  /** Reference reading of a run of statements: one line per statement, in order. */
  function Printed(stmts: seq<Instr>): (r: seq<string>)
    ensures |r| == |stmts|
  {
    if stmts == [] then [] else [Line(stmts[0])] + Printed(stmts[1..])
  }

  /** `visitSentencia` / `visitSalida` / `visitTerminar`: the statements before the first
      `break` emit their stripped literals in source order; reaching `break` stops the
      body and signals it. */
  function BodyRun(body: seq<Instr>): BodyOutcome
  {
    if body == [] then BodyOutcome([], Normal)
    else match body[0]
      case Terminar => BodyOutcome([], Break)
      case Salida(cadena) =>
        var rest := BodyRun(body[1..]);
        BodyOutcome([Stripped(cadena)] + rest.lines, rest.signal)
  }

  /** A body signals break exactly when it contains a `break`, and it prints the line of
      each statement before the first one, in source order. */
  lemma {:induction false} BodyRunMeaning(body: seq<Instr>)
    ensures BodyRun(body).signal == Break <==> BreakIndex(body) < |body|
    ensures BodyRun(body).lines == Printed(body[..BreakIndex(body)])
    decreases |body|
  {
    if body != [] && body[0].Salida? {
      BodyRunMeaning(body[1..]);
      PrintedPrefix(body, BreakIndex(body[1..]));
    }
  }

  /** The lines of a non-empty prefix: its first statement's, then those of the rest. */
  lemma PrintedPrefix(s: seq<Instr>, k: nat)
    requires k < |s|
    ensures Printed(s[..k + 1]) == [Line(s[0])] + Printed(s[1..][..k])
  {
    assert s[..k + 1][1..] == s[1..][..k];
  }

  // ---------------------------------------------------------------- loop

  /** How a loop ends: its condition became false, its body signalled break, an operator
      error, or the fuel bound on body executions ran out while the condition held. */
  datatype Exit = ConditionFalse | BreakTaken | Failed(error: Error) | OutOfFuel

  datatype Run = Run(exit: Exit, memory: Memory, emitted: seq<string>)

  /** The error a loop can fail with, given its operators. */
  predicate LoopError(l: Bucle, e: Error)
  {
    (l.cond.op.OtherRel? && e == UnknownRelational(l.cond.op.text))
    || (l.upd.op.OtherInc? && e == UnknownIncrement(l.upd.op.text))
  }

  /** `visitBucle` from its first check on: check, body, update, repeated; a break ends the
      loop before that iteration's update; an error ends it where it is raised. At most
      `fuel` bodies run. */
  function Iterate(m: Memory, out: seq<string>, l: Bucle, fuel: nat): Run
    decreases fuel
  {
    match Condition(m, l.cond)
    case Err(e) => Run(Failed(e), m, out)
    case Ok(holds) =>
      if !holds then Run(ConditionFalse, m, out)
      else if fuel == 0 then Run(OutOfFuel, m, out)
      else
        var b := BodyRun(l.body);
        if b.signal == Break then Run(BreakTaken, m, out + b.lines)
        else
          var u := Updated(m, l.upd);
          if u.result.Err? then Run(Failed(u.result.error), u.memory, out + b.lines)
          else Iterate(u.memory, out + b.lines, l, fuel - 1)
  }

  /** `visitBucle`: the initialisation once, then the iterations. */
  function RunBucle(m: Memory, out: seq<string>, l: Bucle, fuel: nat): Run
  {
    Iterate(Initialized(m, l.init), out, l, fuel)
  }

  // ---------------------------------------------------------------- program

  /** How a program ends; a break never reaches this level. */
  datatype Outcome = Completed | Aborted(error: Error) | FuelExhausted

  datatype ProgramRun = ProgramRun(outcome: Outcome, memory: Memory, emitted: seq<string>)

  /** `visitInstrucciones`: the loops in order against one store; the first error (or
      exhausted fuel) stops the program, a break only ends its own loop. */
  function RunInstrucciones(m: Memory, out: seq<string>, prog: seq<Bucle>, fuel: nat): ProgramRun
    decreases |prog|
  {
    if prog == [] then ProgramRun(Completed, m, out)
    else
      var r := RunBucle(m, out, prog[0], fuel);
      match r.exit
      case Failed(e) => ProgramRun(Aborted(e), r.memory, r.emitted)
      case OutOfFuel => ProgramRun(FuelExhausted, r.memory, r.emitted)
      case _ => RunInstrucciones(r.memory, r.emitted, prog[1..], fuel)
  }
}
