/** The tree-walking interpreter itself: an object whose `memory` field is the variable
    store and whose `emitted` field collects the lines the `printf` statements print.
    Every method is proved against the function in Semantics that gives its meaning. */
module Visitor {
  import opened Syntax
  import opened Semantics

  class CustomInstruccionesVisitor {
    /** The variable store, shared by every rule the visitor evaluates. */
    var memory: Memory
    /** The lines printed so far, oldest first. */
    var emitted: seq<string>

    constructor ()
      ensures memory == map[] && emitted == []
    {
      memory := map[];
      emitted := [];
    }

    /** `_evalCondicion`: reads the store and changes nothing. */
    method EvalCondicion(c: Condicion) returns (r: Result<bool>)
      ensures r == Condition(memory, c)
      ensures r.Ok? ==> r.value == (Sign(Lookup(memory, c.id) - c.num) in Accepted(c.op))
    {
      var value := if c.id in memory then memory[c.id] else 0;
      match c.op {
        case Lt => r := Ok(value < c.num);
        case Le => r := Ok(value <= c.num);
        case Gt => r := Ok(value > c.num);
        case Ge => r := Ok(value >= c.num);
        case Eq => r := Ok(value == c.num);
        case Ne => r := Ok(value != c.num);
        case OtherRel(text) => r := Err(UnknownRelational(text));
      }
    }

    /** `visitInicializacion`: stores the literal and returns the stored value. */
    method VisitInicializacion(i: Inicializacion) returns (v: int)
      modifies this
      ensures memory == Initialized(old(memory), i) && emitted == old(emitted)
      ensures v == i.num && Lookup(memory, i.id) == v
    {
      memory := memory[i.id := i.num];
      v := memory[i.id];
    }

    /** `visitActualizacion`: seeds an absent identifier with 0, then steps it by one. */
    method VisitActualizacion(a: Actualizacion) returns (r: Result<int>)
      modifies this
      ensures Step(memory, r) == Updated(old(memory), a) && emitted == old(emitted)
      ensures r.Ok? ==> Lookup(memory, a.id) == r.value
    {
      if a.id !in memory {
        memory := memory[a.id := 0];
      }
      match a.op {
        case Inc =>
          memory := memory[a.id := memory[a.id] + 1];
        case Dec =>
          memory := memory[a.id := memory[a.id] - 1];
        case OtherInc(text) =>
          return Err(UnknownIncrement(text));
      }
      r := Ok(memory[a.id]);
    }

    /** `visitSalida`: prints the literal without its delimiters and returns that line. */
    method VisitSalida(cadena: string) returns (line: string)
      modifies this
      ensures line == Stripped(cadena)
      ensures emitted == old(emitted) + [line] && memory == old(memory)
    {
      line := Substring(cadena, 1, |cadena| - 1);
      emitted := emitted + [line];
    }

    /** `visitTerminar`: raises the break signal. */
    method VisitTerminar() returns (sig: Signal)
      ensures sig == Break
    {
      sig := Break;
    }

    /** `visitSentencia`: runs the statements in order, stopping at the first break. */
    method VisitSentencia(body: seq<Instr>) returns (sig: Signal)
      modifies this
      ensures emitted == old(emitted) + BodyRun(body).lines && memory == old(memory)
      ensures sig == BodyRun(body).signal
      decreases |body|
    {
      if body == [] {
        return Normal;
      }
      match body[0] {
        case Terminar =>
          sig := VisitTerminar();
        case Salida(cadena) =>
          var line := VisitSalida(cadena);
          sig := VisitSentencia(body[1..]);
      }
    }

    /** `visitBucle`: initialise, then check / body / update until the condition is false,
        the body breaks (skipping that update), an operator error is raised, or `fuel`
        bodies have run and the condition still holds. */
    method VisitBucle(l: Bucle, fuel: nat) returns (exit: Exit)
      modifies this
      ensures Run(exit, memory, emitted) == RunBucle(old(memory), old(emitted), l, fuel)
    {
      ghost var goal := RunBucle(memory, emitted, l, fuel);
      var v := VisitInicializacion(l.init);
      var left := fuel;
      while true
        invariant Iterate(memory, emitted, l, left) == goal
        decreases left
      {
        var holds := EvalCondicion(l.cond);
        if holds.Err? {
          return Failed(holds.error);
        }
        if !holds.value {
          return ConditionFalse;
        }
        if left == 0 {
          return OutOfFuel;
        }
        var sig := VisitSentencia(l.body);
        if sig == Break {
          return BreakTaken;
        }
        var u := VisitActualizacion(l.upd);
        if u.Err? {
          return Failed(u.error);
        }
        left := left - 1;
      }
    }

    /** `visitInstrucciones`: the loops in order; an error leaves the remaining loops
        unrun, a break ends only its own loop. */
    method VisitInstrucciones(prog: seq<Bucle>, fuel: nat) returns (outcome: Outcome)
      modifies this
      ensures ProgramRun(outcome, memory, emitted) == RunInstrucciones(old(memory), old(emitted), prog, fuel)
    {
      ghost var goal := RunInstrucciones(memory, emitted, prog, fuel);
      for i := 0 to |prog|
        invariant RunInstrucciones(memory, emitted, prog[i..], fuel) == goal
      {
        var exit := VisitBucle(prog[i], fuel);
        match exit {
          case Failed(e) => return Aborted(e);
          case OutOfFuel => return FuelExhausted;
          case _ =>
        }
      }
      outcome := Completed;
    }
  }
}
