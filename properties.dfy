/** What the interpreter promises about whole bodies, loops and programs, proved about the
    functions of Semantics (and hence, through the methods' postconditions, about the
    visitor object). */
module LoopProperties {
  import opened Syntax
  import opened Semantics

  // ---------------------------------------------------------------- body

  /** Nothing after a `break` is emitted: when the first `break` is statement `k`, the
      lines are those of the statements strictly before it, in order, and whatever follows
      it makes no difference. */
  lemma BreakTruncates(body: seq<Instr>, k: nat)
    requires k < |body| && body[k].Terminar?
    requires forall i :: 0 <= i < k ==> body[i].Salida?
    ensures BodyRun(body) == BodyOutcome(Printed(body[..k]), Break)
    ensures BodyRun(body) == BodyRun(body[..k + 1])
  {
    assert BreakIndex(body) == k;
    BodyRunMeaning(body);
    var short := body[..k + 1];
    assert short[k].Terminar?;
    assert BreakIndex(short) == k;
    assert short[..k] == body[..k];
    BodyRunMeaning(short);
  }

  /** A body of the grammar's shape prints every `printf` and breaks exactly when it ends
      with `break`. */
  lemma GrammarBodyRun(body: seq<Instr>)
    requires GrammarBody(body)
    ensures BodyRun(body).signal == Break <==> body[|body| - 1].Terminar?
    ensures body[|body| - 1].Salida? ==> BodyRun(body).lines == Printed(body)
    ensures body[|body| - 1].Terminar? ==> BodyRun(body).lines == Printed(body[..|body| - 1])
  {
    BodyRunMeaning(body);
    if body[|body| - 1].Terminar? {
      assert BreakIndex(body) == |body| - 1;
    } else {
      assert BreakIndex(body) == |body|;
      assert body[..|body|] == body;
    }
  }

  // ---------------------------------------------------------------- loop

  /** How a loop can end: a normal exit leaves the condition false, a break exit needs a
      body that breaks, a failure is one of the loop's own operator errors, the output is
      only ever extended, and the only key the iterations change is the update's
      identifier. */
  lemma {:induction false} IterateExits(m: Memory, out: seq<string>, l: Bucle, fuel: nat)
    ensures var r := Iterate(m, out, l, fuel);
      && (r.exit.ConditionFalse? ==> Condition(r.memory, l.cond) == Ok(false))
      && (r.exit.BreakTaken? ==> BodyRun(l.body).signal == Break)
      && (r.exit.Failed? ==> LoopError(l, r.exit.error))
      && out <= r.emitted
      && r.memory - {l.upd.id} == m - {l.upd.id}
    decreases fuel
  {
    var c := Condition(m, l.cond);
    if c.Ok? && c.value && fuel > 0 && BodyRun(l.body).signal == Normal {
      var u := Updated(m, l.upd);
      UpdatedMeaning(m, l.upd);
      assert u.memory - {l.upd.id} == m - {l.upd.id};
      if u.result.Ok? {
        IterateContinues(m, out, l, fuel);
        IterateExits(u.memory, out + BodyRun(l.body).lines, l, fuel - 1);
        assert out <= out + BodyRun(l.body).lines;
      }
    }
  }

  /** The same for a whole loop, counting its initialisation: only the init and update
      identifiers change. */
  lemma RunBucleExits(m: Memory, out: seq<string>, l: Bucle, fuel: nat)
    ensures var r := RunBucle(m, out, l, fuel);
      && (r.exit.ConditionFalse? ==> Condition(r.memory, l.cond) == Ok(false))
      && (r.exit.BreakTaken? ==> BodyRun(l.body).signal == Break)
      && (r.exit.Failed? ==> LoopError(l, r.exit.error))
      && out <= r.emitted
      && r.memory - {l.init.id, l.upd.id} == m - {l.init.id, l.upd.id}
  {
    var m0 := Initialized(m, l.init);
    var r := Iterate(m0, out, l, fuel);
    IterateExits(m0, out, l, fuel);
    assert r.memory - {l.init.id, l.upd.id} == (r.memory - {l.upd.id}) - {l.init.id};
    assert m - {l.init.id, l.upd.id} == (m0 - {l.init.id}) - {l.upd.id};
  }

  /** Fuel only bounds the run: a run that ends before its fuel runs out ends the same way,
      with the same store and output, under any larger fuel. */
  lemma {:induction false} FuelMonotone(m: Memory, out: seq<string>, l: Bucle, fuel: nat, more: nat)
    requires fuel <= more
    requires !Iterate(m, out, l, fuel).exit.OutOfFuel?
    ensures Iterate(m, out, l, more) == Iterate(m, out, l, fuel)
    decreases fuel
  {
    var c := Condition(m, l.cond);
    if c.Ok? && c.value && fuel > 0 {
      var b := BodyRun(l.body);
      var u := Updated(m, l.upd);
      if b.signal == Normal && u.result.Ok? {
        FuelMonotone(u.memory, out + b.lines, l, fuel - 1, more - 1);
      }
    }
  }

  /** One full iteration: the condition holds, the body ends normally and the update
      succeeds, so the loop goes on from the updated store with the body's lines added. */
  lemma IterateContinues(m: Memory, out: seq<string>, l: Bucle, fuel: nat)
    requires fuel > 0 && Condition(m, l.cond) == Ok(true)
    requires BodyRun(l.body).signal == Normal && Updated(m, l.upd).result.Ok?
    ensures Iterate(m, out, l, fuel)
         == Iterate(Updated(m, l.upd).memory, out + BodyRun(l.body).lines, l, fuel - 1)
  {
  }

  /** `k` copies of the same lines. */
  function Repeat(lines: seq<string>, k: nat): seq<string>
  {
    if k == 0 then [] else lines + Repeat(lines, k - 1)
  }

  /** Every iteration emits the same lines (the body never reads the store), so a loop's
      output is `k` whole copies of its body's lines, at most one per unit of fuel; a
      break ends the loop right after its copy. */
  lemma {:induction false} EmittedRepeatsBody(m: Memory, out: seq<string>, l: Bucle, fuel: nat) returns (k: nat)
    ensures k <= fuel && Iterate(m, out, l, fuel).emitted == out + Repeat(BodyRun(l.body).lines, k)
    decreases fuel
  {
    var lines := BodyRun(l.body).lines;
    var c := Condition(m, l.cond);
    if c.Ok? && c.value && fuel > 0 {
      var u := Updated(m, l.upd);
      if BodyRun(l.body).signal == Normal && u.result.Ok? {
        IterateContinues(m, out, l, fuel);
        var j := EmittedRepeatsBody(u.memory, out + lines, l, fuel - 1);
        k := j + 1;
        assert Repeat(lines, k) == lines + Repeat(lines, j);
      } else {
        k := 1;
        assert Repeat(lines, 1) == lines + [];
      }
    } else {
      k := 0;
    }
  }

  /** A condition false at the first check: no body runs, nothing is emitted, and the
      store holds only the initialisation. */
  lemma ZeroIterations(m: Memory, out: seq<string>, l: Bucle, fuel: nat)
    requires Condition(Initialized(m, l.init), l.cond) == Ok(false)
    ensures RunBucle(m, out, l, fuel) == Run(ConditionFalse, m[l.init.id := l.init.num], out)
  {
  }

  /** A body that breaks ends the loop on the iteration it runs in, and that iteration's
      update never happens: the store is the one the condition was checked against. */
  lemma BreakSkipsUpdate(m: Memory, out: seq<string>, l: Bucle, fuel: nat)
    requires Condition(m, l.cond) == Ok(true) && fuel > 0
    requires BodyRun(l.body).signal == Break
    ensures Iterate(m, out, l, fuel) == Run(BreakTaken, m, out + BodyRun(l.body).lines)
  {
  }

  /** An unknown relational operator fails at the first check: after the initialisation,
      before any output. */
  lemma UnknownRelationalHalts(m: Memory, out: seq<string>, l: Bucle, fuel: nat)
    requires l.cond.op.OtherRel?
    ensures RunBucle(m, out, l, fuel)
         == Run(Failed(UnknownRelational(l.cond.op.text)), Initialized(m, l.init), out)
  {
    var m0 := Initialized(m, l.init);
    ConditionMeaning(m0, l.cond);
    assert Condition(m0, l.cond) == Err(UnknownRelational(l.cond.op.text));
  }

  /** An unknown update operator fails after the first body that does not break; the
      error propagates unchanged and the store's only change is the identifier seeded
      with 0. */
  lemma UnknownIncrementHalts(m: Memory, out: seq<string>, l: Bucle, fuel: nat)
    requires l.upd.op.OtherInc?
    requires Condition(m, l.cond) == Ok(true) && fuel > 0
    requires BodyRun(l.body).signal == Normal
    ensures Iterate(m, out, l, fuel)
         == Run(Failed(UnknownIncrement(l.upd.op.text)),
                if l.upd.id in m then m else m[l.upd.id := 0],
                out + BodyRun(l.body).lines)
  {
  }

  /** One iteration of a counting loop whose condition holds: the identifier moves one
      step (`step` is +1 for `++`, -1 for `--`) and the body's lines are added. */
  lemma CountingStep(m: Memory, out: seq<string>, l: Bucle, fuel: nat, step: int)
    requires l.cond.id == l.upd.id && fuel > 0
    requires (l.upd.op == Inc && step == 1) || (l.upd.op == Dec && step == -1)
    requires Condition(m, l.cond) == Ok(true) && BodyRun(l.body).signal == Normal
    ensures Iterate(m, out, l, fuel)
         == Iterate(m[l.cond.id := Lookup(m, l.cond.id) + step], out + BodyRun(l.body).lines, l, fuel - 1)
  {
    var u := Updated(m, l.upd);
    UpdatedMeaning(m, l.upd);
    assert u.result == Ok(Lookup(m, l.upd.id) + step);
    assert u.memory == m[l.cond.id := Lookup(m, l.cond.id) + step];
    IterateContinues(m, out, l, fuel);
  }

  /** Storing twice under one key keeps only the second value. */
  lemma StoreTwice(m: Memory, id: string, a: int, b: int)
    ensures m[id := a][id := b] == m[id := b]
  {
  }

  /** One more copy in front. */
  lemma RepeatUnfold(lines: seq<string>, out: seq<string>, k: nat)
    ensures out + lines + Repeat(lines, k) == out + Repeat(lines, k + 1)
  {
  }

  /** A loop `x < n; x++` over a body that does not break runs its body once for each value
      from x's start up to n, and ends with x == n (or untouched, if it started at n or
      beyond). */
  lemma {:induction false} CountUp(m: Memory, out: seq<string>, l: Bucle, fuel: nat)
    requires l.cond.op == Lt && l.upd.op == Inc && l.cond.id == l.upd.id
    requires BodyRun(l.body).signal == Normal
    requires fuel >= l.cond.num - Lookup(m, l.cond.id)
    ensures var v, n := Lookup(m, l.cond.id), l.cond.num;
      Iterate(m, out, l, fuel)
      == Run(ConditionFalse, if v < n then m[l.cond.id := n] else m,
             out + Repeat(BodyRun(l.body).lines, if v < n then n - v else 0))
    decreases fuel
  {
    var id, v, n := l.cond.id, Lookup(m, l.cond.id), l.cond.num;
    var lines := BodyRun(l.body).lines;
    if v < n {
      CountingStep(m, out, l, fuel, 1);
      CountUp(m[id := v + 1], out + lines, l, fuel - 1);
      StoreTwice(m, id, v + 1, n);
      RepeatUnfold(lines, out, n - (v + 1));
    }
  }

  /** The mirror image: a loop `x > n; x--` over a body that does not break runs its body
      once for each value from x's start down to n, and ends with x == n. */
  lemma {:induction false} CountDown(m: Memory, out: seq<string>, l: Bucle, fuel: nat)
    requires l.cond.op == Gt && l.upd.op == Dec && l.cond.id == l.upd.id
    requires BodyRun(l.body).signal == Normal
    requires fuel >= Lookup(m, l.cond.id) - l.cond.num
    ensures var v, n := Lookup(m, l.cond.id), l.cond.num;
      Iterate(m, out, l, fuel)
      == Run(ConditionFalse, if v > n then m[l.cond.id := n] else m,
             out + Repeat(BodyRun(l.body).lines, if v > n then v - n else 0))
    decreases fuel
  {
    var id, v, n := l.cond.id, Lookup(m, l.cond.id), l.cond.num;
    var lines := BodyRun(l.body).lines;
    if v > n {
      CountingStep(m, out, l, fuel, -1);
      CountDown(m[id := v - 1], out + lines, l, fuel - 1);
      StoreTwice(m, id, v - 1, n);
      RepeatUnfold(lines, out, (v - 1) - n);
    }
  }

  /** A loop that ends normally leaves its condition's complement true: the final store
      satisfies the negated `while` test. */
  lemma NormalExitNegates(m: Memory, out: seq<string>, l: Bucle, fuel: nat)
    ensures var r := RunBucle(m, out, l, fuel);
      r.exit.ConditionFalse? ==>
        && !l.cond.op.OtherRel?
        && Condition(r.memory, Condicion(l.cond.id, Complement(l.cond.op), l.cond.num)) == Ok(true)
  {
    var r := RunBucle(m, out, l, fuel);
    RunBucleExits(m, out, l, fuel);
    if r.exit.ConditionFalse? {
      ConditionMeaning(r.memory, l.cond);
      ComplementNegates(r.memory, l.cond);
    }
  }

  // ---------------------------------------------------------------- scenarios

  /** `for (x=0; x<3; x++) { printf("hi"); }` prints `hi` three times and ends with x == 3. */
  lemma CountsToThree()
    ensures RunBucle(map[], [], Bucle(Inicializacion("x", 0), Condicion("x", Lt, 3),
                                      Actualizacion("x", Inc), [Salida("\"hi\"")]), 3)
         == Run(ConditionFalse, map["x" := 3], ["hi", "hi", "hi"])
  {
    var l := Bucle(Inicializacion("x", 0), Condicion("x", Lt, 3), Actualizacion("x", Inc), [Salida("\"hi\"")]);
    assert Stripped("\"hi\"") == "hi";
    assert BodyRun(l.body) == BodyOutcome(["hi"], Normal);
    CountUp(map["x" := 0], [], l, 3);
    assert Repeat(["hi"], 3) == ["hi", "hi", "hi"];
  }

  /** `for (x=5; x>0; x--) { printf("go"); break; }` prints `go` once and ends with x == 5:
      the update never runs. */
  lemma BreaksAtOnce()
    ensures RunBucle(map[], [], Bucle(Inicializacion("x", 5), Condicion("x", Gt, 0),
                                      Actualizacion("x", Dec), [Salida("\"go\""), Terminar]), 10)
         == Run(BreakTaken, map["x" := 5], ["go"])
  {
    var body := [Salida("\"go\""), Terminar];
    assert Stripped("\"go\"") == "go";
    BreakTruncates(body, 1);
    assert body[..1] == [Salida("\"go\"")];
  }

  /** `for (x=0; x<0; x++) { printf("never"); }` prints nothing and ends with x == 0. */
  lemma NeverRuns()
    ensures RunBucle(map[], [], Bucle(Inicializacion("x", 0), Condicion("x", Lt, 0),
                                      Actualizacion("x", Inc), [Salida("\"never\"")]), 0)
         == Run(ConditionFalse, map["x" := 0], [])
  {
  }

  // ---------------------------------------------------------------- program

  /** Running two lists of loops one after the other is running their concatenation: the
      second list starts from the store and output the first leaves, unless the first
      stopped the program. */
  lemma {:induction false} RunInstruccionesAppend(m: Memory, out: seq<string>, p: seq<Bucle>, q: seq<Bucle>, fuel: nat)
    ensures var r := RunInstrucciones(m, out, p, fuel);
      RunInstrucciones(m, out, p + q, fuel)
      == if r.outcome.Completed? then RunInstrucciones(r.memory, r.emitted, q, fuel) else r
    decreases |p|
  {
    if p == [] {
      assert p + q == q;
    } else {
      assert (p + q)[0] == p[0];
      assert (p + q)[1..] == p[1..] + q;
      var r := RunBucle(m, out, p[0], fuel);
      if !r.exit.Failed? && !r.exit.OutOfFuel? {
        RunInstruccionesAppend(r.memory, r.emitted, p[1..], q, fuel);
      }
    }
  }

  /** A program only extends the output, and it aborts only with an operator error of
      one of its own loops. */
  lemma {:induction false} RunInstruccionesExits(m: Memory, out: seq<string>, prog: seq<Bucle>, fuel: nat)
    ensures var r := RunInstrucciones(m, out, prog, fuel);
      && out <= r.emitted
      && (r.outcome.Aborted? ==> exists i :: 0 <= i < |prog| && LoopError(prog[i], r.outcome.error))
    decreases |prog|
  {
    if prog != [] {
      var r := RunBucle(m, out, prog[0], fuel);
      RunBucleExits(m, out, prog[0], fuel);
      if !r.exit.Failed? && !r.exit.OutOfFuel? {
        var rest := RunInstrucciones(r.memory, r.emitted, prog[1..], fuel);
        RunInstruccionesExits(r.memory, r.emitted, prog[1..], fuel);
        if rest.outcome.Aborted? {
          var j :| 0 <= j < |prog[1..]| && LoopError(prog[1..][j], rest.outcome.error);
          assert LoopError(prog[j + 1], rest.outcome.error);
        }
      }
    }
  }

  /** Fuel only bounds a program as it bounds each loop: a program that completes or
      aborts under some fuel ends the same way, with the same store and output, under any
      larger fuel. */
  lemma {:induction false} ProgramFuelMonotone(m: Memory, out: seq<string>, p: seq<Bucle>, fuel: nat, more: nat)
    requires fuel <= more
    requires !RunInstrucciones(m, out, p, fuel).outcome.FuelExhausted?
    ensures RunInstrucciones(m, out, p, more) == RunInstrucciones(m, out, p, fuel)
    decreases |p|
  {
    if p != [] {
      var r := RunBucle(m, out, p[0], fuel);
      FuelMonotone(Initialized(m, p[0].init), out, p[0], fuel, more);
      if !r.exit.Failed? {
        ProgramFuelMonotone(r.memory, r.emitted, p[1..], fuel, more);
      }
    }
  }

  /** A break ends only its own loop: the next loop runs from the store and output the
      broken loop left, as it would after a normal exit. */
  lemma BreakDoesNotEscape(m: Memory, out: seq<string>, l: Bucle, rest: seq<Bucle>, fuel: nat)
    requires RunBucle(m, out, l, fuel).exit.BreakTaken?
    ensures var r := RunBucle(m, out, l, fuel);
      RunInstrucciones(m, out, [l] + rest, fuel) == RunInstrucciones(r.memory, r.emitted, rest, fuel)
  {
    assert ([l] + rest)[1..] == rest;
  }
}
