/** The parsed tree of an `instrucciones` program: a list of `for` loops, each with an
    initialisation, a relational condition, an increment/decrement update and a body of
    `printf` statements optionally ended by `break`. Operators are closed enumerations
    with one extra case that carries the text of any symbol outside the grammar, so that
    the interpreter's error paths stay expressible. */
module Syntax {

  /** `<`, `<=`, `>`, `>=`, `==`, `!=`; OtherRel stands for any other operator text. */
  datatype RelOp = Lt | Le | Gt | Ge | Eq | Ne | OtherRel(text: string)

  /** `++`, `--`; OtherInc stands for any other operator text. */
  datatype IncOp = Inc | Dec | OtherInc(text: string)

  /** The text of a relational operator as it appears in the program. */
  function RelText(op: RelOp): string
  {
    match op
    case Lt => "<"
    case Le => "<="
    case Gt => ">"
    case Ge => ">="
    case Eq => "=="
    case Ne => "!="
    case OtherRel(text) => text
  }

  /** Reading an operator's text: the six known symbols become their cases, and every
      other text, and only such a text, becomes `OtherRel`; reading then printing gives
      the text back. */
  function ParseRel(text: string): (r: RelOp)
    ensures r.OtherRel? <==> text !in {"<", "<=", ">", ">=", "==", "!="}
    ensures RelText(r) == text
  {
    if text == "<" then Lt
    else if text == "<=" then Le
    else if text == ">" then Gt
    else if text == ">=" then Ge
    else if text == "==" then Eq
    else if text == "!=" then Ne
    else OtherRel(text)
  }

  /** The text of an increment operator as it appears in the program. */
  function IncText(op: IncOp): string
  {
    match op
    case Inc => "++"
    case Dec => "--"
    case OtherInc(text) => text
  }

  /** `++` and `--` become their cases; every other text, and only such a text, becomes
      `OtherInc`; reading then printing gives the text back. */
  function ParseInc(text: string): (r: IncOp)
    ensures r.OtherInc? <==> text !in {"++", "--"}
    ensures IncText(r) == text
  {
    if text == "++" then Inc
    else if text == "--" then Dec
    else OtherInc(text)
  }

  /** Printing a known operator and reading it back gives the operator; a text that
      spells a known symbol therefore never reaches the error cases once read. */
  lemma ParseKnownOperators(rel: RelOp, inc: IncOp)
    ensures !rel.OtherRel? ==> ParseRel(RelText(rel)) == rel
    ensures !inc.OtherInc? ==> ParseInc(IncText(inc)) == inc
  {
  }

  /** `identificador '=' numero` */
  datatype Inicializacion = Inicializacion(id: string, num: int)

  /** `identificador operador_relacional numero` */
  datatype Condicion = Condicion(id: string, op: RelOp, num: int)

  /** `identificador operador_incremento` */
  datatype Actualizacion = Actualizacion(id: string, op: IncOp)

  /** One statement of a loop body: `printf(cadena);` (the literal keeps its delimiters)
      or `break;`. */
  datatype Instr = Salida(cadena: string) | Terminar

  /** `for '(' inicializacion ';' condicion ';' actualizacion ')' '{' sentencia '}'`;
      the chained `sentencia` rule is flattened into the statement sequence `body`. */
  datatype Bucle = Bucle(init: Inicializacion, cond: Condicion, upd: Actualizacion, body: seq<Instr>)

  /** The shape the grammar gives a body: at least one statement, and `break` only last. */
  predicate GrammarBody(body: seq<Instr>)
  {
    |body| > 0 && forall i :: 0 <= i < |body| - 1 ==> body[i].Salida?
  }

  /** The two failures the interpreter raises: an operator outside its switch. */
  datatype Error = UnknownRelational(op: string) | UnknownIncrement(op: string)

  datatype Result<T> = Ok(value: T) | Err(error: Error)
}
