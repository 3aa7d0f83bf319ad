/** Depth expressions as trees: their direct meaning, and their text with the
    fewest parentheses the grammar's precedence and associativity allow. */
module DepthPrinter {
  import opened DepthGrammar

  datatype AOp = Plus | Minus | Times | Over | Modulo

  datatype AExp =
    | Num(n: int)
    | Var(key: Key, text: string)
    | Pos(e: AExp)
    | Neg(e: AExp)
    | Min(text: string, l: AExp, r: AExp)
    | Max(text: string, l: AExp, r: AExp)
    | Bin(op: AOp, l: AExp, r: AExp)

  datatype BExp =
    | Where(place: Place, text: string)
    | Not(b: BExp)
    | And(x: BExp, y: BExp)
    | Or(x: BExp, y: BExp)
    | Rel(rel: RelOp, l: AExp, r: AExp)

  // ------------------------------------------------------------ direct meaning

  function EvalA(e: AExp, topo: Topology): int {
    match e
    case Num(n) => n
    case Var(k, _) => KeyValue(k, topo)
    case Pos(x) => EvalA(x, topo)
    case Neg(x) => -EvalA(x, topo)
    case Min(_, l, r) => MinOf(EvalA(l, topo), EvalA(r, topo))
    case Max(_, l, r) => MaxOf(EvalA(l, topo), EvalA(r, topo))
    case Bin(op, l, r) => Apply(op, EvalA(l, topo), EvalA(r, topo))
  }

  function Apply(op: AOp, a: int, b: int): int {
    match op
    case Plus => a + b
    case Minus => a - b
    case Times => Product(a, b)
    case Over => Quotient(a, b)
    case Modulo => Remainder(a, b)
  }

  /** No division by zero anywhere in the tree. */
  predicate DefA(e: AExp, topo: Topology) {
    match e
    case Num(_) => true
    case Var(_, _) => true
    case Pos(x) => DefA(x, topo)
    case Neg(x) => DefA(x, topo)
    case Min(_, l, r) => DefA(l, topo) && DefA(r, topo)
    case Max(_, l, r) => DefA(l, topo) && DefA(r, topo)
    case Bin(op, l, r) =>
      DefA(l, topo) && DefA(r, topo) && ((op == Over || op == Modulo) ==> EvalA(r, topo) != 0)
  }

  predicate EvalB(b: BExp, topo: Topology) {
    match b
    case Where(p, _) => PlaceValue(p, topo)
    case Not(x) => !EvalB(x, topo)
    case And(x, y) => EvalB(x, topo) && EvalB(y, topo)
    case Or(x, y) => EvalB(x, topo) || EvalB(y, topo)
    case Rel(op, l, r) => Holds(op, EvalA(l, topo), EvalA(r, topo))
  }

  predicate DefB(b: BExp, topo: Topology) {
    match b
    case Where(_, _) => true
    case Not(x) => DefB(x, topo)
    case And(x, y) => DefB(x, topo) && DefB(y, topo)
    case Or(x, y) => DefB(x, topo) && DefB(y, topo)
    case Rel(_, l, r) => DefA(l, topo) && DefA(r, topo)
  }

  /** The text is the word, in capital or small letters. */
  predicate Spells(text: string, word: string) {
    |text| == |word| && forall i :: 0 <= i < |text| ==> Lower(text[i]) == word[i]
  }

  /** Literals are `int` values, and keywords are spelled right. */
  predicate LiteralsA(e: AExp) {
    match e
    case Num(n) => INT_MIN <= n <= INT_MAX
    case Var(k, t) => Spells(t, KeyText(k))
    case Pos(x) => LiteralsA(x)
    case Neg(x) => LiteralsA(x)
    case Min(t, l, r) => Spells(t, "min") && LiteralsA(l) && LiteralsA(r)
    case Max(t, l, r) => Spells(t, "max") && LiteralsA(l) && LiteralsA(r)
    case Bin(_, l, r) => LiteralsA(l) && LiteralsA(r)
  }

  predicate LiteralsB(b: BExp) {
    match b
    case Where(p, t) => Spells(t, PlaceText(p))
    case Not(x) => LiteralsB(x)
    case And(x, y) => LiteralsB(x) && LiteralsB(y)
    case Or(x, y) => LiteralsB(x) && LiteralsB(y)
    case Rel(_, l, r) => LiteralsA(l) && LiteralsA(r)
  }

  // ------------------------------------------------------------------ printing
  // Every printer puts its text in front of `tail`; `w` is the blank text put in
  // front of each token.

  predicate Blank(w: string) {
    forall i :: 0 <= i < |w| ==> IsSpace(w[i])
  }

  function Token(w: string, t: string, tail: string): string {
    w + (t + tail)
  }

  function DigitsText(n: nat): string {
    if n < 10 then [(48 + n) as char] else DigitsText(n / 10) + [(48 + n % 10) as char]
  }

  function NumText(n: int): string {
    if n < 0 then "-" + DigitsText(-n) else DigitsText(n)
  }

  function OpText(op: AOp): string {
    match op
    case Plus => "+"
    case Minus => "-"
    case Times => "*"
    case Over => "/"
    case Modulo => "%"
  }

  /** 0 for `integer`, 1 for `multiplicative`, 2 for `additive`. */
  function OpLevel(op: AOp): nat {
    if op == Plus || op == Minus then 2 else 1
  }

  function PrintA(e: AExp, level: nat, w: string, tail: string): string
    requires level <= 2
    decreases e, 2 - level
  {
    match e
    case Num(n) => Token(w, NumText(n), tail)
    case Var(_, t) => Token(w, t, tail)
    case Pos(x) => Token(w, "+", PrintA(x, 0, w, tail))
    case Neg(x) => Token(w, "-", PrintA(x, 0, w, tail))
    case Min(t, l, r) =>
      Token(w, t, Token(w, "(", PrintA(l, 2, w, Token(w, ",", PrintA(r, 2, w, Token(w, ")", tail))))))
    case Max(t, l, r) =>
      Token(w, t, Token(w, "(", PrintA(l, 2, w, Token(w, ",", PrintA(r, 2, w, Token(w, ")", tail))))))
    case Bin(op, l, r) =>
      if OpLevel(op) <= level then
        PrintA(l, OpLevel(op), w, Token(w, OpText(op), PrintA(r, OpLevel(op) - 1, w, tail)))
      else
        Token(w, "(", PrintA(e, 2, w, Token(w, ")", tail)))
  }

  /** 0 for `boolean`, 1 for `logical_and`, 2 for `logical_or`. */
  function PrintB(b: BExp, level: nat, w: string, tail: string): string
    requires level <= 2
    decreases b, 2 - level
  {
    match b
    case Where(_, t) => Token(w, t, tail)
    case Not(x) => Token(w, "!", PrintB(x, 0, w, tail))
    case Rel(op, l, r) => PrintA(l, 2, w, Token(w, RelText(op), PrintA(r, 2, w, tail)))
    case And(x, y) =>
      if level >= 1 then PrintB(x, 1, w, Token(w, "&&", PrintB(y, 0, w, tail)))
      else Token(w, "(", PrintB(b, 2, w, Token(w, ")", tail)))
    case Or(x, y) =>
      if level >= 2 then PrintB(x, 2, w, Token(w, "||", PrintB(y, 1, w, tail)))
      else Token(w, "(", PrintB(b, 2, w, Token(w, ")", tail)))
  }

  /** The whole text; `end` is trailing blank text. */
  function Print(b: BExp, w: string, end: string): string {
    PrintB(b, 2, w, end)
  }
}
