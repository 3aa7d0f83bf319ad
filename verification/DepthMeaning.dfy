/** What the texts of depth expressions say of a node, written out: every operator and
    keyword by its own text, every number by its size, every division by its remainder. */
module DepthMeaning {
  import opened Wrappers
  import opened DepthGrammar
  import opened DepthPrinter
  import opened DepthRoundTrip
  import opened DepthSelection

  // ---------------------------------------------------------------- comparisons

  /** Two printed expressions with something in between. */
  function Compared(l: AExp, text: string, r: AExp, w: string, end: string): string {
    PrintA(l, 2, w, Token(w, text, PrintA(r, 2, w, end)))
  }

  lemma RelationSays(op: RelOp, l: AExp, r: AExp, w: string, end: string, topo: Topology)
    requires LiteralsA(l) && LiteralsA(r) && Blank(w) && Blank(end)
    ensures Says(Compared(l, RelText(op), r, w, end), topo) == Some(Holds(op, EvalA(l, topo), EvalA(r, topo)))
  {
    PrintedParses(Rel(op, l, r), w, end, Env(topo, false, false));
  }

  /** A comparison is accepted, and true exactly of the nodes at which the two sides'
      values compare as its text says. */
  lemma ComparisonsSay(l: AExp, r: AExp, w: string, end: string, topo: Topology)
    requires LiteralsA(l) && LiteralsA(r) && Blank(w) && Blank(end)
    ensures var a, b := EvalA(l, topo), EvalA(r, topo);
            && Says(Compared(l, "==", r, w, end), topo) == Some(a == b)
            && Says(Compared(l, "!=", r, w, end), topo) == Some(a != b)
            && Says(Compared(l, "<", r, w, end), topo) == Some(a < b)
            && Says(Compared(l, "<=", r, w, end), topo) == Some(a <= b)
            && Says(Compared(l, ">", r, w, end), topo) == Some(a > b)
            && Says(Compared(l, ">=", r, w, end), topo) == Some(a >= b)
  {
    hide Says, Compared, EvalA;
    forall op: RelOp
      ensures Says(Compared(l, RelText(op), r, w, end), topo) == Some(Holds(op, EvalA(l, topo), EvalA(r, topo)))
    {
      RelationSays(op, l, r, w, end, topo);
    }
    assert RelText(Eq) == "==" && RelText(Ne) == "!=" && RelText(Lt) == "<";
    assert RelText(Le) == "<=" && RelText(Gt) == ">" && RelText(Ge) == ">=";
  }

  // ----------------------------------------------------------------- arithmetic

  function Magnitude(x: int): nat { if x < 0 then -x else x }

  /** Division that truncates: the remainder is smaller than the divisor and has the sign
      of the dividend, unless it is zero. */
  ghost predicate Divides(a: int, b: int, q: int, m: int) {
    a == q * b + m && Magnitude(m) < Magnitude(b) && (m == 0 || (m < 0) == (a < 0))
  }

  lemma QuotientDivides(a: int, b: int)
    requires b != 0
    ensures Divides(a, b, Quotient(a, b), Remainder(a, b))
  {
    var x, y := Magnitude(a), Magnitude(b);
    Unsigned(x, y);
    Signs(x / y, y);
    QuotientSigns(a, b);
  }

  lemma QuotientSigns(a: int, b: int)
    requires b != 0
    ensures var q := Magnitude(a) / Magnitude(b); Quotient(a, b) == if (a < 0) == (b < 0) then q else -q
  {
    if a == 0 { assert 0 / Magnitude(b) == 0; }
  }

  lemma Unsigned(x: int, y: int)
    requires x >= 0 && y > 0
    ensures x == (x / y) * y + x % y && 0 <= x % y < y
  {
  }

  lemma Signs(q: int, y: int)
    ensures (-q) * y == -(q * y) && q * (-y) == -(q * y) && (-q) * (-y) == q * y
  {
  }

  /** There is only one such quotient. */
  lemma DividesOnce(a: int, b: int, q: int, m: int, q': int, m': int)
    requires b != 0 && Divides(a, b, q, m) && Divides(a, b, q', m')
    ensures q == q' && m == m'
  {
    Distribute(q, q', b);
    RemaindersClose(a, b, m, m');
    if q != q' { Larger(q - q', b); }
  }

  lemma Distribute(q: int, q': int, b: int)
    ensures (q - q') * b == q * b - q' * b
  {
  }

  lemma RemaindersClose(a: int, b: int, m: int, m': int)
    requires Magnitude(m) < Magnitude(b) && (m == 0 || (m < 0) == (a < 0))
    requires Magnitude(m') < Magnitude(b) && (m' == 0 || (m' < 0) == (a < 0))
    ensures Magnitude(m' - m) < Magnitude(b)
  {
  }

  lemma Larger(d: int, b: int)
    requires d != 0
    ensures Magnitude(d * b) >= Magnitude(b)
  {
    Grows(Magnitude(d), Magnitude(b));
    assert d * b == Magnitude(d) * Magnitude(b) || d * b == -(Magnitude(d) * Magnitude(b));
  }

  lemma Grows(d: nat, b: nat)
    requires d > 0
    ensures d * b >= b
  {
    assert d * b == (d - 1) * b + b && (d - 1) * b >= 0;
  }

  /** The text of an operation, compared with the text of a value. */
  function Operation(l: AExp, text: string, level: nat, r: AExp, x: AExp, w: string, end: string): string
    requires 0 < level <= 2
  {
    PrintA(l, level, w, Token(w, text, PrintA(r, level - 1, w, Token(w, "==", PrintA(x, 2, w, end)))))
  }

  lemma OperationSays(op: AOp, l: AExp, r: AExp, x: AExp, w: string, end: string, topo: Topology)
    requires LiteralsA(l) && LiteralsA(r) && LiteralsA(x) && Blank(w) && Blank(end)
    ensures Says(Operation(l, OpText(op), OpLevel(op), r, x, w, end), topo) ==
            Some(Apply(op, EvalA(l, topo), EvalA(r, topo)) == EvalA(x, topo))
  {
    var e := Bin(op, l, r);
    ComparisonsSay(e, x, w, end, topo);
    var tail := Token(w, "==", PrintA(x, 2, w, end));
    var right := PrintA(r, OpLevel(op) - 1, w, tail);
    assert PrintA(e, 2, w, tail) == PrintA(l, OpLevel(op), w, Token(w, OpText(op), right));
  }

  /** An operation equals a value exactly if that is the sum, the difference, the product,
      the truncated quotient or its remainder; the last two for a divisor other than zero. */
  lemma OperationsSay(l: AExp, r: AExp, x: AExp, w: string, end: string, topo: Topology)
    requires LiteralsA(l) && LiteralsA(r) && LiteralsA(x) && Blank(w) && Blank(end)
    ensures var a, b, v := EvalA(l, topo), EvalA(r, topo), EvalA(x, topo);
            && Says(Operation(l, "+", 2, r, x, w, end), topo) == Some(v == a + b)
            && Says(Operation(l, "-", 2, r, x, w, end), topo) == Some(v == a - b)
            && Says(Operation(l, "*", 1, r, x, w, end), topo) == Some(v == a * b)
            && (b != 0 ==> Says(Operation(l, "/", 1, r, x, w, end), topo) == Some(exists m :: Divides(a, b, v, m)))
            && (b != 0 ==> Says(Operation(l, "%", 1, r, x, w, end), topo) == Some(exists q :: Divides(a, b, q, v)))
  {
    var a, b, v := EvalA(l, topo), EvalA(r, topo), EvalA(x, topo);
    hide Says, Operation, EvalA, Quotient, Remainder, Divides;
    OperationSays(Plus, l, r, x, w, end, topo);
    OperationSays(Minus, l, r, x, w, end, topo);
    OperationSays(Times, l, r, x, w, end, topo);
    OperationSays(Over, l, r, x, w, end, topo);
    OperationSays(Modulo, l, r, x, w, end, topo);
    if b != 0 {
      QuotientDivides(a, b);
      forall m | Divides(a, b, v, m) ensures v == Quotient(a, b) {
        DividesOnce(a, b, v, m, Quotient(a, b), Remainder(a, b));
      }
      forall q | Divides(a, b, q, v) ensures v == Remainder(a, b) {
        DividesOnce(a, b, q, v, Quotient(a, b), Remainder(a, b));
      }
    }
  }

  /** `min` and `max`, spelled in any letters, equal a value exactly if that is one of the
      operands and bounds both. */
  lemma ExtremaSay(t: string, u: string, l: AExp, r: AExp, x: AExp, w: string, end: string, topo: Topology)
    requires Spells(t, "min") && Spells(u, "max")
    requires LiteralsA(l) && LiteralsA(r) && LiteralsA(x) && Blank(w) && Blank(end)
    ensures var a, b, v := EvalA(l, topo), EvalA(r, topo), EvalA(x, topo);
            && Says(Compared(Min(t, l, r), "==", x, w, end), topo) == Some((v == a || v == b) && v <= a && v <= b)
            && Says(Compared(Max(u, l, r), "==", x, w, end), topo) == Some((v == a || v == b) && v >= a && v >= b)
  {
    hide Says, Compared;
    ComparisonsSay(Min(t, l, r), x, w, end, topo);
    ComparisonsSay(Max(u, l, r), x, w, end, topo);
  }

  // ------------------------------------------------------------------- keywords

  lemma KeySays(k: Key, t: string, x: AExp, w: string, end: string, topo: Topology)
    requires Spells(t, KeyText(k)) && LiteralsA(x) && Blank(w) && Blank(end)
    ensures Says(Token(w, t, Token(w, "==", PrintA(x, 2, w, end))), topo) ==
            Some(KeyValue(k, topo) == EvalA(x, topo))
  {
    hide Says;
    ComparisonsSay(Var(k, t), x, w, end, topo);
  }

  /** What a keyword stands for, by its text; capital and small letters are the same. */
  ghost function Named(t: string, topo: Topology): Option<int> {
    if Spells(t, "rank") then Some(topo.rank)
    else if Spells(t, "numchildren") then Some(topo.numChildren)
    else if Spells(t, "numsiblings") then Some(topo.numSiblings)
    else if Spells(t, "numdescendants") then Some(topo.numDescendants)
    else if Spells(t, "numleafdescendants") then Some(topo.numLeafDescendants)
    else if Spells(t, "rootdistance") then Some(topo.rootDistance)
    else if Spells(t, "maxleafdistance") then Some(topo.maxLeafDistance)
    else None
  }

  lemma KeywordsSay(t: string, x: AExp, w: string, end: string, topo: Topology)
    requires Named(t, topo).Some? && LiteralsA(x) && Blank(w) && Blank(end)
    ensures Says(Token(w, t, Token(w, "==", PrintA(x, 2, w, end))), topo) ==
            Some(Named(t, topo).value == EvalA(x, topo))
  {
    hide Says, Spells, EvalA, LiteralsA;
    var k :=
      if Spells(t, "rank") then Rank else if Spells(t, "numchildren") then NumChildren
      else if Spells(t, "numsiblings") then NumSiblings else if Spells(t, "numdescendants") then NumDescendants
      else if Spells(t, "numleafdescendants") then NumLeafDescendants
      else if Spells(t, "rootdistance") then RootDistance else MaxLeafDistance;
    KeySays(k, t, x, w, end, topo);
  }

  /** The place that a text names: the nodes it selects. */
  ghost function Placed(t: string, topo: Topology): Option<bool> {
    if Spells(t, "fe") then Some(topo.isFrontend)
    else if Spells(t, "be") then Some(topo.isBackend)
    else if Spells(t, "cp") then Some(!topo.isFrontend && !topo.isBackend)
    else if Spells(t, "cp:top") then Some(!topo.isFrontend && !topo.isBackend && topo.rootDistance == 1)
    else if Spells(t, "cp:middle") then
      Some(!topo.isFrontend && !topo.isBackend && topo.rootDistance != 0 && !topo.onLeafCP)
    else if Spells(t, "cp:bottom") then Some(!topo.isFrontend && !topo.isBackend && topo.onLeafCP)
    else None
  }

  lemma PlacesSay(t: string, w: string, end: string, topo: Topology)
    requires Placed(t, topo).Some? && Blank(w) && Blank(end)
    ensures Says(Token(w, t, end), topo) == Placed(t, topo)
  {
    hide Spells;
    var p :=
      if Spells(t, "fe") then Fe else if Spells(t, "be") then Be else if Spells(t, "cp") then Cp
      else if Spells(t, "cp:top") then CpTop else if Spells(t, "cp:middle") then CpMiddle else CpBottom;
    PrintedParses(Where(p, t), w, end, Env(topo, false, false));
  }

  // -------------------------------------------------------- characters and numbers

  /** The characters that are skipped, and the letters that are the same. */
  lemma Characters(k: nat)
    requires k < 26
    ensures forall c: char :: IsSpace(c) <==> c in {' ', '\t', '\n', '\r', 11 as char, 12 as char}
    ensures Lower((65 + k) as char) == (97 + k) as char == Lower((97 + k) as char)
  {
  }

  /** Numbers are decimal, and those that fit into 32 bits with a sign are read. */
  lemma NumbersRead(n: int, w: string, tail: string)
    requires Blank(w) && (tail == [] || !IsDigit(tail[0]))
    ensures IntP(Token(w, NumText(n), tail)) == if -2147483648 <= n <= 2147483647 then Some((n, tail)) else None
  {
    NumTextSkips(n, w, tail);
    var s := Token(w, NumText(n), tail);
    if n < 0 { NumberReads(s, -n, "-", tail); } else { NumberReads(s, n, "", tail); }
  }

  lemma DecimalDigits(d: string, k: nat)
    requires k < 10
    ensures NatOf([]) == 0 && NatOf(d + [(48 + k) as char]) == 10 * NatOf(d) + k
  {
    NatOfSnoc(d, (48 + k) as char);
  }
}
