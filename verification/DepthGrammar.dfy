/** The grammar of filter depth expressions, read the way Boost.Spirit reads it:
    ordered choice with backtracking over characters, blanks skipped before each
    token, and semantic actions that assign the rule's closure value. */
module DepthGrammar {
  import opened Wrappers

  datatype Topology = Topology(
    isFrontend: bool, isBackend: bool, onLeafCP: bool,
    rank: int, numChildren: int, numSiblings: int, numDescendants: int,
    numLeafDescendants: int, rootDistance: int, maxLeafDistance: int)

  /** Two reference readings beside the code's own: `scoped`, in which an alternative
      that fails takes its assignments back, while the code's actions are not undone;
      and `plain`, in which `max` is one more alternative of `integer`, joined by `|`. */
  datatype Env = Env(topo: Topology, scoped: bool, plain: bool)

  /** What one attempt leaves behind. `value` is the closure value afterwards,
      also after a failure; `trap` records a division by zero anywhere so far. */
  datatype Out<V> = Out(ok: bool, rest: string, value: V, trap: bool)

  // -------------------------------------------------------------- characters

  predicate IsSpace(c: char) {
    c == ' ' || 9 <= c as int <= 13
  }

  predicate IsDigit(c: char) {
    '0' <= c <= '9'
  }

  function Lower(c: char): char {
    if 'A' <= c <= 'Z' then (c as int + 32) as char else c
  }

  function Skip(s: string): (r: string)
    ensures |r| <= |s|
    ensures r != [] ==> !IsSpace(r[0])
  {
    if s != [] && IsSpace(s[0]) then Skip(s[1..]) else s
  }

  /** The rest of the input after a literal, if the input starts with it. */
  function Match(s: string, t: string): (r: Option<string>)
    ensures r.Some? && t != [] ==> |r.value| < |s|
  {
    var u := Skip(s);
    if t <= u then Some(u[|t|..]) else None
  }

  predicate StartsNoCase(u: string, t: string) {
    |t| <= |u| && forall i :: 0 <= i < |t| ==> Lower(u[i]) == t[i]
  }

  function MatchNoCase(s: string, t: string): (r: Option<string>)
    ensures r.Some? && t != [] ==> |r.value| < |s|
  {
    var u := Skip(s);
    if StartsNoCase(u, t) then Some(u[|t|..]) else None
  }

  function DigitSpan(s: string): (n: nat)
    ensures n <= |s|
  {
    if s != [] && IsDigit(s[0]) then 1 + DigitSpan(s[1..]) else 0
  }

  function DigitValue(c: char): nat {
    if IsDigit(c) then (c as int) - ('0' as int) else 0
  }

  function NatOf(s: string): nat {
    if s == [] then 0 else NatOf(s[..|s| - 1]) * 10 + DigitValue(s[|s| - 1])
  }

  const INT_MIN := -0x8000_0000
  const INT_MAX := 0x7fff_ffff

  /** `int_p`: an optional sign directly followed by digits, within `int`. */
  function IntP(s: string): (r: Option<(int, string)>)
    ensures r.Some? ==> |r.value.1| < |s|
  {
    var u := Skip(s);
    var signed := u != [] && (u[0] == '+' || u[0] == '-');
    var body := if signed then u[1..] else u;
    var n := DigitSpan(body);
    var magnitude: int := NatOf(body[..n]);
    var number: int := if signed && u[0] == '-' then -magnitude else magnitude;
    if n > 0 && INT_MIN <= number <= INT_MAX then Some((number, body[n..])) else None
  }

  // ------------------------------------------------------------ C++ arithmetic

  function Product(a: int, b: int): int { a * b }

  /** Truncating division; the quotient by zero is never looked at. */
  function Quotient(a: int, b: int): int {
    if b == 0 then 0
    else if a >= 0 then (if b > 0 then a / b else -(a / -b))
    else (if b > 0 then -(-a / b) else -a / -b)
  }

  function Remainder(a: int, b: int): int {
    a - Quotient(a, b) * b
  }

  function MinOf(a: int, b: int): int { if b < a then b else a }
  function MaxOf(a: int, b: int): int { if a < b then b else a }

  // ---------------------------------------------------------------- keywords

  datatype Key = Rank | NumChildren | NumSiblings | NumDescendants
               | NumLeafDescendants | RootDistance | MaxLeafDistance

  const KEYS: seq<Key> := [Rank, NumChildren, NumSiblings, NumDescendants,
                           NumLeafDescendants, RootDistance, MaxLeafDistance]

  function KeyText(k: Key): (t: string)
    ensures |t| >= 4
  {
    match k
    case Rank => "rank"
    case NumChildren => "numchildren"
    case NumSiblings => "numsiblings"
    case NumDescendants => "numdescendants"
    case NumLeafDescendants => "numleafdescendants"
    case RootDistance => "rootdistance"
    case MaxLeafDistance => "maxleafdistance"
  }

  function KeyValue(k: Key, topo: Topology): int {
    match k
    case Rank => topo.rank
    case NumChildren => topo.numChildren
    case NumSiblings => topo.numSiblings
    case NumDescendants => topo.numDescendants
    case NumLeafDescendants => topo.numLeafDescendants
    case RootDistance => topo.rootDistance
    case MaxLeafDistance => topo.maxLeafDistance
  }

  datatype Place = Fe | CpTop | CpMiddle | CpBottom | Cp | Be

  const PLACES: seq<Place> := [Fe, CpTop, CpMiddle, CpBottom, Cp, Be]

  function PlaceText(p: Place): (t: string)
    ensures |t| >= 2
  {
    match p
    case Fe => "fe"
    case CpTop => "cp:top"
    case CpMiddle => "cp:middle"
    case CpBottom => "cp:bottom"
    case Cp => "cp"
    case Be => "be"
  }

  function PlaceValue(p: Place, topo: Topology): bool {
    var cp := !topo.isFrontend && !topo.isBackend;
    match p
    case Fe => topo.isFrontend
    case CpTop => cp && topo.rootDistance == 1
    case CpMiddle => cp && topo.rootDistance != 0 && !topo.onLeafCP
    case CpBottom => cp && topo.onLeafCP
    case Cp => cp
    case Be => topo.isBackend
  }

  // ------------------------------------------------------------- integer rules

  function Failed<V>(s: string, value: V, trap: bool): Out<V> {
    Out(false, s, value, trap)
  }

  /** The closure value once an alternative has failed. */
  function Undo<V>(env: Env, before: V, after: V): V {
    if env.scoped then before else after
  }

  function Number(s: string, v: int, trap: bool): (o: Out<int>)
    ensures if o.ok then |o.rest| < |s| else o.rest == s
  {
    match IntP(s)
    case Some((n, rest)) => Out(true, rest, n, trap)
    case None => Failed(s, v, trap)
  }

  function Signed(s: string, sign: string, env: Env, v: int, trap: bool): (o: Out<int>)
    requires sign == "+" || sign == "-"
    ensures if o.ok then |o.rest| < |s| else o.rest == s
    decreases |s|, 0
  {
    match Match(s, sign)
    case None => Failed(s, v, trap)
    case Some(rest) =>
      var o := Integer(rest, env, trap);
      if o.ok then o.(value := if sign == "-" then -o.value else o.value) else Failed(s, v, o.trap)
  }

  function Group(s: string, env: Env, v: int, trap: bool): (o: Out<int>)
    ensures if o.ok then |o.rest| < |s| else o.rest == s
    decreases |s|, 0
  {
    match Match(s, "(")
    case None => Failed(s, v, trap)
    case Some(rest) =>
      var o := Additive(rest, env, trap);
      if !o.ok then Failed(s, v, o.trap) else
      match Match(o.rest, ")")
      case None => Failed(s, Undo(env, v, o.value), o.trap)
      case Some(end) => Out(true, end, o.value, o.trap)
  }

  function Keyword(s: string, keys: seq<Key>, env: Env, v: int, trap: bool): (o: Out<int>)
    ensures if o.ok then |o.rest| < |s| else o.rest == s
    decreases |keys|
  {
    if keys == [] then Failed(s, v, trap)
    else
      match MatchNoCase(s, KeyText(keys[0]))
      case Some(rest) => Out(true, rest, KeyValue(keys[0], env.topo), trap)
      case None => Keyword(s, keys[1..], env, v, trap)
  }

  function Extremum(s: string, name: string, env: Env, v: int, trap: bool): (o: Out<int>)
    requires name == "min" || name == "max"
    ensures if o.ok then |o.rest| < |s| else o.rest == s
    decreases |s|, 0
  {
    match MatchNoCase(s, name)
    case None => Failed(s, v, trap)
    case Some(r1) =>
    match Match(r1, "(")
    case None => Failed(s, v, trap)
    case Some(r2) =>
      var o := Operands(r2, name, env, v, trap);
      if o.ok then o else o.(rest := s)
  }

  /** The first operand is assigned before the second is read. */
  function Operands(s: string, name: string, env: Env, v: int, trap: bool): (o: Out<int>)
    ensures if o.ok then |o.rest| < |s| else o.rest == s
    decreases |s|, 7
  {
    var a := Additive(s, env, trap);
    if !a.ok then Failed(s, v, a.trap) else
    match Match(a.rest, ",")
    case None => Failed(s, Undo(env, v, a.value), a.trap)
    case Some(second) =>
      var b := Additive(second, env, a.trap);
      if !b.ok then Failed(s, Undo(env, v, a.value), b.trap) else
      var both := if name == "min" then MinOf(a.value, b.value) else MaxOf(a.value, b.value);
      match Match(b.rest, ")")
      case None => Failed(s, Undo(env, v, both), b.trap)
      case Some(end) => Out(true, end, both, b.trap)
  }

  /** The alternatives of `integer` up to `min`, tried in order. */
  function Choice(s: string, env: Env, trap: bool): (o: Out<int>)
    ensures if o.ok then |o.rest| < |s| else o.rest == s
    decreases |s|, 2
  {
    var a := Symbols(s, env, trap);
    if a.ok then a else Words(s, env, a.value, a.trap)
  }

  function Symbols(s: string, env: Env, trap: bool): (o: Out<int>)
    ensures if o.ok then |o.rest| < |s| else o.rest == s
    decreases |s|, 1
  {
    var a := Number(s, 0, trap);
    if a.ok then a else
    var b := Signed(s, "+", env, a.value, a.trap);
    if b.ok then b else
    var c := Signed(s, "-", env, b.value, b.trap);
    if c.ok then c else
    Group(s, env, c.value, c.trap)
  }

  function Words(s: string, env: Env, v: int, trap: bool): (o: Out<int>)
    ensures if o.ok then |o.rest| < |s| else o.rest == s
    decreases |s|, 1
  {
    var e := Keyword(s, KEYS, env, v, trap);
    if e.ok then e else
    Extremum(s, "min", env, e.value, e.trap)
  }

  /** `integer`: `||` joins the alternatives above with `max` as a sequential or, so
      in the code `max(..)` is also tried after another alternative has matched. */
  function Integer(s: string, env: Env, trap: bool): (o: Out<int>)
    ensures if o.ok then |o.rest| < |s| else o.rest == s
    decreases |s|, 3
  {
    var left := Choice(s, env, trap);
    if !left.ok then Extremum(s, "max", env, left.value, left.trap)
    else if env.plain then left
    else
      var right := Extremum(left.rest, "max", env, left.value, left.trap);
      if right.ok then right else left.(value := right.value, trap := right.trap)
  }

  function Multiplicative(s: string, env: Env, trap: bool): (o: Out<int>)
    ensures if o.ok then |o.rest| < |s| else o.rest == s
    decreases |s|, 4
  {
    var o := Integer(s, env, trap);
    if o.ok then MulTail(o.rest, env, o.value, o.trap) else o
  }

  function MulTail(s: string, env: Env, v: int, trap: bool): (o: Out<int>)
    ensures o.ok && |o.rest| <= |s|
    decreases |s|, 4
  {
    var times := Operand(s, "*", env, trap);
    if times.ok then MulTail(times.rest, env, Product(v, times.value), times.trap) else
    var over := Operand(s, "/", env, times.trap);
    if over.ok then MulTail(over.rest, env, Quotient(v, over.value), over.trap || over.value == 0) else
    var modulo := Operand(s, "%", env, over.trap);
    if modulo.ok then MulTail(modulo.rest, env, Remainder(v, modulo.value), modulo.trap || modulo.value == 0) else
    Out(true, s, v, modulo.trap)
  }

  /** An operator followed by an `integer`. */
  function Operand(s: string, op: string, env: Env, trap: bool): (o: Out<int>)
    requires op != []
    ensures o.ok ==> |o.rest| < |s|
    decreases |s|, 3
  {
    match Match(s, op)
    case None => Failed(s, 0, trap)
    case Some(rest) => Integer(rest, env, trap)
  }

  function Additive(s: string, env: Env, trap: bool): (o: Out<int>)
    ensures if o.ok then |o.rest| < |s| else o.rest == s
    decreases |s|, 6
  {
    var o := Multiplicative(s, env, trap);
    if o.ok then AddTail(o.rest, env, o.value, o.trap) else o
  }

  function AddTail(s: string, env: Env, v: int, trap: bool): (o: Out<int>)
    ensures o.ok && |o.rest| <= |s|
    decreases |s|, 6
  {
    var plus := Term(s, "+", env, trap);
    if plus.ok then AddTail(plus.rest, env, v + plus.value, plus.trap) else
    var minus := Term(s, "-", env, plus.trap);
    if minus.ok then AddTail(minus.rest, env, v - minus.value, minus.trap) else
    Out(true, s, v, minus.trap)
  }

  /** An operator followed by a `multiplicative`. */
  function Term(s: string, op: string, env: Env, trap: bool): (o: Out<int>)
    requires op != []
    ensures o.ok ==> |o.rest| < |s|
    decreases |s|, 5
  {
    match Match(s, op)
    case None => Failed(s, 0, trap)
    case Some(rest) => Multiplicative(rest, env, trap)
  }

  // ------------------------------------------------------------- boolean rules

  datatype RelOp = Eq | Ne | Lt | Le | Gt | Ge

  /** In the order in which `relational` tries them. */
  const RELATIONS: seq<RelOp> := [Eq, Ne, Lt, Le, Gt, Ge]

  function RelText(op: RelOp): (t: string)
    ensures t != []
  {
    match op
    case Eq => "=="
    case Ne => "!="
    case Lt => "<"
    case Le => "<="
    case Gt => ">"
    case Ge => ">="
  }

  predicate Holds(op: RelOp, a: int, b: int) {
    match op
    case Eq => a == b
    case Ne => a != b
    case Lt => a < b
    case Le => a <= b
    case Gt => a > b
    case Ge => a >= b
  }

  function Comparison(s: string, ops: seq<RelOp>, left: int, env: Env, trap: bool): (o: Out<bool>)
    ensures if o.ok then |o.rest| < |s| else o.rest == s
    decreases |ops|
  {
    if ops == [] then Failed(s, false, trap)
    else
      match Match(s, RelText(ops[0]))
      case None => Comparison(s, ops[1..], left, env, trap)
      case Some(rest) =>
        var o := Additive(rest, env, trap);
        if o.ok then Out(true, o.rest, Holds(ops[0], left, o.value), o.trap)
        else Comparison(s, ops[1..], left, env, o.trap)
  }

  function Relational(s: string, env: Env, trap: bool): (o: Out<bool>)
    ensures if o.ok then |o.rest| < |s| else o.rest == s
  {
    var a := Additive(s, env, trap);
    if a.ok then
      var o := Comparison(a.rest, RELATIONS, a.value, env, a.trap);
      if o.ok then o else Failed(s, false, o.trap)
    else Failed(s, false, a.trap)
  }

  function PlaceRule(s: string, places: seq<Place>, env: Env, v: bool, trap: bool): (o: Out<bool>)
    ensures if o.ok then |o.rest| < |s| else o.rest == s
    decreases |places|
  {
    if places == [] then Failed(s, v, trap)
    else
      match MatchNoCase(s, PlaceText(places[0]))
      case Some(rest) => Out(true, rest, PlaceValue(places[0], env.topo), trap)
      case None => PlaceRule(s, places[1..], env, v, trap)
  }

  function Negation(s: string, env: Env, v: bool, trap: bool): (o: Out<bool>)
    ensures if o.ok then |o.rest| < |s| else o.rest == s
    decreases |s|, 0
  {
    match Match(s, "!")
    case None => Failed(s, v, trap)
    case Some(rest) =>
      var o := Boolean(rest, env, trap);
      if o.ok then o.(value := !o.value) else Failed(s, v, o.trap)
  }

  function BoolGroup(s: string, env: Env, v: bool, trap: bool): (o: Out<bool>)
    ensures if o.ok then |o.rest| < |s| else o.rest == s
    decreases |s|, 0
  {
    match Match(s, "(")
    case None => Failed(s, v, trap)
    case Some(rest) =>
      var o := LogicalOr(rest, env, trap);
      if !o.ok then Failed(s, v, o.trap) else
      match Match(o.rest, ")")
      case None => Failed(s, Undo(env, v, o.value), o.trap)
      case Some(end) => Out(true, end, o.value, o.trap)
  }

  function Boolean(s: string, env: Env, trap: bool): (o: Out<bool>)
    ensures if o.ok then |o.rest| < |s| else o.rest == s
    decreases |s|, 1
  {
    var a := Relational(s, env, trap);
    if a.ok then a else
    var b := Negation(s, env, false, a.trap);
    if b.ok then b else
    var c := BoolGroup(s, env, b.value, b.trap);
    if c.ok then c else
    PlaceRule(s, PLACES, env, c.value, c.trap)
  }

  function LogicalAnd(s: string, env: Env, trap: bool): (o: Out<bool>)
    ensures if o.ok then |o.rest| < |s| else o.rest == s
    decreases |s|, 2
  {
    var o := Boolean(s, env, trap);
    if o.ok then AndTail(o.rest, env, o.value, o.trap) else o
  }

  /** Actions run for both operands; nothing is short-circuited. */
  function AndTail(s: string, env: Env, v: bool, trap: bool): (o: Out<bool>)
    ensures o.ok && |o.rest| <= |s|
    decreases |s|, 2
  {
    match Match(s, "&&")
    case None => Out(true, s, v, trap)
    case Some(rest) =>
      var o := Boolean(rest, env, trap);
      if o.ok then AndTail(o.rest, env, v && o.value, o.trap) else Out(true, s, v, o.trap)
  }

  function LogicalOr(s: string, env: Env, trap: bool): (o: Out<bool>)
    ensures if o.ok then |o.rest| < |s| else o.rest == s
    decreases |s|, 4
  {
    var o := LogicalAnd(s, env, trap);
    if o.ok then OrTail(o.rest, env, o.value, o.trap) else o
  }

  function OrTail(s: string, env: Env, v: bool, trap: bool): (o: Out<bool>)
    ensures o.ok && |o.rest| <= |s|
    decreases |s|, 4
  {
    match Match(s, "||")
    case None => Out(true, s, v, trap)
    case Some(rest) =>
      var o := LogicalAnd(rest, env, trap);
      if o.ok then OrTail(o.rest, env, v || o.value, o.trap) else Out(true, s, v, o.trap)
  }

  // ------------------------------------------------------------ whole expressions

  datatype Verdict = NotFull | Full(value: bool)

  /** `parse(...).full`: the grammar matched and only blanks are left over. */
  function ParseExpression(s: string, env: Env): Out<Verdict> {
    var o := LogicalOr(s, env, false);
    if o.ok && Skip(o.rest) == [] then Out(true, o.rest, Full(o.value), o.trap)
    else Out(false, o.rest, NotFull, o.trap)
  }
}
