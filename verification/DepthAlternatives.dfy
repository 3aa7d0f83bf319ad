/** What the sequential or costs: for every text whatsoever, the code's reading and
    the reading with a plain alternative are compared. They part exactly where a
    `max(..)` directly follows an operand. */
module DepthAlternatives {
  import opened Wrappers
  import opened DepthGrammar
  import opened DepthPrinter
  import opened DepthRoundTrip
  import opened DepthScoping

  /** The last character of a number, a group, a keyword or a place. */
  predicate EndsOperand(c: char) {
    IsDigit(c) || c == ')' || Lower(c) in {'k', 'n', 's', 'e', 'p', 'm'}
  }

  predicate MaxCall(s: string) {
    StartsNoCase(s, "max") && Match(s[3..], "(").Some?
  }

  /** No `max(` in the text directly follows the end of an operand; `after` says
      whether the text itself follows one. Blanks in between do not count. */
  predicate Separate(after: bool, s: string)
    decreases |s|
  {
    s == [] ||
    (!(after && MaxCall(s)) && Separate(if IsSpace(s[0]) then after else EndsOperand(s[0]), s[1..]))
  }

  // ---------------------------------------------------------- passing over tokens

  lemma {:induction false} PassBlanks(after: bool, s: string)
    ensures Separate(after, s) == Separate(after, Skip(s))
  {
    if s != [] && IsSpace(s[0]) { PassBlanks(after, s[1..]); }
  }

  lemma {:induction false} PassChars(after: bool, u: string, n: nat)
    requires 0 < n <= |u| && forall i :: 0 <= i < n ==> !IsSpace(u[i])
    requires !(after && MaxCall(u))
    requires forall i :: 0 < i < n ==> !(EndsOperand(u[i - 1]) && Lower(u[i]) == 'm')
    ensures Separate(after, u) == Separate(EndsOperand(u[n - 1]), u[n..])
    decreases n
  {
    if n > 1 {
      assert EndsOperand(u[0]) ==> Lower(u[1]) != 'm';
      assert u[1..][0] == u[1];
      PassChars(EndsOperand(u[0]), u[1..], n - 1);
      assert u[1..][n - 1..] == u[n..];
    }
  }

  predicate IsSymbol(t: string) {
    t != [] && forall i :: 0 <= i < |t| ==> !IsSpace(t[i]) && Lower(t[i]) != 'm'
  }

  lemma PassSymbol(after: bool, s: string, t: string)
    requires IsSymbol(t) && Match(s, t).Some?
    ensures Separate(after, s) == Separate(EndsOperand(t[|t| - 1]), Match(s, t).value)
  {
    hide IsSpace, EndsOperand, Lower;
    var u := Skip(s);
    assert forall i :: 0 <= i < |t| ==> u[i] == t[i];
    PassBlanks(after, s);
    assert Lower(u[0]) != 'm';
    PassChars(after, u, |t|);
  }

  /** A word in lower case in which no `m` follows a letter that could end a word. */
  predicate IsWord(t: string) {
    && t != []
    && (forall i :: 0 <= i < |t| ==> 'a' <= t[i] <= 'z' || t[i] == ':')
    && (forall i :: 0 < i < |t| && t[i] == 'm' ==> t[i - 1] in {'u', 'o', ':'})
  }

  lemma SameLetter(c: char, t: char)
    requires Lower(c) == t && ('a' <= t <= 'z' || t == ':')
    ensures !IsSpace(c) && EndsOperand(c) == EndsOperand(t)
  {
  }

  lemma NoEnd(t: char)
    requires t in {'u', 'o', ':'}
    ensures !EndsOperand(t)
  {
  }

  lemma PassWord(s: string, t: string)
    requires IsWord(t) && MatchNoCase(s, t).Some?
    ensures Separate(false, s) == Separate(EndsOperand(t[|t| - 1]), MatchNoCase(s, t).value)
  {
    hide IsSpace, EndsOperand, Lower, IsDigit;
    var u := Skip(s);
    forall i | 0 <= i < |t| ensures !IsSpace(u[i]) && EndsOperand(u[i]) == EndsOperand(t[i]) {
      SameLetter(u[i], t[i]);
    }
    forall i | 0 < i < |t| ensures !(EndsOperand(u[i - 1]) && Lower(u[i]) == 'm') {
      if Lower(u[i]) == 'm' {
        assert t[i] == 'm';
        NoEnd(t[i - 1]);
      }
    }
    PassBlanks(false, s);
    PassChars(false, u, |t|);
  }

  lemma KeyIsWord(k: Key)
    ensures IsWord(KeyText(k)) && EndsOperand(KeyText(k)[|KeyText(k)| - 1])
  {
    hide IsWord;
    match k
    case Rank => assert IsWord("rank") by { CountsAreWords(); }
    case NumChildren => CountsAreWords();
    case NumSiblings => CountsAreWords();
    case NumDescendants => DescendantsAreWords();
    case NumLeafDescendants => LeafDescendantsIsWord();
    case RootDistance => DistancesAreWords();
    case MaxLeafDistance => DistancesAreWords();
  }

  lemma CountsAreWords()
    ensures IsWord("rank") && IsWord("numchildren") && IsWord("numsiblings")
  {
  }

  lemma DescendantsAreWords()
    ensures IsWord("numdescendants")
  {
  }

  lemma LeafDescendantsIsWord()
    ensures IsWord("numleafdescendants")
  {
  }

  lemma DistancesAreWords()
    ensures IsWord("rootdistance") && IsWord("maxleafdistance")
  {
  }

  lemma PlaceIsWord(p: Place)
    ensures IsWord(PlaceText(p)) && EndsOperand(PlaceText(p)[|PlaceText(p)| - 1])
  {
  }

  lemma {:induction false} SpanIsDigits(s: string)
    ensures forall i :: 0 <= i < DigitSpan(s) ==> IsDigit(s[i])
  {
    if s != [] && IsDigit(s[0]) { SpanIsDigits(s[1..]); }
  }

  lemma PassNumber(s: string)
    requires IntP(s).Some?
    ensures Separate(false, s) == Separate(true, IntP(s).value.1)
  {
    hide NatOf;
    var u := Skip(s);
    var signed := u != [] && (u[0] == '+' || u[0] == '-');
    var body := if signed then u[1..] else u;
    SpanIsDigits(body);
    var n := if signed then DigitSpan(body) + 1 else DigitSpan(body);
    assert forall i :: 0 <= i < n ==> (i == 0 && signed) || IsDigit(u[i]);
    PassBlanks(false, s);
    PassChars(false, u, n);
    assert u[n..] == IntP(s).value.1;
  }

  /** Where no operand is directly followed by `max(`, the code's extra try fails
      at once and changes nothing. */
  lemma NoMaxCall(s: string, env: Env, v: int, trap: bool)
    requires Separate(true, s)
    ensures Extremum(s, "max", env, v, trap) == Failed(s, v, trap)
  {
    PassBlanks(true, s);
  }

  // ----------------------------------- what the reading with plain alternatives takes

  /** A match took a text without such a `max(`, and ended with an operand. */
  ghost predicate Passes<V>(after: bool, s: string, o: Out<V>) {
    o.ok ==> Separate(after, s) == Separate(true, o.rest)
  }

  lemma {:induction false} IntegerPasses(s: string, env: Env, trap: bool)
    requires env.plain
    ensures Passes(false, s, Integer(s, env, trap))
    decreases |s|, 3
  {
    hide Choice, Extremum;
    ChoicePasses(s, env, trap);
    var left := Choice(s, env, trap);
    ExtremumPasses(s, "max", env, left.value, left.trap);
  }

  lemma {:induction false} ChoicePasses(s: string, env: Env, trap: bool)
    requires env.plain
    ensures Passes(false, s, Choice(s, env, trap))
    decreases |s|, 2
  {
    hide Symbols, Keyword, Extremum;
    SymbolsPasses(s, env, trap);
    var a := Symbols(s, env, trap);
    KeywordPasses(s, KEYS, env, a.value, a.trap);
    var e := Keyword(s, KEYS, env, a.value, a.trap);
    ExtremumPasses(s, "min", env, e.value, e.trap);
  }

  lemma {:induction false} SymbolsPasses(s: string, env: Env, trap: bool)
    requires env.plain
    ensures Passes(false, s, Symbols(s, env, trap))
    decreases |s|, 1
  {
    hide Signed, Group, IntP;
    if IntP(s).Some? {
      PassNumber(s);
    } else {
      SignedPasses(s, "+", env, 0, trap);
      var b := Signed(s, "+", env, 0, trap);
      SignedPasses(s, "-", env, b.value, b.trap);
      var c := Signed(s, "-", env, b.value, b.trap);
      GroupPasses(s, env, c.value, c.trap);
    }
  }

  lemma {:induction false} SignedPasses(s: string, sign: string, env: Env, v: int, trap: bool)
    requires env.plain && (sign == "+" || sign == "-")
    ensures Passes(false, s, Signed(s, sign, env, v, trap))
    decreases |s|, 0
  {
    hide Integer, Match;
    match Match(s, sign)
    case None =>
    case Some(rest) =>
      PassSymbol(false, s, sign);
      IntegerPasses(rest, env, trap);
  }

  lemma {:induction false} GroupPasses(s: string, env: Env, v: int, trap: bool)
    requires env.plain
    ensures Passes(false, s, Group(s, env, v, trap))
    decreases |s|, 0
  {
    hide Additive, Match;
    match Match(s, "(")
    case None =>
    case Some(rest) =>
      PassSymbol(false, s, "(");
      AdditivePasses(rest, env, trap);
      var o := Additive(rest, env, trap);
      if o.ok && Match(o.rest, ")").Some? { PassSymbol(true, o.rest, ")"); }
  }

  lemma {:induction false} KeywordPasses(s: string, keys: seq<Key>, env: Env, v: int, trap: bool)
    ensures Passes(false, s, Keyword(s, keys, env, v, trap))
    decreases |keys|
  {
    hide MatchNoCase, KeyText;
    if keys != [] {
      KeyIsWord(keys[0]);
      if MatchNoCase(s, KeyText(keys[0])).Some? {
        PassWord(s, KeyText(keys[0]));
      } else {
        KeywordPasses(s, keys[1..], env, v, trap);
      }
    }
  }

  lemma {:induction false} ExtremumPasses(s: string, name: string, env: Env, v: int, trap: bool)
    requires env.plain && (name == "min" || name == "max")
    ensures Passes(false, s, Extremum(s, name, env, v, trap))
    decreases |s|, 0
  {
    hide Operands, Match, MatchNoCase;
    match MatchNoCase(s, name)
    case None =>
    case Some(r1) =>
      PassWord(s, name);
      match Match(r1, "(")
      case None =>
      case Some(r2) =>
        PassSymbol(EndsOperand(name[|name| - 1]), r1, "(");
        OperandsPass(r2, name, env, v, trap);
  }

  lemma {:induction false} OperandsPass(s: string, name: string, env: Env, v: int, trap: bool)
    requires env.plain
    ensures Passes(false, s, Operands(s, name, env, v, trap))
    decreases |s|, 7
  {
    hide Additive, Match;
    AdditivePasses(s, env, trap);
    var a := Additive(s, env, trap);
    if a.ok && Match(a.rest, ",").Some? {
      var second := Match(a.rest, ",").value;
      PassSymbol(true, a.rest, ",");
      AdditivePasses(second, env, a.trap);
      var b := Additive(second, env, a.trap);
      if b.ok && Match(b.rest, ")").Some? { PassSymbol(true, b.rest, ")"); }
    }
  }

  lemma {:induction false} MultiplicativePasses(s: string, env: Env, trap: bool)
    requires env.plain
    ensures Passes(false, s, Multiplicative(s, env, trap))
    decreases |s|, 4
  {
    hide Integer, MulTail;
    IntegerPasses(s, env, trap);
    var o := Integer(s, env, trap);
    if o.ok { MulTailPasses(o.rest, env, o.value, o.trap); }
  }

  lemma {:induction false} OperandPasses(s: string, op: string, env: Env, trap: bool)
    requires env.plain && op in {"*", "/", "%"}
    ensures Passes(true, s, Operand(s, op, env, trap))
    decreases |s|, 3
  {
    hide Integer, Match;
    match Match(s, op)
    case None =>
    case Some(rest) =>
      PassSymbol(true, s, op);
      IntegerPasses(rest, env, trap);
  }

  lemma {:induction false} MulTailPasses(s: string, env: Env, v: int, trap: bool)
    requires env.plain
    ensures Passes(true, s, MulTail(s, env, v, trap))
    decreases |s|, 4
  {
    hide Operand, Product, Quotient, Remainder;
    OperandPasses(s, "*", env, trap);
    var m := Operand(s, "*", env, trap);
    if m.ok {
      MulTailPasses(m.rest, env, Product(v, m.value), m.trap);
    } else {
      OperandPasses(s, "/", env, m.trap);
      var d := Operand(s, "/", env, m.trap);
      if d.ok {
        MulTailPasses(d.rest, env, Quotient(v, d.value), d.trap || d.value == 0);
      } else {
        OperandPasses(s, "%", env, d.trap);
        var r := Operand(s, "%", env, d.trap);
        if r.ok { MulTailPasses(r.rest, env, Remainder(v, r.value), r.trap || r.value == 0); }
      }
    }
  }

  lemma {:induction false} AdditivePasses(s: string, env: Env, trap: bool)
    requires env.plain
    ensures Passes(false, s, Additive(s, env, trap))
    decreases |s|, 6
  {
    hide Multiplicative, AddTail;
    MultiplicativePasses(s, env, trap);
    var o := Multiplicative(s, env, trap);
    if o.ok { AddTailPasses(o.rest, env, o.value, o.trap); }
  }

  lemma {:induction false} TermPasses(s: string, op: string, env: Env, trap: bool)
    requires env.plain && op in {"+", "-"}
    ensures Passes(true, s, Term(s, op, env, trap))
    decreases |s|, 5
  {
    hide Multiplicative, Match;
    match Match(s, op)
    case None =>
    case Some(rest) =>
      PassSymbol(true, s, op);
      MultiplicativePasses(rest, env, trap);
  }

  lemma {:induction false} AddTailPasses(s: string, env: Env, v: int, trap: bool)
    requires env.plain
    ensures Passes(true, s, AddTail(s, env, v, trap))
    decreases |s|, 6
  {
    hide Term;
    TermPasses(s, "+", env, trap);
    var p := Term(s, "+", env, trap);
    if p.ok {
      AddTailPasses(p.rest, env, v + p.value, p.trap);
    } else {
      TermPasses(s, "-", env, p.trap);
      var m := Term(s, "-", env, p.trap);
      if m.ok { AddTailPasses(m.rest, env, v - m.value, m.trap); }
    }
  }

  lemma RelationIsSymbol(op: RelOp)
    ensures IsSymbol(RelText(op)) && !EndsOperand(RelText(op)[|RelText(op)| - 1])
  {
  }

  lemma {:induction false} ComparisonPasses(s: string, ops: seq<RelOp>, left: int, env: Env, trap: bool)
    requires env.plain
    ensures Passes(true, s, Comparison(s, ops, left, env, trap))
    decreases |ops|
  {
    hide Additive, Match, RelText;
    if ops != [] {
      match Match(s, RelText(ops[0]))
      case None => ComparisonPasses(s, ops[1..], left, env, trap);
      case Some(rest) =>
        RelationIsSymbol(ops[0]);
        PassSymbol(true, s, RelText(ops[0]));
        AdditivePasses(rest, env, trap);
        ComparisonPasses(s, ops[1..], left, env, Additive(rest, env, trap).trap);
    }
  }

  lemma RelationalPasses(s: string, env: Env, trap: bool)
    requires env.plain
    ensures Passes(false, s, Relational(s, env, trap))
  {
    hide Additive, Comparison;
    AdditivePasses(s, env, trap);
    var a := Additive(s, env, trap);
    if a.ok { ComparisonPasses(a.rest, RELATIONS, a.value, env, a.trap); }
  }

  lemma {:induction false} PlacePasses(s: string, places: seq<Place>, env: Env, v: bool, trap: bool)
    ensures Passes(false, s, PlaceRule(s, places, env, v, trap))
    decreases |places|
  {
    hide MatchNoCase, PlaceText;
    if places != [] {
      PlaceIsWord(places[0]);
      if MatchNoCase(s, PlaceText(places[0])).Some? {
        PassWord(s, PlaceText(places[0]));
      } else {
        PlacePasses(s, places[1..], env, v, trap);
      }
    }
  }

  lemma {:induction false} NegationPasses(s: string, env: Env, v: bool, trap: bool)
    requires env.plain
    ensures Passes(false, s, Negation(s, env, v, trap))
    decreases |s|, 0
  {
    hide Boolean, Match;
    match Match(s, "!")
    case None =>
    case Some(rest) =>
      PassSymbol(false, s, "!");
      BooleanPasses(rest, env, trap);
  }

  lemma {:induction false} BoolGroupPasses(s: string, env: Env, v: bool, trap: bool)
    requires env.plain
    ensures Passes(false, s, BoolGroup(s, env, v, trap))
    decreases |s|, 0
  {
    hide LogicalOr, Match;
    match Match(s, "(")
    case None =>
    case Some(rest) =>
      PassSymbol(false, s, "(");
      LogicalOrPasses(rest, env, trap);
      var o := LogicalOr(rest, env, trap);
      if o.ok && Match(o.rest, ")").Some? { PassSymbol(true, o.rest, ")"); }
  }

  lemma {:induction false} BooleanPasses(s: string, env: Env, trap: bool)
    requires env.plain
    ensures Passes(false, s, Boolean(s, env, trap))
    decreases |s|, 1
  {
    hide Relational, Negation, BoolGroup, PlaceRule;
    RelationalPasses(s, env, trap);
    var a := Relational(s, env, trap);
    NegationPasses(s, env, false, a.trap);
    var b := Negation(s, env, false, a.trap);
    BoolGroupPasses(s, env, b.value, b.trap);
    var c := BoolGroup(s, env, b.value, b.trap);
    PlacePasses(s, PLACES, env, c.value, c.trap);
  }

  lemma {:induction false} LogicalAndPasses(s: string, env: Env, trap: bool)
    requires env.plain
    ensures Passes(false, s, LogicalAnd(s, env, trap))
    decreases |s|, 2
  {
    hide Boolean, AndTail;
    BooleanPasses(s, env, trap);
    var o := Boolean(s, env, trap);
    if o.ok { AndTailPasses(o.rest, env, o.value, o.trap); }
  }

  lemma {:induction false} AndTailPasses(s: string, env: Env, v: bool, trap: bool)
    requires env.plain
    ensures Passes(true, s, AndTail(s, env, v, trap))
    decreases |s|, 2
  {
    hide Boolean, Match;
    match Match(s, "&&")
    case None =>
    case Some(rest) =>
      PassSymbol(true, s, "&&");
      BooleanPasses(rest, env, trap);
      var o := Boolean(rest, env, trap);
      if o.ok { AndTailPasses(o.rest, env, v && o.value, o.trap); }
  }

  lemma {:induction false} LogicalOrPasses(s: string, env: Env, trap: bool)
    requires env.plain
    ensures Passes(false, s, LogicalOr(s, env, trap))
    decreases |s|, 4
  {
    hide LogicalAnd, OrTail;
    LogicalAndPasses(s, env, trap);
    var o := LogicalAnd(s, env, trap);
    if o.ok { OrTailPasses(o.rest, env, o.value, o.trap); }
  }

  lemma {:induction false} OrTailPasses(s: string, env: Env, v: bool, trap: bool)
    requires env.plain
    ensures Passes(true, s, OrTail(s, env, v, trap))
    decreases |s|, 4
  {
    hide LogicalAnd, Match;
    match Match(s, "||")
    case None =>
    case Some(rest) =>
      PassSymbol(true, s, "||");
      LogicalAndPasses(rest, env, trap);
      var o := LogicalAnd(rest, env, trap);
      if o.ok { OrTailPasses(o.rest, env, v || o.value, o.trap); }
  }

  // ---------------------------------- without such a `max(` the two readings are one

  function Plain(env: Env): Env {
    env.(plain := true)
  }

  lemma {:induction false} IntegerSame(s: string, env: Env, trap: bool)
    requires Separate(false, s)
    ensures Integer(s, env, trap) == Integer(s, Plain(env), trap)
    decreases |s|, 3
  {
    hide Choice, Extremum, Separate;
    ChoiceSame(s, env, trap);
    var left := Choice(s, env, trap);
    if left.ok {
      ChoicePasses(s, Plain(env), trap);
      NoMaxCall(left.rest, env, left.value, left.trap);
    } else {
      ExtremumSame(s, "max", env, left.value, left.trap);
    }
  }

  lemma {:induction false} ChoiceSame(s: string, env: Env, trap: bool)
    requires Separate(false, s)
    ensures Choice(s, env, trap) == Choice(s, Plain(env), trap)
    decreases |s|, 2
  {
    hide Symbols, Keyword, Extremum, Separate;
    SymbolsSame(s, env, trap);
    var a := Symbols(s, env, trap);
    KeywordSame(s, KEYS, env, a.value, a.trap);
    var e := Keyword(s, KEYS, env, a.value, a.trap);
    ExtremumSame(s, "min", env, e.value, e.trap);
  }

  lemma {:induction false} SymbolsSame(s: string, env: Env, trap: bool)
    requires Separate(false, s)
    ensures Symbols(s, env, trap) == Symbols(s, Plain(env), trap)
    decreases |s|, 1
  {
    hide Signed, Group, IntP, Separate;
    SignedSame(s, "+", env, 0, trap);
    var b := Signed(s, "+", env, 0, trap);
    SignedSame(s, "-", env, b.value, b.trap);
    var c := Signed(s, "-", env, b.value, b.trap);
    GroupSame(s, env, c.value, c.trap);
  }

  lemma {:induction false} SignedSame(s: string, sign: string, env: Env, v: int, trap: bool)
    requires Separate(false, s) && (sign == "+" || sign == "-")
    ensures Signed(s, sign, env, v, trap) == Signed(s, sign, Plain(env), v, trap)
    decreases |s|, 0
  {
    hide Integer, Match, Separate;
    match Match(s, sign)
    case None =>
    case Some(rest) =>
      PassSymbol(false, s, sign);
      IntegerSame(rest, env, trap);
  }

  lemma {:induction false} GroupSame(s: string, env: Env, v: int, trap: bool)
    requires Separate(false, s)
    ensures Group(s, env, v, trap) == Group(s, Plain(env), v, trap)
    decreases |s|, 0
  {
    hide Additive, Match, Separate;
    match Match(s, "(")
    case None =>
    case Some(rest) =>
      PassSymbol(false, s, "(");
      AdditiveSame(rest, env, trap);
  }

  lemma {:induction false} KeywordSame(s: string, keys: seq<Key>, env: Env, v: int, trap: bool)
    ensures Keyword(s, keys, env, v, trap) == Keyword(s, keys, Plain(env), v, trap)
    decreases |keys|
  {
    if keys != [] { KeywordSame(s, keys[1..], env, v, trap); }
  }

  lemma {:induction false} ExtremumSame(s: string, name: string, env: Env, v: int, trap: bool)
    requires Separate(false, s) && (name == "min" || name == "max")
    ensures Extremum(s, name, env, v, trap) == Extremum(s, name, Plain(env), v, trap)
    decreases |s|, 0
  {
    hide Operands, Match, MatchNoCase, Separate;
    match MatchNoCase(s, name)
    case None =>
    case Some(r1) =>
      PassWord(s, name);
      match Match(r1, "(")
      case None =>
      case Some(r2) =>
        PassSymbol(EndsOperand(name[|name| - 1]), r1, "(");
        OperandsSame(r2, name, env, v, trap);
  }

  lemma {:induction false} OperandsSame(s: string, name: string, env: Env, v: int, trap: bool)
    requires Separate(false, s)
    ensures Operands(s, name, env, v, trap) == Operands(s, name, Plain(env), v, trap)
    decreases |s|, 7
  {
    hide Additive, Match, Separate;
    AdditiveSame(s, env, trap);
    AdditivePasses(s, Plain(env), trap);
    var a := Additive(s, env, trap);
    if a.ok && Match(a.rest, ",").Some? {
      PassSymbol(true, a.rest, ",");
      AdditiveSame(Match(a.rest, ",").value, env, a.trap);
    }
  }

  lemma {:induction false} MultiplicativeSame(s: string, env: Env, trap: bool)
    requires Separate(false, s)
    ensures Multiplicative(s, env, trap) == Multiplicative(s, Plain(env), trap)
    decreases |s|, 4
  {
    hide Integer, MulTail, Separate;
    IntegerSame(s, env, trap);
    IntegerPasses(s, Plain(env), trap);
    var o := Integer(s, env, trap);
    if o.ok { MulTailSame(o.rest, env, o.value, o.trap); }
  }

  lemma {:induction false} OperandSame(s: string, op: string, env: Env, trap: bool)
    requires Separate(true, s) && op in {"*", "/", "%"}
    ensures Operand(s, op, env, trap) == Operand(s, op, Plain(env), trap)
    decreases |s|, 3
  {
    hide Integer, Match, Separate;
    match Match(s, op)
    case None =>
    case Some(rest) =>
      PassSymbol(true, s, op);
      IntegerSame(rest, env, trap);
  }

  lemma {:induction false} MulTailSame(s: string, env: Env, v: int, trap: bool)
    requires Separate(true, s)
    ensures MulTail(s, env, v, trap) == MulTail(s, Plain(env), v, trap)
    decreases |s|, 4
  {
    hide Operand, Product, Quotient, Remainder, Separate;
    OperandSame(s, "*", env, trap);
    OperandPasses(s, "*", Plain(env), trap);
    var m := Operand(s, "*", env, trap);
    if m.ok {
      MulTailSame(m.rest, env, Product(v, m.value), m.trap);
    } else {
      OperandSame(s, "/", env, m.trap);
      OperandPasses(s, "/", Plain(env), m.trap);
      var d := Operand(s, "/", env, m.trap);
      if d.ok {
        MulTailSame(d.rest, env, Quotient(v, d.value), d.trap || d.value == 0);
      } else {
        OperandSame(s, "%", env, d.trap);
        OperandPasses(s, "%", Plain(env), d.trap);
        var r := Operand(s, "%", env, d.trap);
        if r.ok { MulTailSame(r.rest, env, Remainder(v, r.value), r.trap || r.value == 0); }
      }
    }
  }

  lemma {:induction false} AdditiveSame(s: string, env: Env, trap: bool)
    requires Separate(false, s)
    ensures Additive(s, env, trap) == Additive(s, Plain(env), trap)
    decreases |s|, 6
  {
    hide Multiplicative, AddTail, Separate;
    MultiplicativeSame(s, env, trap);
    MultiplicativePasses(s, Plain(env), trap);
    var o := Multiplicative(s, env, trap);
    if o.ok { AddTailSame(o.rest, env, o.value, o.trap); }
  }

  lemma {:induction false} TermSame(s: string, op: string, env: Env, trap: bool)
    requires Separate(true, s) && op in {"+", "-"}
    ensures Term(s, op, env, trap) == Term(s, op, Plain(env), trap)
    decreases |s|, 5
  {
    hide Multiplicative, Match, Separate;
    match Match(s, op)
    case None =>
    case Some(rest) =>
      PassSymbol(true, s, op);
      MultiplicativeSame(rest, env, trap);
  }

  lemma {:induction false} AddTailSame(s: string, env: Env, v: int, trap: bool)
    requires Separate(true, s)
    ensures AddTail(s, env, v, trap) == AddTail(s, Plain(env), v, trap)
    decreases |s|, 6
  {
    hide Term, Separate;
    TermSame(s, "+", env, trap);
    TermPasses(s, "+", Plain(env), trap);
    var p := Term(s, "+", env, trap);
    if p.ok {
      AddTailSame(p.rest, env, v + p.value, p.trap);
    } else {
      TermSame(s, "-", env, p.trap);
      TermPasses(s, "-", Plain(env), p.trap);
      var m := Term(s, "-", env, p.trap);
      if m.ok { AddTailSame(m.rest, env, v - m.value, m.trap); }
    }
  }

  lemma {:induction false} ComparisonSame(s: string, ops: seq<RelOp>, left: int, env: Env, trap: bool)
    requires Separate(true, s)
    ensures Comparison(s, ops, left, env, trap) == Comparison(s, ops, left, Plain(env), trap)
    decreases |ops|
  {
    hide Additive, Match, RelText, Separate;
    if ops != [] {
      match Match(s, RelText(ops[0]))
      case None => ComparisonSame(s, ops[1..], left, env, trap);
      case Some(rest) =>
        RelationIsSymbol(ops[0]);
        PassSymbol(true, s, RelText(ops[0]));
        AdditiveSame(rest, env, trap);
        ComparisonSame(s, ops[1..], left, env, Additive(rest, env, trap).trap);
    }
  }

  lemma RelationalSame(s: string, env: Env, trap: bool)
    requires Separate(false, s)
    ensures Relational(s, env, trap) == Relational(s, Plain(env), trap)
  {
    hide Additive, Comparison, Separate;
    AdditiveSame(s, env, trap);
    AdditivePasses(s, Plain(env), trap);
    var a := Additive(s, env, trap);
    if a.ok { ComparisonSame(a.rest, RELATIONS, a.value, env, a.trap); }
  }

  lemma {:induction false} PlaceSame(s: string, places: seq<Place>, env: Env, v: bool, trap: bool)
    ensures PlaceRule(s, places, env, v, trap) == PlaceRule(s, places, Plain(env), v, trap)
    decreases |places|
  {
    if places != [] { PlaceSame(s, places[1..], env, v, trap); }
  }

  lemma {:induction false} NegationSame(s: string, env: Env, v: bool, trap: bool)
    requires Separate(false, s)
    ensures Negation(s, env, v, trap) == Negation(s, Plain(env), v, trap)
    decreases |s|, 0
  {
    hide Boolean, Match, Separate;
    match Match(s, "!")
    case None =>
    case Some(rest) =>
      PassSymbol(false, s, "!");
      BooleanSame(rest, env, trap);
  }

  lemma {:induction false} BoolGroupSame(s: string, env: Env, v: bool, trap: bool)
    requires Separate(false, s)
    ensures BoolGroup(s, env, v, trap) == BoolGroup(s, Plain(env), v, trap)
    decreases |s|, 0
  {
    hide LogicalOr, Match, Separate;
    match Match(s, "(")
    case None =>
    case Some(rest) =>
      PassSymbol(false, s, "(");
      LogicalOrSame(rest, env, trap);
  }

  lemma {:induction false} BooleanSame(s: string, env: Env, trap: bool)
    requires Separate(false, s)
    ensures Boolean(s, env, trap) == Boolean(s, Plain(env), trap)
    decreases |s|, 1
  {
    hide Relational, Negation, BoolGroup, PlaceRule, Separate;
    RelationalSame(s, env, trap);
    var a := Relational(s, env, trap);
    NegationSame(s, env, false, a.trap);
    var b := Negation(s, env, false, a.trap);
    BoolGroupSame(s, env, b.value, b.trap);
    var c := BoolGroup(s, env, b.value, b.trap);
    PlaceSame(s, PLACES, env, c.value, c.trap);
  }

  lemma {:induction false} LogicalAndSame(s: string, env: Env, trap: bool)
    requires Separate(false, s)
    ensures LogicalAnd(s, env, trap) == LogicalAnd(s, Plain(env), trap)
    decreases |s|, 2
  {
    hide Boolean, AndTail, Separate;
    BooleanSame(s, env, trap);
    BooleanPasses(s, Plain(env), trap);
    var o := Boolean(s, env, trap);
    if o.ok { AndTailSame(o.rest, env, o.value, o.trap); }
  }

  lemma {:induction false} AndTailSame(s: string, env: Env, v: bool, trap: bool)
    requires Separate(true, s)
    ensures AndTail(s, env, v, trap) == AndTail(s, Plain(env), v, trap)
    decreases |s|, 2
  {
    hide Boolean, Match, Separate;
    match Match(s, "&&")
    case None =>
    case Some(rest) =>
      PassSymbol(true, s, "&&");
      BooleanSame(rest, env, trap);
      BooleanPasses(rest, Plain(env), trap);
      var o := Boolean(rest, env, trap);
      if o.ok { AndTailSame(o.rest, env, v && o.value, o.trap); }
  }

  lemma {:induction false} LogicalOrSame(s: string, env: Env, trap: bool)
    requires Separate(false, s)
    ensures LogicalOr(s, env, trap) == LogicalOr(s, Plain(env), trap)
    decreases |s|, 4
  {
    hide LogicalAnd, OrTail, Separate;
    LogicalAndSame(s, env, trap);
    LogicalAndPasses(s, Plain(env), trap);
    var o := LogicalAnd(s, env, trap);
    if o.ok { OrTailSame(o.rest, env, o.value, o.trap); }
  }

  lemma {:induction false} OrTailSame(s: string, env: Env, v: bool, trap: bool)
    requires Separate(true, s)
    ensures OrTail(s, env, v, trap) == OrTail(s, Plain(env), v, trap)
    decreases |s|, 4
  {
    hide LogicalAnd, Match, Separate;
    match Match(s, "||")
    case None =>
    case Some(rest) =>
      PassSymbol(true, s, "||");
      LogicalAndSame(rest, env, trap);
      LogicalAndPasses(rest, Plain(env), trap);
      var o := LogicalAnd(rest, env, trap);
      if o.ok { OrTailSame(o.rest, env, v || o.value, o.trap); }
  }

  // ---------------------------------------------------------------- whole expressions

  /** What a fully matched text reads as with plain alternatives contains no operand
      directly followed by `max(`. */
  lemma FullIsSeparate(s: string, env: Env)
    requires env.plain && ParseExpression(s, env).value.Full?
    ensures Separate(false, s)
  {
    hide LogicalOr;
    LogicalOrPasses(s, env, false);
    PassBlanks(true, LogicalOr(s, env, false).rest);
  }

  /** Exactly what the sequential or changes, for every text: with a plain alternative
      the verdict is the code's if no operand is directly followed by `max(`, and
      otherwise the text is not matched at all. So the code accepts more texts, and
      where both accept they agree. */
  lemma SequentialOrExact(s: string, env: Env)
    ensures ParseExpression(s, Plain(env)).value ==
            if Separate(false, s) then ParseExpression(s, env).value else NotFull
  {
    if Separate(false, s) {
      LogicalOrSame(s, env, false);
    } else if ParseExpression(s, Plain(env)).value.Full? {
      FullIsSeparate(s, Plain(env));
    }
  }

  /** `n max(l,r)` compared with `k`. */
  function Juxtaposed(n: int, l: AExp, r: AExp, op: RelOp, k: AExp, w: string, end: string): string {
    PrintA(Num(n), 0, w, OpenMax(l, r, w, Token(w, ")", Token(w, RelText(op), PrintA(k, 2, w, end)))))
  }

  lemma JuxtaposedRelates(n: int, l: AExp, r: AExp, op: RelOp, k: AExp, w: string, end: string, env: Env)
    requires INT_MIN <= n <= INT_MAX && LiteralsA(l) && LiteralsA(r) && LiteralsA(k) && Blank(w) && Blank(end)
    requires DefA(l, env.topo) && DefA(r, env.topo) && !env.plain
    ensures Relational(Juxtaposed(n, l, r, op, k, w, end), env, false) ==
            Out(true, end, Holds(op, MaxOf(EvalA(l, env.topo), EvalA(r, env.topo)), EvalA(k, env.topo)),
                !DefA(k, env.topo))
  {
    hide Relational, Comparison, Integer, MulTail, AddTail, OpenMax, EvalA, DefA;
    var right := PrintA(k, 2, w, end);
    var rest := Token(w, RelText(op), right);
    RelToken(w, op, right);
    MaxAfterNumber(n, l, r, w, rest, env, false);
    var both := MaxOf(EvalA(l, env.topo), EvalA(r, env.topo));
    MulStops(rest, env, both, false);
    AddStops(rest, env, both, false);
    EndStops(end);
    AdditiveReads(k, w, end, env, false);
    RelGrammar(Juxtaposed(n, l, r, op, k, w, end), op, rest, right, end, env, false);
  }

  lemma EndStops(end: string)
    requires Blank(end)
    ensures Skip(end) == [] && Stops2(end)
    ensures Match(end, "&&") == None && Match(end, "||") == None
  {
    SkipBlank(end, "");
    assert end + "" == end;
  }

  lemma NumberThenMax(n: int, l: AExp, r: AExp, w: string, tail: string, env: Env)
    requires INT_MIN <= n <= INT_MAX && Blank(w)
    ensures !Separate(false, PrintA(Num(n), 0, w, OpenMax(l, r, w, tail)))
  {
    var inside := PrintA(l, 2, w, Token(w, ",", PrintA(r, 2, w, tail)));
    var t0 := Token(w, "(", inside);
    var after := Token(w, "max", t0);
    TokenSkips(w, "max", t0);
    TokenMatches(w, "(", inside);
    hide PrintA, Match;
    PassBlanks(true, after);
    assert Skip(after) == "max" + t0 && ("max" + t0)[3..] == t0;
    assert !Separate(true, after);
    NumberPasses(n, w, after, env);
  }

  lemma NumberPasses(n: int, w: string, tail: string, env: Env)
    requires INT_MIN <= n <= INT_MAX && Blank(w) && (tail == [] || !IsDigit(tail[0]))
    ensures Separate(false, PrintA(Num(n), 0, w, tail)) == Separate(true, tail)
  {
    hide Choice, Separate;
    NumReads(n, w, tail, Plain(env), false);
    ChoicePasses(PrintA(Num(n), 0, w, tail), Plain(env), false);
  }

  /** A whole expression that shows it: the code accepts it with the value of the
      maximum, and a plain alternative would not match it. */
  lemma MaxAfterNumberAccepted(n: int, l: AExp, r: AExp, op: RelOp, k: AExp, w: string, end: string, topo: Topology)
    requires INT_MIN <= n <= INT_MAX && LiteralsA(l) && LiteralsA(r) && LiteralsA(k) && Blank(w) && Blank(end)
    requires DefA(l, topo) && DefA(r, topo)
    ensures var s := Juxtaposed(n, l, r, op, k, w, end);
            && ParseExpression(s, Code(topo)).value ==
               Full(Holds(op, MaxOf(EvalA(l, topo), EvalA(r, topo)), EvalA(k, topo)))
            && ParseExpression(s, Plain(Code(topo))).value == NotFull
  {
    hide Relational, ParseExpression, Separate, Juxtaposed, EvalA, DefA, LiteralsA;
    var s := Juxtaposed(n, l, r, op, k, w, end);
    JuxtaposedRelates(n, l, r, op, k, w, end, Code(topo));
    ComparisonAlone(s, end, Code(topo));
    JuxtaposedIsNotSeparate(n, l, r, op, k, w, end, Code(topo));
    SequentialOrExact(s, Code(topo));
  }

  lemma ComparisonAlone(s: string, end: string, env: Env)
    requires Blank(end) && var o := Relational(s, env, false); o.ok && o.rest == end
    ensures ParseExpression(s, env).value == Full(Relational(s, env, false).value)
  {
    hide Relational;
    EndStops(end);
    var o := Relational(s, env, false);
    assert Boolean(s, env, false) == o;
    assert AndTail(end, env, o.value, o.trap) == Out(true, end, o.value, o.trap);
    assert OrTail(end, env, o.value, o.trap) == Out(true, end, o.value, o.trap);
    hide Boolean, Match, AndTail, OrTail;
    assert LogicalAnd(s, env, false) == o;
    hide LogicalAnd;
    assert LogicalOr(s, env, false) == o;
  }

  lemma JuxtaposedIsNotSeparate(n: int, l: AExp, r: AExp, op: RelOp, k: AExp, w: string, end: string, env: Env)
    requires INT_MIN <= n <= INT_MAX && Blank(w)
    ensures !Separate(false, Juxtaposed(n, l, r, op, k, w, end))
  {
    hide Separate;
    NumberThenMax(n, l, r, w, Token(w, ")", Token(w, RelText(op), PrintA(k, 2, w, end))), env);
  }
}
