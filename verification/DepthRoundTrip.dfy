/** Printing a depth expression and parsing the text gives back its direct
    meaning: precedence, associativity and backtracking are right. */
module DepthRoundTrip {
  import opened Wrappers
  import opened DepthGrammar
  import opened DepthPrinter

  // ------------------------------------------------------------ reading tokens

  function Next(s: string): char {
    if Skip(s) == [] then '\0' else Skip(s)[0]
  }

  lemma {:induction false} SkipBlank(w: string, s: string)
    requires Blank(w)
    ensures Skip(w + s) == Skip(s)
  {
    if w == [] {
      assert w + s == s;
    } else {
      SkipBlank(w[1..], s);
      assert (w + s)[1..] == w[1..] + s;
    }
  }

  lemma TokenSkips(w: string, t: string, tail: string)
    requires Blank(w) && t != [] && !IsSpace(t[0])
    ensures Skip(Token(w, t, tail)) == t + tail
    ensures Next(Token(w, t, tail)) == t[0]
  {
    SkipBlank(w, t + tail);
  }

  lemma TokenMatches(w: string, t: string, tail: string)
    requires Blank(w) && t != [] && !IsSpace(t[0])
    ensures Match(Token(w, t, tail), t) == Some(tail)
    ensures Next(Token(w, t, tail)) == t[0]
  {
    TokenSkips(w, t, tail);
    assert (t + tail)[|t|..] == tail;
  }

  lemma TokenMatchesNoCase(w: string, t: string, word: string, tail: string)
    requires Blank(w) && t != [] && !IsSpace(t[0]) && Spells(t, word)
    ensures MatchNoCase(Token(w, t, tail), word) == Some(tail)
  {
    TokenSkips(w, t, tail);
    assert (t + tail)[|t|..] == tail;
  }

  lemma OtherToken(s: string, t: string)
    requires t != []
    ensures t[0] != Next(s) && t[0] != '\0' ==> Match(s, t) == None
    ensures t[0] != Lower(Next(s)) && t[0] != '\0' ==> MatchNoCase(s, t) == None
  {
  }

  /** Two different keywords part at some position. */
  lemma OtherWord(w: string, t: string, tail: string, u: string, i: nat)
    requires Blank(w) && t != [] && !IsSpace(t[0]) && i < |u|
    requires if i < |t| then Lower(t[i]) != u[i]
             else i == |t| && (tail == [] || Lower(tail[0]) != u[i])
    ensures MatchNoCase(Token(w, t, tail), u) == None
  {
    TokenSkips(w, t, tail);
    if |u| <= |t + tail| {
      assert (t + tail)[i] == if i < |t| then t[i] else tail[0];
    }
  }

  // ------------------------------------------------------------------- numbers

  lemma DigitCharReads(d: nat)
    requires d < 10
    ensures IsDigit((48 + d) as char) && DigitValue((48 + d) as char) == d
  {
  }

  lemma NatOfSnoc(s: string, c: char)
    ensures NatOf(s + [c]) == NatOf(s) * 10 + DigitValue(c)
  {
    assert (s + [c])[..|s|] == s;
  }

  lemma {:induction false} DigitsRead(n: nat)
    ensures DigitsText(n) != [] && NatOf(DigitsText(n)) == n
    ensures forall i :: 0 <= i < |DigitsText(n)| ==> IsDigit(DigitsText(n)[i])
  {
    hide NatOf, IsDigit, DigitValue;
    var low := n % 10;
    DigitCharReads(low);
    if n < 10 {
      NatOfSnoc([], (48 + n) as char);
      assert [] + [(48 + n) as char] == [(48 + n) as char];
      NatOfEmpty();
    } else {
      DigitsRead(n / 10);
      NatOfSnoc(DigitsText(n / 10), (48 + low) as char);
      assert n == (n / 10) * 10 + low;
    }
  }

  lemma NatOfEmpty()
    ensures NatOf([]) == 0
  {
  }

  lemma {:induction false} SpanOfDigits(d: string, tail: string)
    requires forall i :: 0 <= i < |d| ==> IsDigit(d[i])
    requires tail == [] || !IsDigit(tail[0])
    ensures DigitSpan(d + tail) == |d|
  {
    if d == [] {
      assert d + tail == tail;
    } else {
      SpanOfDigits(d[1..], tail);
      assert (d + tail)[1..] == d[1..] + tail;
    }
  }

  function SignedValue(sign: string, n: int): int {
    if sign == "-" then -n else n
  }

  /** A number token, possibly after a sign that directly precedes it, if it fits. */
  lemma NumberReads(s: string, n: nat, sign: string, tail: string)
    requires tail == [] || !IsDigit(tail[0])
    requires sign == "" || sign == "+" || sign == "-"
    requires Skip(s) == sign + (DigitsText(n) + tail)
    ensures var v := SignedValue(sign, n);
            IntP(s) == if INT_MIN <= v <= INT_MAX then Some((v, tail)) else None
  {
    var d := DigitsText(n);
    DigitsRead(n);
    SpanOfDigits(d, tail);
    var u := Skip(s);
    assert u[|sign|..] == d + tail;
    assert (d + tail)[..|d|] == d && (d + tail)[|d|..] == tail;
    assert sign == "" ==> u == d + tail && u[0] == d[0];
  }

  // ---------------------------------------------------------- where rules stop

  predicate Stops0(s: string) {
    !IsDigit(Next(s)) && Next(s) != 'm' && Next(s) != 'M'
  }

  predicate Stops1(s: string) {
    Stops0(s) && Next(s) !in {'*', '/', '%'}
  }

  predicate Stops2(s: string) {
    Stops1(s) && Next(s) !in {'+', '-'}
  }

  lemma NoDigitAhead(s: string)
    requires Stops0(s)
    ensures s == [] || !IsDigit(s[0])
  {
  }

  lemma NoMaxAhead(s: string, env: Env, v: int, trap: bool)
    requires Stops0(s)
    ensures Extremum(s, "max", env, v, trap) == Failed(s, v, trap)
  {
    OtherToken(s, "max");
  }

  lemma MulStops(s: string, env: Env, v: int, trap: bool)
    requires Stops1(s)
    ensures MulTail(s, env, v, trap) == Out(true, s, v, trap)
  {
    OtherToken(s, "*");
    OtherToken(s, "/");
    OtherToken(s, "%");
  }

  lemma AddStops(s: string, env: Env, v: int, trap: bool)
    requires Stops2(s)
    ensures AddTail(s, env, v, trap) == Out(true, s, v, trap)
  {
    OtherToken(s, "+");
    OtherToken(s, "-");
  }

  /** Nothing but a number, sign, parenthesis or keyword starts an integer. */
  lemma NoInteger(s: string, env: Env, trap: bool)
    requires !IsDigit(Next(s)) && Next(s) !in {'+', '-', '('}
    requires Lower(Next(s)) !in {'r', 'n', 'm'}
    ensures !Integer(s, env, trap).ok && Integer(s, env, trap).trap == trap
  {
    LetterReachesKeywords(s, env, trap);
    NoKeyword(s, KEYS, env, 0, trap);
    OtherToken(s, "min");
    OtherToken(s, "max");
  }

  lemma NoNumber(s: string, v: int, trap: bool)
    requires !IsDigit(Next(s)) && Next(s) !in {'+', '-'}
    ensures Number(s, v, trap) == Failed(s, v, trap)
  {
  }

  lemma {:induction false} NoKeyword(s: string, keys: seq<Key>, env: Env, v: int, trap: bool)
    requires Lower(Next(s)) !in {'r', 'n', 'm'}
    ensures Keyword(s, keys, env, v, trap) == Failed(s, v, trap)
  {
    if keys != [] {
      OtherToken(s, KeyText(keys[0]));
      NoKeyword(s, keys[1..], env, v, trap);
    }
  }

  // ------------------------------------------------------------------ integers

  /** What every printed integer must read as. */
  ghost predicate Reads(o: Out<int>, e: AExp, tail: string, env: Env, trap: bool) {
    o == Out(true, tail, EvalA(e, env.topo), trap || !DefA(e, env.topo))
  }

  function Level(e: AExp): nat {
    if e.Bin? then OpLevel(e.op) else 0
  }

  /** Orders the three rules on one tree: a rule above the tree's own level goes
      down to it, a rule below it goes through parentheses. */
  function Cost(e: AExp, level: nat): nat {
    if level >= Level(e) then level - Level(e) else 10 + level
  }

  lemma {:induction false} IntegerReads(e: AExp, w: string, tail: string, env: Env, trap: bool)
    requires LiteralsA(e) && Blank(w) && Stops0(tail)
    ensures Reads(Integer(PrintA(e, 0, w, tail), env, trap), e, tail, env, trap)
    decreases e, Cost(e, 0), 1
  {
    hide Choice, Extremum, Additive, Match;
    NoMaxAhead(tail, env, EvalA(e, env.topo), trap || !DefA(e, env.topo));
    match e
    case Num(n) => NoDigitAhead(tail); NumReads(n, w, tail, env, trap);
    case Var(k, t) => VarReads(k, t, w, tail, env, trap);
    case Pos(x) => SignReads(x, "+", w, tail, env, trap);
    case Neg(x) => SignReads(x, "-", w, tail, env, trap);
    case Min(t, l, r) => CallReads(e, "min", t, l, r, w, tail, env, trap);
    case Max(t, l, r) => CallReads(e, "max", t, l, r, w, tail, env, trap);
    case Bin(_, _, _) =>
      var inner := Token(w, ")", tail);
      TokenMatches(w, ")", tail);
      AdditiveReads(e, w, inner, env, trap);
      GroupReads(w, PrintA(e, 2, w, inner), env, trap);
  }

  lemma NumReads(n: int, w: string, tail: string, env: Env, trap: bool)
    requires INT_MIN <= n <= INT_MAX && Blank(w) && (tail == [] || !IsDigit(tail[0]))
    ensures Choice(PrintA(Num(n), 0, w, tail), env, trap) == Out(true, tail, n, trap)
  {
    var s := Token(w, NumText(n), tail);
    NumTextSkips(n, w, tail);
    if n < 0 { NumberReads(s, -n, "-", tail); } else { NumberReads(s, n, "", tail); }
    assert Number(s, 0, trap) == Out(true, tail, n, trap);
  }

  lemma NumTextSkips(n: int, w: string, tail: string)
    requires Blank(w)
    ensures Skip(Token(w, NumText(n), tail)) ==
            if n < 0 then "-" + (DigitsText(-n) + tail) else "" + (DigitsText(n) + tail)
  {
    var d := DigitsText(if n < 0 then -n else n);
    DigitsRead(if n < 0 then -n else n);
    hide DigitsText;
    if n < 0 {
      TokenSkips(w, "-" + d, tail);
      Regroup("-", d, tail);
    } else {
      TokenSkips(w, d, tail);
      Regroup("", "", d + tail);
    }
  }

  lemma Regroup(a: string, b: string, c: string)
    ensures (a + b) + c == a + (b + c)
    ensures a == "" ==> a + c == c
  {
  }

  /** A token that starts with a letter reaches the keyword alternatives. */
  lemma LetterReachesKeywords(s: string, env: Env, trap: bool)
    requires !IsDigit(Next(s)) && Next(s) !in {'+', '-', '('}
    ensures var k := Keyword(s, KEYS, env, 0, trap);
            Choice(s, env, trap) == if k.ok then k else Extremum(s, "min", env, k.value, k.trap)
  {
    SymbolsFail(s, env, trap);
  }

  lemma SymbolsFail(s: string, env: Env, trap: bool)
    requires !IsDigit(Next(s)) && Next(s) !in {'+', '-', '('}
    ensures Symbols(s, env, trap) == Failed(s, 0, trap)
  {
    NoNumber(s, 0, trap);
    OtherToken(s, "+");
    OtherToken(s, "-");
    OtherToken(s, "(");
  }

  /** Position at which two distinct keywords differ. */
  function Part(a: Key, b: Key): nat {
    if {a, b} == {Rank, RootDistance} then 1
    else if a in {Rank, RootDistance, MaxLeafDistance} || b in {Rank, RootDistance, MaxLeafDistance} then 0
    else 3
  }

  lemma KeysPart(a: Key, b: Key)
    requires a != b
    ensures Part(a, b) < |KeyText(a)| && Part(a, b) < |KeyText(b)|
    ensures KeyText(a)[Part(a, b)] != KeyText(b)[Part(a, b)]
  {
    assert Rank in {Rank, RootDistance} && RootDistance in {Rank, RootDistance};
  }

  lemma KeysAreLower(k: Key)
    ensures forall i :: 0 <= i < |KeyText(k)| ==> Lower(KeyText(k)[i]) == KeyText(k)[i]
    ensures 'a' <= KeyText(k)[0] <= 'z'
    ensures k in KEYS
  {
    assert KEYS[0] == Rank && KEYS[1] == NumChildren && KEYS[2] == NumSiblings && KEYS[3] == NumDescendants;
    assert KEYS[4] == NumLeafDescendants && KEYS[5] == RootDistance && KEYS[6] == MaxLeafDistance;
  }

  /** A spelled word starts with a letter. */
  lemma SpelledStarts(t: string, word: string)
    requires word != [] && 'a' <= word[0] <= 'z' && Spells(t, word)
    ensures t != [] && !IsSpace(t[0]) && !IsDigit(t[0]) && t[0] !in {'+', '-', '(', '!', '\0'}
    ensures Lower(t[0]) == word[0]
  {
  }

  lemma VarReads(k: Key, t: string, w: string, tail: string, env: Env, trap: bool)
    requires Blank(w) && Spells(t, KeyText(k))
    ensures Choice(PrintA(Var(k, t), 0, w, tail), env, trap) == Out(true, tail, KeyValue(k, env.topo), trap)
  {
    KeysAreLower(k);
    SpelledStarts(t, KeyText(k));
    TokenSkips(w, t, tail);
    LetterReachesKeywords(Token(w, t, tail), env, trap);
    KeywordReads(k, t, KEYS, w, tail, env, trap);
  }

  lemma {:induction false} KeywordReads(k: Key, t: string, keys: seq<Key>, w: string, tail: string,
                                       env: Env, trap: bool)
    requires Blank(w) && k in keys && Spells(t, KeyText(k))
    ensures Keyword(Token(w, t, tail), keys, env, 0, trap) == Out(true, tail, KeyValue(k, env.topo), trap)
  {
    KeysAreLower(k);
    SpelledStarts(t, KeyText(k));
    if keys[0] == k {
      TokenMatchesNoCase(w, t, KeyText(k), tail);
    } else {
      KeysPart(k, keys[0]);
      OtherWord(w, t, tail, KeyText(keys[0]), Part(k, keys[0]));
      KeywordReads(k, t, keys[1..], w, tail, env, trap);
    }
  }

  lemma GroupReads(w: string, inside: string, env: Env, trap: bool)
    requires Blank(w)
    ensures var s := Token(w, "(", inside);
            var o := Additive(inside, env, trap);
            Choice(s, env, trap) ==
            if o.ok && Match(o.rest, ")").Some? then Out(true, Match(o.rest, ")").value, o.value, o.trap)
            else Failed(s, Choice(s, env, trap).value, o.trap)
  {
    var s := Token(w, "(", inside);
    TokenMatches(w, "(", inside);
    SymbolsGroup(s, env, trap);
    var d := Group(s, env, 0, trap);
    NoKeyword(s, KEYS, env, d.value, d.trap);
    OtherToken(s, "min");
    assert Words(s, env, d.value, d.trap) == Failed(s, d.value, d.trap);
  }

  lemma SymbolsGroup(s: string, env: Env, trap: bool)
    requires Next(s) == '('
    ensures Symbols(s, env, trap) == Group(s, env, 0, trap)
  {
    NoNumber(s, 0, trap);
    OtherToken(s, "+");
    OtherToken(s, "-");
  }

  lemma {:induction false} CallReads(e: AExp, name: string, text: string, l: AExp, r: AExp,
                                     w: string, tail: string, env: Env, trap: bool)
    requires (name == "min" && e == Min(text, l, r)) || (name == "max" && e == Max(text, l, r))
    requires LiteralsA(e) && Blank(w) && Stops0(tail)
    ensures Reads(Integer(PrintA(e, 0, w, tail), env, trap), e, tail, env, trap)
    decreases e, 0, 0
  {
    var t4 := Token(w, ")", tail);
    var t3 := PrintA(r, 2, w, t4);
    var t2 := Token(w, ",", t3);
    var t1 := PrintA(l, 2, w, t2);
    TokenMatches(w, ")", tail);
    TokenMatches(w, ",", t3);
    AdditiveReads(l, w, t2, env, trap);
    AdditiveReads(r, w, t4, env, trap || !DefA(l, env.topo));
    OperandsGrammar(name, t1, t2, t3, t4, tail, env, 0, trap);
    CallGrammar(name, text, t1, w, tail, env, trap);
  }

  lemma OperandsGrammar(name: string, t1: string, t2: string, t3: string, t4: string,
                        tail: string, env: Env, v: int, trap: bool)
    requires var a := Additive(t1, env, trap); a.ok && a.rest == t2
    requires Match(t2, ",") == Some(t3)
    requires var b := Additive(t3, env, Additive(t1, env, trap).trap); b.ok && b.rest == t4
    requires Match(t4, ")") == Some(tail)
    ensures var a := Additive(t1, env, trap);
            var b := Additive(t3, env, a.trap);
            Operands(t1, name, env, v, trap) ==
            Out(true, tail, if name == "min" then MinOf(a.value, b.value) else MaxOf(a.value, b.value), b.trap)
  {
    hide Additive;
  }

  /** `min(..)` and `max(..)` read as what their operands read as. */
  lemma CallGrammar(name: string, text: string, t1: string, w: string, tail: string, env: Env, trap: bool)
    requires (name == "min" || name == "max") && Spells(text, name) && Blank(w) && Stops0(tail)
    requires var o := Operands(t1, name, env, 0, trap); o.ok && o.rest == tail
    ensures Integer(Token(w, text, Token(w, "(", t1)), env, trap) == Operands(t1, name, env, 0, trap)
  {
    hide Operands, Keyword, Choice, Words;
    var t0 := Token(w, "(", t1);
    var s := Token(w, text, t0);
    SpelledStarts(text, name);
    TokenMatches(w, "(", t1);
    TokenMatchesNoCase(w, text, name, t0);
    TokenSkips(w, text, t0);
    LetterReachesKeywords(s, env, trap);
    CallIsNoKeyword(name, text, KEYS, w, t1, env, trap);
    var o := Operands(t1, name, env, 0, trap);
    if name == "max" {
      OtherWord(w, text, t0, "min", 1);
    } else {
      NoMaxAhead(tail, env, o.value, o.trap);
    }
  }

  lemma {:induction false} CallIsNoKeyword(name: string, text: string, keys: seq<Key>, w: string, inside: string,
                                           env: Env, trap: bool)
    requires Blank(w) && (name == "min" || name == "max") && Spells(text, name)
    ensures var s := Token(w, text, Token(w, "(", inside));
            Keyword(s, keys, env, 0, trap) == Failed(s, 0, trap)
  {
    if keys != [] {
      var t0 := Token(w, "(", inside);
      assert t0[0] == if w == [] then '(' else w[0];
      SpelledStarts(text, name);
      OtherWord(w, text, t0, KeyText(keys[0]),
                if keys[0] != MaxLeafDistance then 0 else if name == "min" then 1 else 3);
      CallIsNoKeyword(name, text, keys[1..], w, inside, env, trap);
    }
  }

  lemma {:induction false} SignReads(x: AExp, sign: string, w: string, tail: string, env: Env, trap: bool)
    requires (sign == "+" || sign == "-") && LiteralsA(x) && Blank(w) && Stops0(tail)
    ensures Choice(Token(w, sign, PrintA(x, 0, w, tail)), env, trap) ==
            Out(true, tail, SignedValue(sign, EvalA(x, env.topo)), trap || !DefA(x, env.topo))
    decreases x, 100, 0
  {
    hide Choice, Integer;
    if w == [] && x.Num? && x.n >= 0 {
      SignedNumberReads(x.n, sign, tail, env, trap);
    } else {
      IntegerReads(x, w, tail, env, trap);
      SignGrammar(sign, x, w, tail, env, trap);
    }
  }

  /** A sign directly before digits belongs to the number token. */
  lemma SignedNumberReads(n: nat, sign: string, tail: string, env: Env, trap: bool)
    requires (sign == "+" || sign == "-") && n <= INT_MAX && Stops0(tail)
    ensures Choice(Token("", sign, PrintA(Num(n), 0, "", tail)), env, trap) ==
            Out(true, tail, SignedValue(sign, n), trap)
  {
    var s := Token("", sign, PrintA(Num(n), 0, "", tail));
    NoDigitAhead(tail);
    TokenSkips("", sign, PrintA(Num(n), 0, "", tail));
    assert PrintA(Num(n), 0, "", tail) == DigitsText(n) + tail;
    NumberReads(s, n, sign, tail);
    assert Number(s, 0, trap) == Out(true, tail, SignedValue(sign, n), trap);
  }

  lemma SignGrammar(sign: string, x: AExp, w: string, tail: string, env: Env, trap: bool)
    requires (sign == "+" || sign == "-") && LiteralsA(x) && Blank(w) && !(w == [] && x.Num? && x.n >= 0)
    requires Integer(PrintA(x, 0, w, tail), env, trap).ok
    ensures var o := Integer(PrintA(x, 0, w, tail), env, trap);
            Choice(Token(w, sign, PrintA(x, 0, w, tail)), env, trap) ==
            o.(value := if sign == "-" then -o.value else o.value)
  {
    var inner := PrintA(x, 0, w, tail);
    var s := Token(w, sign, inner);
    LoneSign(sign, x, w, tail);
    TokenMatches(w, sign, inner);
    SymbolsSign(s, sign, inner, env, trap);
  }

  lemma SymbolsSign(s: string, sign: string, inner: string, env: Env, trap: bool)
    requires (sign == "+" || sign == "-") && Next(s) == sign[0]
    requires IntP(s) == None && Match(s, sign) == Some(inner) && Integer(inner, env, trap).ok
    ensures var o := Integer(inner, env, trap);
            Symbols(s, env, trap) == o.(value := if sign == "-" then -o.value else o.value)
  {
    assert Number(s, 0, trap) == Failed(s, 0, trap);
    if sign == "-" { OtherToken(s, "+"); }
    assert Signed(s, sign, env, 0, trap).ok;
  }

  lemma LoneSign(sign: string, x: AExp, w: string, tail: string)
    requires (sign == "+" || sign == "-") && LiteralsA(x) && Blank(w) && !(w == [] && x.Num? && x.n >= 0)
    ensures IntP(Token(w, sign, PrintA(x, 0, w, tail))) == None
  {
    var inner := PrintA(x, 0, w, tail);
    TokenSkips(w, sign, inner);
    NoDigitFirst(x, w, tail);
    assert (sign + inner)[1..] == inner;
  }

  lemma NoDigitFirst(x: AExp, w: string, tail: string)
    requires LiteralsA(x) && Blank(w) && !(w == [] && x.Num? && x.n >= 0)
    ensures DigitSpan(PrintA(x, 0, w, tail)) == 0
  {
    if w != [] {
      assert IsSpace(w[0]);
      assert PrintA(x, 0, w, tail)[0] == w[0];
    } else {
      match x
      case Var(k, t) => KeysAreLower(k); SpelledStarts(t, KeyText(k));
      case Min(t, _, _) => SpelledStarts(t, "min");
      case Max(t, _, _) => SpelledStarts(t, "max");
      case _ =>
    }
  }

  lemma {:induction false} MultiplicativeReads(e: AExp, w: string, tail: string, env: Env, trap: bool)
    requires LiteralsA(e) && Blank(w) && Stops0(tail)
    ensures Multiplicative(PrintA(e, 1, w, tail), env, trap) ==
            MulTail(tail, env, EvalA(e, env.topo), trap || !DefA(e, env.topo))
    decreases e, Cost(e, 1), 0
  {
    hide Product, Quotient, Remainder;
    if Level(e) != 1 {
      IntegerReads(e, w, tail, env, trap);
    } else {
      var right := PrintA(e.r, 0, w, tail);
      var rest := Token(w, OpText(e.op), right);
      TokenMatches(w, OpText(e.op), right);
      var trap1 := trap || !DefA(e.l, env.topo);
      MultiplicativeReads(e.l, w, rest, env, trap);
      IntegerReads(e.r, w, tail, env, trap1);
      if e.op != Times { OtherToken(rest, "*"); }
      if e.op == Modulo { OtherToken(rest, "/"); }
    }
  }

  lemma {:induction false} AdditiveTail(e: AExp, w: string, tail: string, env: Env, trap: bool)
    requires LiteralsA(e) && Blank(w) && Stops1(tail)
    ensures Additive(PrintA(e, 2, w, tail), env, trap) ==
            AddTail(tail, env, EvalA(e, env.topo), trap || !DefA(e, env.topo))
    decreases e, Cost(e, 2), 0
  {
    if Level(e) != 2 {
      MultiplicativeReads(e, w, tail, env, trap);
      MulStops(tail, env, EvalA(e, env.topo), trap || !DefA(e, env.topo));
    } else {
      var right := PrintA(e.r, 1, w, tail);
      var rest := Token(w, OpText(e.op), right);
      TokenMatches(w, OpText(e.op), right);
      var trap1 := trap || !DefA(e.l, env.topo);
      AdditiveTail(e.l, w, rest, env, trap);
      MultiplicativeReads(e.r, w, tail, env, trap1);
      MulStops(tail, env, EvalA(e.r, env.topo), trap1 || !DefA(e.r, env.topo));
      AddTailStep(rest, e.op, right, tail, env, EvalA(e.l, env.topo), trap1);
    }
  }

  lemma AddTailStep(s: string, op: AOp, right: string, tail: string, env: Env, v: int, trap: bool)
    requires OpLevel(op) == 2 && Next(s) == OpText(op)[0] && Match(s, OpText(op)) == Some(right)
    requires var o := Multiplicative(right, env, trap); o.ok && o.rest == tail
    ensures var o := Multiplicative(right, env, trap);
            AddTail(s, env, v, trap) == AddTail(tail, env, Apply(op, v, o.value), o.trap)
  {
    if op != Plus { OtherToken(s, "+"); }
    assert Term(s, OpText(op), env, trap) == Multiplicative(right, env, trap);
  }

  lemma {:induction false} AdditiveReads(e: AExp, w: string, tail: string, env: Env, trap: bool)
    requires LiteralsA(e) && Blank(w) && Stops2(tail)
    ensures Reads(Additive(PrintA(e, 2, w, tail), env, trap), e, tail, env, trap)
    decreases e, Cost(e, 2), 1
  {
    AdditiveTail(e, w, tail, env, trap);
    AddStops(tail, env, EvalA(e, env.topo), trap || !DefA(e, env.topo));
  }

  // ------------------------------------------------------------------ booleans

  /** What may follow a complete boolean. */
  predicate StopsB(s: string) {
    Next(s) in {'\0', ')', '&', '|'}
  }

  ghost predicate ReadsB(o: Out<bool>, b: BExp, tail: string, env: Env, trap: bool) {
    o == Out(true, tail, EvalB(b, env.topo), trap || !DefB(b, env.topo))
  }

  function LevelB(b: BExp): nat {
    if b.Or? then 2 else if b.And? then 1 else 0
  }

  function CostB(b: BExp, level: nat): nat {
    if level >= LevelB(b) then level - LevelB(b) else 10 + level
  }

  /** The integer rules, tried on the text of a boolean, fail or stop in front of
      a comparison; they divide by zero only if the boolean itself does. */
  ghost predicate Misreads(o: Out<int>, b: BExp, topo: Topology, trap: bool) {
    && (o.ok ==> Next(o.rest) in {'=', '!', '<', '>'})
    && (trap ==> o.trap)
    && (o.trap ==> trap || !DefB(b, topo))
  }

  lemma {:induction false} AdditiveMisreads(b: BExp, level: nat, w: string, tail: string, env: Env, trap: bool)
    requires LiteralsB(b) && Blank(w) && level <= 2
    ensures Misreads(Additive(PrintB(b, level, w, tail), env, trap), b, env.topo, trap)
    decreases b, 2 - level
  {
    if b.Rel? {
      var right := PrintA(b.r, 2, w, tail);
      var rest := Token(w, RelText(b.rel), right);
      TokenSkips(w, RelText(b.rel), right);
      AdditiveReads(b.l, w, rest, env, trap);
    } else if b.And? && level >= 1 {
      AdditiveMisreads(b.x, 1, w, Token(w, "&&", PrintB(b.y, 0, w, tail)), env, trap);
    } else if b.Or? && level >= 2 {
      AdditiveMisreads(b.x, 2, w, Token(w, "||", PrintB(b.y, 1, w, tail)), env, trap);
    } else {
      if b.And? || b.Or? {
        AdditiveMisreads(b, 2, w, Token(w, ")", tail), env, trap);
      }
      AdditiveFails(b, level, w, tail, env, trap);
    }
  }

  /** A boolean that opens with a keyword, `!` or a parenthesis is no integer at all. */
  lemma AdditiveFails(b: BExp, level: nat, w: string, tail: string, env: Env, trap: bool)
    requires level < LevelB(b) || b.Where? || b.Not?
    requires LiteralsB(b) && Blank(w) && level <= 2
    requires b.And? || b.Or? ==>
               Misreads(Additive(PrintB(b, 2, w, Token(w, ")", tail)), env, trap), b, env.topo, trap)
    ensures var o := Additive(PrintB(b, level, w, tail), env, trap);
            !o.ok && Misreads(o, b, env.topo, trap)
  {
    var s := PrintB(b, level, w, tail);
    match b
    case Where(p, t) =>
      SpelledStarts(t, PlaceText(p));
      TokenSkips(w, t, tail);
      NoInteger(s, env, trap);
    case Not(x) =>
      TokenSkips(w, "!", PrintB(x, 0, w, tail));
      NoInteger(s, env, trap);
    case And(_, _) => GroupFails(w, PrintB(b, 2, w, Token(w, ")", tail)), env, trap);
    case Or(_, _) => GroupFails(w, PrintB(b, 2, w, Token(w, ")", tail)), env, trap);
    case Rel(_, _, _) => assert false;
  }

  lemma GroupFails(w: string, inside: string, env: Env, trap: bool)
    requires Blank(w)
    requires var o := Additive(inside, env, trap); o.ok ==> Next(o.rest) in {'=', '!', '<', '>'}
    ensures var o := Integer(Token(w, "(", inside), env, trap);
            !o.ok && o.trap == Additive(inside, env, trap).trap
  {
    var s, o := Token(w, "(", inside), Additive(inside, env, trap);
    if o.ok { OtherToken(o.rest, ")"); }
    GroupReads(w, inside, env, trap);
    TokenSkips(w, "(", inside);
    OtherToken(s, "max");
  }

  /** Nothing but a comparison matches `relational`. */
  lemma RelationalFails(b: BExp, w: string, tail: string, env: Env, trap: bool)
    requires LiteralsB(b) && Blank(w) && !b.Rel?
    ensures var o := Relational(PrintB(b, 0, w, tail), env, trap);
            o == Failed(PrintB(b, 0, w, tail), false, o.trap)
            && (trap ==> o.trap) && (o.trap ==> trap || !DefB(b, env.topo))
  {
    if b.And? || b.Or? {
      AdditiveMisreads(b, 2, w, Token(w, ")", tail), env, trap);
    }
    AdditiveFails(b, 0, w, tail, env, trap);
  }

  function Position(op: RelOp): nat {
    match op
    case Eq => 0
    case Ne => 1
    case Lt => 2
    case Le => 3
    case Gt => 4
    case Ge => 5
  }

  /** `<` is tried before `<=` and backs out, because no integer starts with `=`. */
  lemma EarlierRelation(here: RelOp, op: RelOp, s: string, right: string, env: Env, trap: bool)
    requires Position(here) < Position(op) && Skip(s) == RelText(op) + right
    ensures match Match(s, RelText(here))
            case None => true
            case Some(after) => !Additive(after, env, trap).ok && Additive(after, env, trap).trap == trap
  {
    if (here == Lt && op == Le) || (here == Gt && op == Ge) {
      var after := Match(s, RelText(here)).value;
      assert after == "=" + right;
      assert Skip(after) == after && Next(after) == '=';
      NoInteger(after, env, trap);
      AdditiveNoInteger(after, env, trap);
    } else {
      OtherToken(s, RelText(here));
    }
  }

  lemma {:induction false} ComparisonReads(k: nat, op: RelOp, s: string, right: string, tail: string,
                                           left: int, env: Env, trap: bool)
    requires k <= Position(op)
    requires Skip(s) == RelText(op) + right && Match(s, RelText(op)) == Some(right)
    requires var o := Additive(right, env, trap); o.ok && o.rest == tail
    ensures var o := Additive(right, env, trap);
            Comparison(s, RELATIONS[k..], left, env, trap) == Out(true, tail, Holds(op, left, o.value), o.trap)
    decreases 6 - k
  {
    var here := RELATIONS[k];
    assert RELATIONS[k..][0] == here && RELATIONS[k..][1..] == RELATIONS[k + 1..];
    if k < Position(op) {
      ComparisonReads(k + 1, op, s, right, tail, left, env, trap);
      EarlierRelation(here, op, s, right, env, trap);
    }
  }

  lemma AdditiveNoInteger(s: string, env: Env, trap: bool)
    requires !Integer(s, env, trap).ok && Integer(s, env, trap).trap == trap
    ensures !Additive(s, env, trap).ok && Additive(s, env, trap).trap == trap
  {
  }

  lemma RelGrammar(s: string, op: RelOp, rest: string, right: string, tail: string, env: Env, trap: bool)
    requires var a := Additive(s, env, trap); a.ok && a.rest == rest
    requires Skip(rest) == RelText(op) + right && Match(rest, RelText(op)) == Some(right)
    requires var b := Additive(right, env, Additive(s, env, trap).trap); b.ok && b.rest == tail
    ensures var a := Additive(s, env, trap);
            var b := Additive(right, env, a.trap);
            Relational(s, env, trap) == Out(true, tail, Holds(op, a.value, b.value), b.trap)
  {
    var a := Additive(s, env, trap);
    ComparisonReads(0, op, rest, right, tail, a.value, env, a.trap);
    assert RELATIONS[0..] == RELATIONS;
  }

  lemma RelToken(w: string, op: RelOp, right: string)
    requires Blank(w)
    ensures var rest := Token(w, RelText(op), right);
            Stops2(rest) && Skip(rest) == RelText(op) + right && Match(rest, RelText(op)) == Some(right)
  {
    TokenSkips(w, RelText(op), right);
    TokenMatches(w, RelText(op), right);
  }

  lemma RelReads(op: RelOp, l: AExp, r: AExp, w: string, tail: string, env: Env, trap: bool)
    requires LiteralsA(l) && LiteralsA(r) && Blank(w) && StopsB(tail)
    ensures Relational(PrintA(l, 2, w, Token(w, RelText(op), PrintA(r, 2, w, tail))), env, trap) ==
            Out(true, tail, Holds(op, EvalA(l, env.topo), EvalA(r, env.topo)),
                trap || !DefA(l, env.topo) || !DefA(r, env.topo))
  {
    hide Relational, Comparison;
    var right := PrintA(r, 2, w, tail);
    var rest := Token(w, RelText(op), right);
    RelToken(w, op, right);
    assert Stops2(tail);
    var left := PrintA(l, 2, w, rest);
    AdditiveReads(l, w, rest, env, trap);
    AdditiveReads(r, w, tail, env, trap || !DefA(l, env.topo));
    RelGrammar(left, op, rest, right, tail, env, trap);
  }

  function Order(p: Place): nat {
    match p
    case Fe => 0
    case CpTop => 1
    case CpMiddle => 2
    case CpBottom => 3
    case Cp => 4
    case Be => 5
  }

  function PlacesPart(p: Place, here: Place): nat {
    if p == Be || here == Fe then 0 else if p == Cp then 2 else 3
  }

  lemma EarlierPlace(here: Place, p: Place, t: string, w: string, tail: string)
    requires Order(here) < Order(p) && Blank(w) && (tail == [] || tail[0] != ':') && Spells(t, PlaceText(p))
    ensures MatchNoCase(Token(w, t, tail), PlaceText(here)) == None
  {
    SpelledStarts(t, PlaceText(p));
    var i := PlacesPart(p, here);
    assert i < |PlaceText(here)| && (p == Cp ==> i in {0, 2});
    OtherWord(w, t, tail, PlaceText(here), i);
  }

  lemma {:induction false} PlaceReads(k: nat, p: Place, t: string, w: string, tail: string,
                                     env: Env, v: bool, trap: bool)
    requires k <= Order(p) && Blank(w) && (tail == [] || tail[0] != ':') && Spells(t, PlaceText(p))
    ensures PlaceRule(Token(w, t, tail), PLACES[k..], env, v, trap)
            == Out(true, tail, PlaceValue(p, env.topo), trap)
    decreases 6 - k
  {
    var here := PLACES[k];
    assert PLACES[k..][0] == here && PLACES[k..][1..] == PLACES[k + 1..];
    if k < Order(p) {
      PlaceReads(k + 1, p, t, w, tail, env, v, trap);
      EarlierPlace(here, p, t, w, tail);
    } else {
      SpelledStarts(t, PlaceText(p));
      TokenMatchesNoCase(w, t, PlaceText(p), tail);
    }
  }

  lemma WhereReads(p: Place, t: string, w: string, tail: string, env: Env, trap: bool)
    requires Blank(w) && StopsB(tail) && Spells(t, PlaceText(p))
    ensures ReadsB(Boolean(PrintB(Where(p, t), 0, w, tail), env, trap), Where(p, t), tail, env, trap)
  {
    var s := Token(w, t, tail);
    SpelledStarts(t, PlaceText(p));
    RelationalFails(Where(p, t), w, tail, env, trap);
    TokenSkips(w, t, tail);
    OtherToken(s, "!");
    OtherToken(s, "(");
    PlaceReads(0, p, t, w, tail, env, false, trap);
    assert PLACES[0..] == PLACES;
  }

  lemma {:induction false} BooleanReads(b: BExp, w: string, tail: string, env: Env, trap: bool)
    requires LiteralsB(b) && Blank(w) && StopsB(tail)
    ensures ReadsB(Boolean(PrintB(b, 0, w, tail), env, trap), b, tail, env, trap)
    decreases b, CostB(b, 0)
  {
    match b
    case Where(p, t) => WhereReads(p, t, w, tail, env, trap);
    case Rel(op, l, r) => RelReads(op, l, r, w, tail, env, trap);
    case Not(x) =>
      var inner := PrintB(x, 0, w, tail);
      RelationalFails(b, w, tail, env, trap);
      TokenMatches(w, "!", inner);
      BooleanReads(x, w, tail, env, Relational(PrintB(b, 0, w, tail), env, trap).trap);
    case _ =>
      var inner := PrintB(b, 2, w, Token(w, ")", tail));
      RelationalFails(b, w, tail, env, trap);
      TokenMatches(w, "(", inner);
      TokenMatches(w, ")", tail);
      OtherToken(Token(w, "(", inner), "!");
      var trap1 := Relational(PrintB(b, 0, w, tail), env, trap).trap;
      OrReads(b, w, Token(w, ")", tail), env, trap1);
      OtherToken(Token(w, ")", tail), "||");
  }

  lemma {:induction false} AndReads(b: BExp, w: string, tail: string, env: Env, trap: bool)
    requires LiteralsB(b) && Blank(w) && StopsB(tail)
    ensures LogicalAnd(PrintB(b, 1, w, tail), env, trap) ==
            AndTail(tail, env, EvalB(b, env.topo), trap || !DefB(b, env.topo))
    decreases b, CostB(b, 1)
  {
    if !b.And? {
      BooleanReads(b, w, tail, env, trap);
    } else {
      var right := PrintB(b.y, 0, w, tail);
      TokenMatches(w, "&&", right);
      AndReads(b.x, w, Token(w, "&&", right), env, trap);
      BooleanReads(b.y, w, tail, env, trap || !DefB(b.x, env.topo));
    }
  }

  lemma {:induction false} OrReads(b: BExp, w: string, tail: string, env: Env, trap: bool)
    requires LiteralsB(b) && Blank(w) && StopsB(tail) && Next(tail) != '&'
    ensures LogicalOr(PrintB(b, 2, w, tail), env, trap) ==
            OrTail(tail, env, EvalB(b, env.topo), trap || !DefB(b, env.topo))
    decreases b, CostB(b, 2)
  {
    OtherToken(tail, "&&");
    if !b.Or? {
      AndReads(b, w, tail, env, trap);
    } else {
      var right := PrintB(b.y, 1, w, tail);
      TokenMatches(w, "||", right);
      OrReads(b.x, w, Token(w, "||", right), env, trap);
      AndReads(b.y, w, tail, env, trap || !DefB(b.x, env.topo));
    }
  }

  /** Every expression, printed with the fewest parentheses and any blanks before
      its tokens, is matched to its end and yields its direct meaning; a division
      by zero is executed exactly when the expression contains one. */
  lemma PrintedParses(b: BExp, w: string, end: string, env: Env)
    requires LiteralsB(b) && Blank(w) && Blank(end)
    ensures ParseExpression(Print(b, w, end), env) ==
            Out(true, end, Full(EvalB(b, env.topo)), !DefB(b, env.topo))
  {
    SkipBlank(end, "");
    assert end + "" == end;
    OrReads(b, w, end, env, false);
    OtherToken(end, "||");
  }
}
