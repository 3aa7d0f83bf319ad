/** Semantic actions write closure values that backtracking never undoes, and
    `max` is even tried after another alternative has matched. For every text
    whatsoever, no value written in an abandoned attempt reaches an accepted
    result: the grammar answers as if abandoned assignments had been taken back. */
module DepthScoping {
  import opened Wrappers
  import opened DepthGrammar
  import opened DepthPrinter
  import opened DepthRoundTrip

  /** Only in front of a `max` that does not parse can a stale value be left. */
  predicate AtMax(s: string) {
    StartsNoCase(Skip(s), "max")
  }

  ghost predicate Agree<V>(c: Out<V>, r: Out<V>) {
    c.ok == r.ok && (c.ok ==> c.rest == r.rest && (c.value == r.value || AtMax(c.rest)))
  }

  /** Agreement without a stale value. */
  ghost predicate Equal<V>(c: Out<V>, r: Out<V>) {
    c.ok == r.ok && (c.ok ==> c.rest == r.rest && c.value == r.value)
  }

  lemma MaxBlocks(s: string, t: string)
    requires AtMax(s) && t != [] && t[0] != 'm' && t[0] != 'M'
    ensures Match(s, t) == None
  {
  }

  function Code(topo: Topology): Env { Env(topo, false, false) }
  function Scoped(topo: Topology): Env { Env(topo, true, false) }

  // ------------------------------------------------------------- integer rules

  lemma {:induction false} IntegerAgrees(s: string, topo: Topology, tc: bool, tr: bool)
    ensures Agree(Integer(s, Code(topo), tc), Integer(s, Scoped(topo), tr))
    decreases |s|, 3
  {
    hide Choice, Extremum;
    var lc, lr := Choice(s, Code(topo), tc), Choice(s, Scoped(topo), tr);
    ChoiceAgrees(s, topo, tc, tr);
    var at := if lc.ok then lc.rest else s;
    ExtremumAgrees(at, "max", topo, lc.value, lr.value, lc.trap, lr.trap);
  }

  lemma {:induction false} ChoiceAgrees(s: string, topo: Topology, tc: bool, tr: bool)
    ensures Agree(Choice(s, Code(topo), tc), Choice(s, Scoped(topo), tr))
    decreases |s|, 2
  {
    hide Symbols, Words;
    SymbolsAgrees(s, topo, tc, tr);
    var c, r := Symbols(s, Code(topo), tc), Symbols(s, Scoped(topo), tr);
    WordsAgrees(s, topo, c.value, r.value, c.trap, r.trap);
  }

  lemma {:induction false} SymbolsAgrees(s: string, topo: Topology, tc: bool, tr: bool)
    ensures Agree(Symbols(s, Code(topo), tc), Symbols(s, Scoped(topo), tr))
    decreases |s|, 1
  {
    hide Signed, Group;
    if IntP(s).None? {
      SignedAgrees(s, "+", topo, 0, 0, tc, tr);
      var bc, br := Signed(s, "+", Code(topo), 0, tc), Signed(s, "+", Scoped(topo), 0, tr);
      SignedAgrees(s, "-", topo, bc.value, br.value, bc.trap, br.trap);
      var cc := Signed(s, "-", Code(topo), bc.value, bc.trap);
      var cr := Signed(s, "-", Scoped(topo), br.value, br.trap);
      GroupAgrees(s, topo, cc.value, cr.value, cc.trap, cr.trap);
    }
  }

  lemma {:induction false} SignedAgrees(s: string, sign: string, topo: Topology, vc: int, vr: int, tc: bool, tr: bool)
    requires sign == "+" || sign == "-"
    ensures Agree(Signed(s, sign, Code(topo), vc, tc), Signed(s, sign, Scoped(topo), vr, tr))
    decreases |s|, 0
  {
    hide Integer;
    match Match(s, sign)
    case None =>
    case Some(rest) => IntegerAgrees(rest, topo, tc, tr);
  }

  lemma {:induction false} GroupAgrees(s: string, topo: Topology, vc: int, vr: int, tc: bool, tr: bool)
    ensures Equal(Group(s, Code(topo), vc, tc), Group(s, Scoped(topo), vr, tr))
    decreases |s|, 0
  {
    hide Additive;
    match Match(s, "(")
    case None =>
    case Some(rest) =>
      AdditiveAgrees(rest, topo, tc, tr);
      var o := Additive(rest, Code(topo), tc);
      if o.ok && AtMax(o.rest) { MaxBlocks(o.rest, ")"); }
  }

  lemma WordsAgrees(s: string, topo: Topology, vc: int, vr: int, tc: bool, tr: bool)
    ensures Agree(Words(s, Code(topo), vc, tc), Words(s, Scoped(topo), vr, tr))
    decreases |s|, 1
  {
    hide Keyword, Extremum;
    KeywordAgrees(s, KEYS, topo, vc, vr, tc, tr);
    var c, r := Keyword(s, KEYS, Code(topo), vc, tc), Keyword(s, KEYS, Scoped(topo), vr, tr);
    ExtremumAgrees(s, "min", topo, c.value, r.value, c.trap, r.trap);
  }

  lemma {:induction false} KeywordAgrees(s: string, keys: seq<Key>, topo: Topology,
                                         vc: int, vr: int, tc: bool, tr: bool)
    ensures Equal(Keyword(s, keys, Code(topo), vc, tc), Keyword(s, keys, Scoped(topo), vr, tr))
    decreases |keys|
  {
    if keys != [] && MatchNoCase(s, KeyText(keys[0])).None? {
      KeywordAgrees(s, keys[1..], topo, vc, vr, tc, tr);
    }
  }

  /** Where the two operands end, and which reading wins: None if they cannot be read. */
  lemma OperandsEnd(s: string, name: string, env: Env, v: int, trap: bool)
    ensures var o, a := Operands(s, name, env, v, trap), Additive(s, env, trap);
            (!o.ok && env.scoped ==> o.value == v)
            && match (if a.ok then Match(a.rest, ",") else None)
               case None => !o.ok
               case Some(second) =>
                 var b := Additive(second, env, a.trap);
                 var end := if b.ok then Match(b.rest, ")") else None;
                 o.ok == end.Some?
                 && (o.ok ==> o.rest == end.value
                              && o.value == if name == "min" then MinOf(a.value, b.value) else MaxOf(a.value, b.value))
  {
    hide Additive, Match, MinOf, MaxOf;
  }

  lemma {:induction false} OperandsAgrees(s: string, name: string, topo: Topology, vc: int, vr: int, tc: bool, tr: bool)
    ensures var c, r := Operands(s, name, Code(topo), vc, tc), Operands(s, name, Scoped(topo), vr, tr);
            Equal(c, r) && (!c.ok ==> r.value == vr)
    decreases |s|, 7
  {
    hide Additive, AtMax, Match, MinOf, MaxOf, Operands;
    OperandsEnd(s, name, Code(topo), vc, tc);
    OperandsEnd(s, name, Scoped(topo), vr, tr);
    AdditiveAgrees(s, topo, tc, tr);
    var ac, ar := Additive(s, Code(topo), tc), Additive(s, Scoped(topo), tr);
    if ac.ok {
      NotAtMax(ac.rest, ",");
      match Match(ac.rest, ",")
      case None =>
      case Some(second) =>
        AdditiveAgrees(second, topo, ac.trap, ar.trap);
        var bc := Additive(second, Code(topo), ac.trap);
        if bc.ok { NotAtMax(bc.rest, ")"); }
    }
  }

  lemma NotAtMax(s: string, t: string)
    requires t != [] && t[0] != 'm' && t[0] != 'M'
    ensures Match(s, t).Some? ==> !AtMax(s)
  {
    if AtMax(s) { MaxBlocks(s, t); }
  }

  /** A failing `min` or `max` leaves a stale value only behind its own name. */
  lemma {:induction false} ExtremumAgrees(s: string, name: string, topo: Topology, vc: int, vr: int, tc: bool, tr: bool)
    requires name == "min" || name == "max"
    ensures var c, r := Extremum(s, name, Code(topo), vc, tc), Extremum(s, name, Scoped(topo), vr, tr);
            && Equal(c, r)
            && (!c.ok ==> r.value == vr)
            && (!c.ok && !StartsNoCase(Skip(s), name) ==> c.value == vc)
    decreases |s|, 0
  {
    hide Operands;
    match MatchNoCase(s, name)
    case None =>
    case Some(r1) =>
      match Match(r1, "(")
      case None =>
      case Some(r2) => OperandsAgrees(r2, name, topo, vc, vr, tc, tr);
  }

  lemma {:induction false} MultiplicativeAgrees(s: string, topo: Topology, tc: bool, tr: bool)
    ensures Agree(Multiplicative(s, Code(topo), tc), Multiplicative(s, Scoped(topo), tr))
    decreases |s|, 4
  {
    hide Integer, MulTail;
    IntegerAgrees(s, topo, tc, tr);
    var c, r := Integer(s, Code(topo), tc), Integer(s, Scoped(topo), tr);
    if c.ok { MulTailAgrees(c.rest, topo, c.value, r.value, c.trap, r.trap); }
  }

  lemma {:induction false} OperandAgrees(s: string, op: string, topo: Topology, tc: bool, tr: bool)
    requires op != []
    ensures Agree(Operand(s, op, Code(topo), tc), Operand(s, op, Scoped(topo), tr))
    decreases |s|, 3
  {
    hide Integer;
    match Match(s, op)
    case None =>
    case Some(rest) => IntegerAgrees(rest, topo, tc, tr);
  }

  lemma OperandBlocked(s: string, op: string, env: Env, trap: bool)
    requires AtMax(s) && op != [] && op[0] != 'm' && op[0] != 'M'
    ensures Operand(s, op, env, trap) == Failed(s, 0, trap)
  {
    MaxBlocks(s, op);
  }

  lemma MulTailBlocked(s: string, env: Env, v: int, trap: bool)
    requires AtMax(s)
    ensures MulTail(s, env, v, trap) == Out(true, s, v, trap)
  {
    hide Operand;
    OperandBlocked(s, "*", env, trap);
    OperandBlocked(s, "/", env, trap);
    OperandBlocked(s, "%", env, trap);
  }

  /** One turn of the repetition. */
  lemma MulTailStep(s: string, env: Env, v: int, trap: bool)
    ensures var times := Operand(s, "*", env, trap);
            var over := Operand(s, "/", env, times.trap);
            var modulo := Operand(s, "%", env, over.trap);
            MulTail(s, env, v, trap) ==
            if times.ok then MulTail(times.rest, env, Product(v, times.value), times.trap)
            else if over.ok then MulTail(over.rest, env, Quotient(v, over.value), over.trap || over.value == 0)
            else if modulo.ok then
              MulTail(modulo.rest, env, Remainder(v, modulo.value), modulo.trap || modulo.value == 0)
            else Out(true, s, v, modulo.trap)
  {
    hide Operand, Product, Quotient, Remainder;
  }

  lemma {:induction false} MulTailAgrees(s: string, topo: Topology, vc: int, vr: int, tc: bool, tr: bool)
    requires vc == vr || AtMax(s)
    ensures Agree(MulTail(s, Code(topo), vc, tc), MulTail(s, Scoped(topo), vr, tr))
    decreases |s|, 4
  {
    hide Operand, AtMax, Product, Quotient, Remainder, MulTail;
    MulTailStep(s, Code(topo), vc, tc);
    MulTailStep(s, Scoped(topo), vr, tr);
    if AtMax(s) {
      MulTailBlocked(s, Code(topo), vc, tc);
      MulTailBlocked(s, Scoped(topo), vr, tr);
    } else {
      OperandAgrees(s, "*", topo, tc, tr);
      var mc, mr := Operand(s, "*", Code(topo), tc), Operand(s, "*", Scoped(topo), tr);
      if mc.ok {
        MulTailAgrees(mc.rest, topo, Product(vc, mc.value), Product(vr, mr.value), mc.trap, mr.trap);
      } else {
        OperandAgrees(s, "/", topo, mc.trap, mr.trap);
        var dc, dr := Operand(s, "/", Code(topo), mc.trap), Operand(s, "/", Scoped(topo), mr.trap);
        if dc.ok {
          MulTailAgrees(dc.rest, topo, Quotient(vc, dc.value), Quotient(vr, dr.value),
                        dc.trap || dc.value == 0, dr.trap || dr.value == 0);
        } else {
          OperandAgrees(s, "%", topo, dc.trap, dr.trap);
          var pc, pr := Operand(s, "%", Code(topo), dc.trap), Operand(s, "%", Scoped(topo), dr.trap);
          if pc.ok {
            MulTailAgrees(pc.rest, topo, Remainder(vc, pc.value), Remainder(vr, pr.value),
                          pc.trap || pc.value == 0, pr.trap || pr.value == 0);
          }
        }
      }
    }
  }

  lemma {:induction false} AdditiveAgrees(s: string, topo: Topology, tc: bool, tr: bool)
    ensures Agree(Additive(s, Code(topo), tc), Additive(s, Scoped(topo), tr))
    decreases |s|, 6
  {
    hide Multiplicative, AddTail;
    MultiplicativeAgrees(s, topo, tc, tr);
    var c, r := Multiplicative(s, Code(topo), tc), Multiplicative(s, Scoped(topo), tr);
    if c.ok { AddTailAgrees(c.rest, topo, c.value, r.value, c.trap, r.trap); }
  }

  lemma {:induction false} TermAgrees(s: string, op: string, topo: Topology, tc: bool, tr: bool)
    requires op != []
    ensures Agree(Term(s, op, Code(topo), tc), Term(s, op, Scoped(topo), tr))
    decreases |s|, 5
  {
    hide Multiplicative;
    match Match(s, op)
    case None =>
    case Some(rest) => MultiplicativeAgrees(rest, topo, tc, tr);
  }

  lemma TermBlocked(s: string, op: string, env: Env, trap: bool)
    requires AtMax(s) && op != [] && op[0] != 'm' && op[0] != 'M'
    ensures Term(s, op, env, trap) == Failed(s, 0, trap)
  {
    MaxBlocks(s, op);
  }

  lemma AddTailBlocked(s: string, env: Env, v: int, trap: bool)
    requires AtMax(s)
    ensures AddTail(s, env, v, trap) == Out(true, s, v, trap)
  {
    hide Term;
    TermBlocked(s, "+", env, trap);
    TermBlocked(s, "-", env, trap);
  }

  lemma AddTailStep(s: string, env: Env, v: int, trap: bool)
    ensures var plus := Term(s, "+", env, trap);
            var minus := Term(s, "-", env, plus.trap);
            AddTail(s, env, v, trap) ==
            if plus.ok then AddTail(plus.rest, env, v + plus.value, plus.trap)
            else if minus.ok then AddTail(minus.rest, env, v - minus.value, minus.trap)
            else Out(true, s, v, minus.trap)
  {
    hide Term;
  }

  lemma {:induction false} AddTailAgrees(s: string, topo: Topology, vc: int, vr: int, tc: bool, tr: bool)
    requires vc == vr || AtMax(s)
    ensures Agree(AddTail(s, Code(topo), vc, tc), AddTail(s, Scoped(topo), vr, tr))
    decreases |s|, 6
  {
    hide Term, AtMax, AddTail;
    AddTailStep(s, Code(topo), vc, tc);
    AddTailStep(s, Scoped(topo), vr, tr);
    if AtMax(s) {
      AddTailBlocked(s, Code(topo), vc, tc);
      AddTailBlocked(s, Scoped(topo), vr, tr);
    } else {
      TermAgrees(s, "+", topo, tc, tr);
      var pc, pr := Term(s, "+", Code(topo), tc), Term(s, "+", Scoped(topo), tr);
      if pc.ok {
        AddTailAgrees(pc.rest, topo, vc + pc.value, vr + pr.value, pc.trap, pr.trap);
      } else {
        TermAgrees(s, "-", topo, pc.trap, pr.trap);
        var mc, mr := Term(s, "-", Code(topo), pc.trap), Term(s, "-", Scoped(topo), pr.trap);
        if mc.ok {
          AddTailAgrees(mc.rest, topo, vc - mc.value, vr - mr.value, mc.trap, mr.trap);
        }
      }
    }
  }

  // ------------------------------------------------------------- boolean rules

  lemma {:induction false} ComparisonAgrees(s: string, ops: seq<RelOp>, topo: Topology,
                                            vc: int, vr: int, tc: bool, tr: bool)
    requires vc == vr || AtMax(s)
    ensures Agree(Comparison(s, ops, vc, Code(topo), tc), Comparison(s, ops, vr, Scoped(topo), tr))
    decreases |ops|
  {
    hide Additive;
    if ops != [] {
      if AtMax(s) { MaxBlocks(s, RelText(ops[0])); }
      match Match(s, RelText(ops[0]))
      case None => ComparisonAgrees(s, ops[1..], topo, vc, vr, tc, tr);
      case Some(rest) =>
        AdditiveAgrees(rest, topo, tc, tr);
        var c, r := Additive(rest, Code(topo), tc), Additive(rest, Scoped(topo), tr);
        ComparisonAgrees(s, ops[1..], topo, vc, vr, c.trap, r.trap);
    }
  }

  lemma RelationalAgrees(s: string, topo: Topology, tc: bool, tr: bool)
    ensures Agree(Relational(s, Code(topo), tc), Relational(s, Scoped(topo), tr))
  {
    hide Additive, Comparison;
    AdditiveAgrees(s, topo, tc, tr);
    var c, r := Additive(s, Code(topo), tc), Additive(s, Scoped(topo), tr);
    if c.ok { ComparisonAgrees(c.rest, RELATIONS, topo, c.value, r.value, c.trap, r.trap); }
  }

  lemma {:induction false} PlaceAgrees(s: string, places: seq<Place>, topo: Topology,
                                       vc: bool, vr: bool, tc: bool, tr: bool)
    ensures Equal(PlaceRule(s, places, Code(topo), vc, tc), PlaceRule(s, places, Scoped(topo), vr, tr))
    decreases |places|
  {
    if places != [] && MatchNoCase(s, PlaceText(places[0])).None? {
      PlaceAgrees(s, places[1..], topo, vc, vr, tc, tr);
    }
  }

  lemma {:induction false} NegationAgrees(s: string, topo: Topology, vc: bool, vr: bool, tc: bool, tr: bool)
    ensures Agree(Negation(s, Code(topo), vc, tc), Negation(s, Scoped(topo), vr, tr))
    decreases |s|, 0
  {
    hide Boolean;
    match Match(s, "!")
    case None =>
    case Some(rest) => BooleanAgrees(rest, topo, tc, tr);
  }

  lemma {:induction false} BoolGroupAgrees(s: string, topo: Topology, vc: bool, vr: bool, tc: bool, tr: bool)
    ensures Equal(BoolGroup(s, Code(topo), vc, tc), BoolGroup(s, Scoped(topo), vr, tr))
    decreases |s|, 0
  {
    hide LogicalOr;
    match Match(s, "(")
    case None =>
    case Some(rest) =>
      LogicalOrAgrees(rest, topo, tc, tr);
      var o := LogicalOr(rest, Code(topo), tc);
      if o.ok && AtMax(o.rest) { MaxBlocks(o.rest, ")"); }
  }

  lemma {:induction false} BooleanAgrees(s: string, topo: Topology, tc: bool, tr: bool)
    ensures Agree(Boolean(s, Code(topo), tc), Boolean(s, Scoped(topo), tr))
    decreases |s|, 1
  {
    hide Relational, Negation, BoolGroup, PlaceRule, AtMax;
    RelationalAgrees(s, topo, tc, tr);
    var ac, ar := Relational(s, Code(topo), tc), Relational(s, Scoped(topo), tr);
    if !ac.ok {
      NegationAgrees(s, topo, false, false, ac.trap, ar.trap);
      var bc, br := Negation(s, Code(topo), false, ac.trap), Negation(s, Scoped(topo), false, ar.trap);
      if !bc.ok {
        BoolGroupAgrees(s, topo, bc.value, br.value, bc.trap, br.trap);
        var cc, cr := BoolGroup(s, Code(topo), bc.value, bc.trap), BoolGroup(s, Scoped(topo), br.value, br.trap);
        if !cc.ok {
          PlaceAgrees(s, PLACES, topo, cc.value, cr.value, cc.trap, cr.trap);
        }
      }
    }
  }

  lemma {:induction false} LogicalAndAgrees(s: string, topo: Topology, tc: bool, tr: bool)
    ensures Agree(LogicalAnd(s, Code(topo), tc), LogicalAnd(s, Scoped(topo), tr))
    decreases |s|, 2
  {
    hide Boolean, AndTail;
    BooleanAgrees(s, topo, tc, tr);
    var c, r := Boolean(s, Code(topo), tc), Boolean(s, Scoped(topo), tr);
    if c.ok { AndTailAgrees(c.rest, topo, c.value, r.value, c.trap, r.trap); }
  }

  lemma {:induction false} AndTailAgrees(s: string, topo: Topology, vc: bool, vr: bool, tc: bool, tr: bool)
    requires vc == vr || AtMax(s)
    ensures Agree(AndTail(s, Code(topo), vc, tc), AndTail(s, Scoped(topo), vr, tr))
    decreases |s|, 2
  {
    hide Boolean;
    if AtMax(s) { MaxBlocks(s, "&&"); }
    match Match(s, "&&")
    case None =>
    case Some(rest) =>
      BooleanAgrees(rest, topo, tc, tr);
      var c, r := Boolean(rest, Code(topo), tc), Boolean(rest, Scoped(topo), tr);
      if c.ok { AndTailAgrees(c.rest, topo, vc && c.value, vr && r.value, c.trap, r.trap); }
  }

  lemma {:induction false} LogicalOrAgrees(s: string, topo: Topology, tc: bool, tr: bool)
    ensures Agree(LogicalOr(s, Code(topo), tc), LogicalOr(s, Scoped(topo), tr))
    decreases |s|, 4
  {
    hide LogicalAnd, OrTail;
    LogicalAndAgrees(s, topo, tc, tr);
    var c, r := LogicalAnd(s, Code(topo), tc), LogicalAnd(s, Scoped(topo), tr);
    if c.ok { OrTailAgrees(c.rest, topo, c.value, r.value, c.trap, r.trap); }
  }

  lemma {:induction false} OrTailAgrees(s: string, topo: Topology, vc: bool, vr: bool, tc: bool, tr: bool)
    requires vc == vr || AtMax(s)
    ensures Agree(OrTail(s, Code(topo), vc, tc), OrTail(s, Scoped(topo), vr, tr))
    decreases |s|, 4
  {
    hide LogicalAnd;
    if AtMax(s) { MaxBlocks(s, "||"); }
    match Match(s, "||")
    case None =>
    case Some(rest) =>
      LogicalAndAgrees(rest, topo, tc, tr);
      var c, r := LogicalAnd(rest, Code(topo), tc), LogicalAnd(rest, Scoped(topo), tr);
      if c.ok { OrTailAgrees(c.rest, topo, vc || c.value, vr || r.value, c.trap, r.trap); }
  }

  // ---------------------------------------------------------------- the result

  /** No text is accepted with a stale value, nor rejected because of one. */
  lemma NoStaleValue(s: string, topo: Topology)
    ensures ParseExpression(s, Code(topo)).value == ParseExpression(s, Scoped(topo)).value
  {
    LogicalOrAgrees(s, topo, false, false);
  }

  // ------------------------------------------------- what the sequential or does

  /** `max(l,r` without its closing parenthesis, in front of `tail`. */
  function OpenMax(l: AExp, r: AExp, w: string, tail: string): string {
    Token(w, "max", Token(w, "(", PrintA(l, 2, w, Token(w, ",", PrintA(r, 2, w, tail)))))
  }

  lemma OpenMaxReads(l: AExp, r: AExp, w: string, tail: string, env: Env, v: int, trap: bool)
    requires LiteralsA(l) && LiteralsA(r) && Blank(w) && Stops2(tail)
    requires DefA(l, env.topo) && DefA(r, env.topo)
    ensures var both := MaxOf(EvalA(l, env.topo), EvalA(r, env.topo));
            var o := Extremum(OpenMax(l, r, w, tail), "max", env, v, trap);
            match Match(tail, ")")
            case Some(end) => o == Out(true, end, both, trap)
            case None => o == Failed(OpenMax(l, r, w, tail), Undo(env, v, both), trap)
  {
    hide Additive;
    var second := PrintA(r, 2, w, tail);
    var comma := Token(w, ",", second);
    var first := PrintA(l, 2, w, comma);
    TokenMatchesNoCase(w, "max", "max", Token(w, "(", first));
    TokenMatches(w, "(", first);
    TokenMatches(w, ",", second);
    AdditiveReads(l, w, comma, env, trap);
    AdditiveReads(r, w, tail, env, trap);
  }

  /** `n max(l,r)` is accepted as one integer, and its value is the maximum. */
  lemma MaxAfterNumber(n: int, l: AExp, r: AExp, w: string, tail: string, env: Env, trap: bool)
    requires INT_MIN <= n <= INT_MAX && LiteralsA(l) && LiteralsA(r) && Blank(w) && !env.plain
    requires DefA(l, env.topo) && DefA(r, env.topo)
    ensures Integer(PrintA(Num(n), 0, w, OpenMax(l, r, w, Token(w, ")", tail))), env, trap) ==
            Out(true, tail, MaxOf(EvalA(l, env.topo), EvalA(r, env.topo)), trap)
  {
    hide Choice, Extremum;
    TokenMatches(w, ")", tail);
    OpenMaxReads(l, r, w, Token(w, ")", tail), env, n, trap);
    NumReads(n, w, OpenMax(l, r, w, Token(w, ")", tail)), env, trap);
  }

  /** Stale values do occur inside a parse: a `max` that lacks its closing
      parenthesis is not matched, yet in the code it has replaced the number. */
  lemma StaleValueInside(n: int, l: AExp, r: AExp, w: string, tail: string, env: Env, trap: bool)
    requires INT_MIN <= n <= INT_MAX && LiteralsA(l) && LiteralsA(r) && Blank(w) && !env.plain
    requires DefA(l, env.topo) && DefA(r, env.topo) && Stops2(tail) && Match(tail, ")") == None
    ensures Integer(PrintA(Num(n), 0, w, OpenMax(l, r, w, tail)), env, trap) ==
            Out(true, OpenMax(l, r, w, tail),
                if env.scoped then n else MaxOf(EvalA(l, env.topo), EvalA(r, env.topo)), trap)
  {
    hide Choice, Extremum;
    OpenMaxReads(l, r, w, tail, env, n, trap);
    NumReads(n, w, OpenMax(l, r, w, tail), env, trap);
  }
}
