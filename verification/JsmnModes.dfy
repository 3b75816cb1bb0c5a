// Two-run properties of jsmn_parse: resuming after NOMEM, more memory than needed,
// and the counting mode against the token mode.

module JsmnModes {
  import opened JsmnLexer
  import opened JsmnModel

  // Resumption: a call that ran out of tokens, repeated on the state it left with a
  // larger array, ends exactly as one call with the larger array would have.
  lemma {:induction false} ResumeAfterNomem(js: string, s: State, small: nat, large: nat)
    requires SupInRange(s) && small <= large && Run(js, s, small).0 == NOMEM
    ensures Run(js, Run(js, s, small).1, large) == Run(js, s, large)
    decreases |js| - s.pos
  {
    if !AtEnd(js, s.pos) && Step(js, s, small).Go? {
      ResumeAfterNomem(js, Step(js, s, small).state, small, large);
    }
  }

  // A call that did not run out of tokens is not changed by having more of them.
  lemma {:induction false} MoreTokensChangeNothing(js: string, s: State, small: nat, large: nat)
    requires SupInRange(s) && small <= large && Run(js, s, small).0 != NOMEM
    ensures Run(js, s, large) == Run(js, s, small)
    decreases |js| - s.pos
  {
    if !AtEnd(js, s.pos) && Step(js, s, small).Go? {
      MoreTokensChangeNothing(js, Step(js, s, small).state, small, large);
    }
  }

  // Resuming as often as it takes: growing the array at each NOMEM ends like one call.
  function RunGrowing(js: string, s: State, caps: seq<nat>): (r: (int, State))
    requires SupInRange(s) && |caps| > 0
    ensures SupInRange(r.1)
    decreases |caps|
  {
    var (code, s') := Run(js, s, caps[0]);
    if code != NOMEM || |caps| == 1 then (code, s') else RunGrowing(js, s', caps[1..])
  }

  lemma {:induction false} RunGrowingIsOneRun(js: string, s: State, caps: seq<nat>)
    requires SupInRange(s) && |caps| > 0 && forall i, j :: 0 <= i < j < |caps| ==> caps[i] <= caps[j]
    ensures RunGrowing(js, s, caps) == Run(js, s, caps[|caps| - 1])
    decreases |caps|
  {
    var last := caps[|caps| - 1];
    if Run(js, s, caps[0]).0 != NOMEM {
      MoreTokensChangeNothing(js, s, caps[0], last);
    } else if |caps| > 1 {
      ResumeAfterNomem(js, s, caps[0], last);
      RunGrowingIsOneRun(js, Run(js, s, caps[0]).1, caps[1..]);
    }
  }

  lemma {:induction false} AllocatedFit(js: string, s: State, cap: nat)
    requires SupInRange(s) && |s.toks| <= cap
    ensures |Run(js, s, cap).1.toks| <= cap
    decreases |js| - s.pos
  {
    if !AtEnd(js, s.pos) && Step(js, s, cap).Go? { AllocatedFit(js, Step(js, s, cap).state, cap); }
  }

  // A run never allocates more tokens than characters it reads, so an array as long as
  // the text always suffices.
  lemma {:induction false} TokensNeeded(js: string, s: State, cap: nat)
    requires SupInRange(s) && s.pos <= |js|
    ensures |Run(js, s, cap).1.toks| <= |s.toks| + |js| - s.pos
    ensures cap >= |s.toks| + |js| - s.pos ==> Run(js, s, cap).0 != NOMEM
    decreases |js| - s.pos
  {
    if !AtEnd(js, s.pos) && Step(js, s, cap).Go? { TokensNeeded(js, Step(js, s, cap).state, cap); }
  }

  lemma {:induction false} NomemFills(js: string, s: State, small: nat, large: nat)
    requires SupInRange(s) && |s.toks| <= small <= large
    ensures Run(js, s, small).0 == NOMEM && Run(js, s, large).0 != NOMEM ==> |Run(js, s, large).1.toks| > small
    decreases |js| - s.pos
  {
    if !AtEnd(js, s.pos) {
      var step := Step(js, s, small);
      if step.Go? {
        NomemFills(js, step.state, small, large);
      } else if Step(js, s, large).Go? {
        TokensGrow(js, Step(js, s, large).state, large);
      }
    }
  }

  lemma {:induction false} TokensGrow(js: string, s: State, cap: nat)
    requires SupInRange(s)
    ensures |s.toks| <= |Run(js, s, cap).1.toks|
    decreases |js| - s.pos
  {
    if !AtEnd(js, s.pos) && Step(js, s, cap).Go? {
      TokensGrow(js, Step(js, s, cap).state, cap);
    }
  }

  // NOMEM is returned exactly when the tokens the text takes do not fit.
  lemma NomemIffTooFew(js: string, cap: nat)
    ensures Run(js, FRESH, cap).0 == -1 <==> |Run(js, FRESH, |js|).1.toks| > cap
  {
    TokensNeeded(js, FRESH, |js|);
    TokensNeeded(js, FRESH, cap);
    AllocatedFit(js, FRESH, cap);
    if cap <= |js| {
      NomemFills(js, FRESH, cap, |js|);
      if Run(js, FRESH, cap).0 != NOMEM { MoreTokensChangeNothing(js, FRESH, cap, |js|); }
    }
  }

  // ---------- counting mode ----------

  lemma {:induction false} CountOnlyGrows(js: string, pos: nat, next: nat, sup: int, count: nat)
    ensures CountRun(js, pos, next, sup, count).0 < 0 || CountRun(js, pos, next, sup, count).0 >= count
    decreases |js| - pos
  {
    if !AtEnd(js, pos) {
      match Lex(js, pos)
      case LexError(_) =>
      case Lexed(l, q) =>
        CountOnlyGrows(js, q, next, if l.Colon? then next - 1 else sup,
                       if l.Open? || l.Leaf? then count + 1 else count);
    }
  }

  lemma {:induction false} CountAgreesFrom(js: string, s: State, cap: nat, next: nat, sup: int)
    requires SupInRange(s)
    ensures Run(js, s, cap).0 >= 0 ==> CountRun(js, s.pos, next, sup, |s.toks|).0 == Run(js, s, cap).0
    ensures 0 <= CountRun(js, s.pos, next, sup, |s.toks|).0 <= cap ==> Run(js, s, cap).0 != NOMEM
    decreases |js| - s.pos
  {
    if !AtEnd(js, s.pos) {
      match Lex(js, s.pos)
      case LexError(_) =>
      case Lexed(l, q) =>
        var sup' := if l.Colon? then next - 1 else sup;
        if Step(js, s, cap).Go? {
          CountAgreesFrom(js, Step(js, s, cap).state, cap, next, sup');
        } else if l.Open? || l.Leaf? {
          CountOnlyGrows(js, q, next, sup', |s.toks| + 1);
        }
    }
  }

  // A NULL call on a fresh parser predicts the token call.
  lemma CountingModeAgrees(js: string, cap: nat)
    ensures Run(js, FRESH, cap).0 >= 0 ==> CountRun(js, 0, 0, -1, 0).0 == Run(js, FRESH, cap).0
    ensures 0 <= CountRun(js, 0, 0, -1, 0).0 <= cap ==> Run(js, FRESH, cap).0 != NOMEM
  {
    CountAgreesFrom(js, FRESH, cap, 0, -1);
  }

  // A colon is among the lexemes read from p on.
  predicate PassesColon(js: string, p: nat)
    decreases |js| - p
  {
    !AtEnd(js, p) && Lex(js, p).Lexed? && (Lex(js, p).lexeme.Colon? || PassesColon(js, Lex(js, p).next))
  }

  // What a NULL call leaves behind: pos at the end of the input or where a lexeme is
  // refused, and toksuper as it was unless a colon put it on the last token.
  lemma {:induction false} CountLeaves(js: string, pos: nat, next: nat, sup: int, count: nat)
    ensures var (code, p, s) := CountRun(js, pos, next, sup, count);
            && p >= pos && s == (if PassesColon(js, pos) then next - 1 else sup)
            && (if code >= 0 then AtEnd(js, p) else !AtEnd(js, p) && Lex(js, p) == LexError(code))
    decreases |js| - pos
  {
    hide Lex;
    if !AtEnd(js, pos) && Lex(js, pos).Lexed? {
      var l, q := Lex(js, pos).lexeme, Lex(js, pos).next;
      CountLeaves(js, q, next, if l.Colon? then next - 1 else sup, if l.Open? || l.Leaf? then count + 1 else count);
    }
  }

  // It does not check brackets: counting succeeds on a text the token mode refuses.
  lemma CountingModeSkipsBrackets()
    ensures CountRun("]", 0, 0, -1, 0).0 == 0 && Run("]", FRESH, 1).0 == INVAL
  {
  }
}
