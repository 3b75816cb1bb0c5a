// Which texts jsmn_parse accepts, on arbitrary input: those whose strings and
// primitives all lex and whose brackets form a type-matching Dyck word; and which
// brackets each container token spans.

module JsmnAcceptance {
  import opened JsmnLexer
  import opened JsmnModel
  import opened JsmnModes
  import opened JsmnInvariants

  datatype Bracket = Bracket(opening: bool, kind: Kind, at: nat)

  // The lexemes of a text, up to its end or the first one that does not lex, cut down
  // to the brackets outside strings.
  predicate Lexes(js: string, p: nat)
    decreases |js| - p
  {
    AtEnd(js, p) || (Lex(js, p).Lexed? && Lexes(js, Lex(js, p).next))
  }

  function BracketOf(l: Lexeme, p: nat): (r: seq<Bracket>)
    ensures |r| <= 1
  {
    match l
    case Open(kind) => [Bracket(true, kind, p)]
    case Close(kind) => [Bracket(false, kind, p)]
    case _ => []
  }

  function Brackets(js: string, p: nat): seq<Bracket>
    decreases |js| - p
  {
    if AtEnd(js, p) || Lex(js, p).LexError? then []
    else BracketOf(Lex(js, p).lexeme, p) + Brackets(js, Lex(js, p).next)
  }

  predicate Matches(open: Bracket, close: Bracket) {
    open.opening && !close.opening && open.kind == close.kind
  }

  // D ::= empty | open D close D, the two brackets being of one kind.
  ghost predicate Dyck(w: seq<Bracket>)
    decreases |w|, 1
  {
    w == [] || exists k :: SplitsAt(w, k)
  }

  ghost predicate SplitsAt(w: seq<Bracket>, k: int)
    decreases |w|, 0
  {
    1 <= k < |w| && Matches(w[0], w[k]) && Dyck(w[1..k]) && Dyck(w[k + 1..])
  }

  lemma {:induction false} DyckConcat(u: seq<Bracket>, v: seq<Bracket>)
    requires Dyck(u) && Dyck(v)
    ensures Dyck(u + v)
    decreases |u|
  {
    if u == [] {
      assert u + v == v;
    } else {
      var k :| SplitsAt(u, k);
      DyckConcat(u[k + 1..], v);
      var w := u + v;
      assert w[1..k] == u[1..k] && w[k + 1..] == u[k + 1..] + v;
      assert SplitsAt(w, k);
    }
  }

  lemma DyckWrap(u: seq<Bracket>, open: Bracket, v: seq<Bracket>, close: Bracket)
    requires Dyck(u) && Dyck(v) && Matches(open, close)
    ensures Dyck(u + [open] + v + [close])
  {
    var w := [open] + v + [close];
    assert Dyck(w) by {
      assert w[1..|w| - 1] == v && w[|w|..] == [] && Dyck([]);
      assert SplitsAt(w, |w| - 1);
    }
    DyckConcat(u, w);
    assert u + w == u + [open] + v + [close];
  }

  // ---------- the stack reading of a Dyck word ----------

  // st holds the kinds of the brackets still open, innermost last.
  predicate Closes(w: seq<Bracket>, st: seq<Kind>) {
    if w == [] then st == []
    else if w[0].opening then Closes(w[1..], st + [w[0].kind])
    else st != [] && st[|st| - 1] == w[0].kind && Closes(w[1..], st[..|st| - 1])
  }

  lemma {:induction false} DyckIsSkipped(w: seq<Bracket>, rest: seq<Bracket>, st: seq<Kind>)
    requires Dyck(w)
    ensures Closes(w + rest, st) == Closes(rest, st)
    decreases |w|
  {
    if w == [] {
      assert w + rest == rest;
    } else {
      var k :| SplitsAt(w, k);
      var inner, after := st + [w[0].kind], w[k + 1..] + rest;
      var closing := [w[k]] + after;
      assert (w + rest)[1..] == w[1..k] + closing;
      DyckIsSkipped(w[1..k], closing, inner);
      assert closing[1..] == after && inner[..|inner| - 1] == st;
      DyckIsSkipped(w[k + 1..], rest, st);
    }
  }

  // ---------- the parser's stack ----------

  // The unclosed tokens below n, outermost first, and their kinds.
  function OpenStack(toks: seq<Token>, n: nat): (r: seq<nat>)
    requires n <= |toks|
    ensures forall m :: 0 <= m < |r| ==> r[m] < n && IsOpen(toks[r[m]])
  {
    if n == 0 then []
    else if IsOpen(toks[n - 1]) then OpenStack(toks, n - 1) + [n - 1]
    else OpenStack(toks, n - 1)
  }

  lemma {:induction false} StackTop(toks: seq<Token>, n: nat)
    requires n <= |toks|
    ensures var st := OpenStack(toks, n);
            if LastOpen(toks, n) == -1 then st == []
            else |st| > 0 && st[|st| - 1] == LastOpen(toks, n) && st[..|st| - 1] == OpenStack(toks, LastOpen(toks, n))
  {
    if n > 0 {
      if IsOpen(toks[n - 1]) {
        assert OpenStack(toks, n)[..|OpenStack(toks, n)| - 1] == OpenStack(toks, n - 1);
      } else {
        StackTop(toks, n - 1);
      }
    }
  }

  // The stack depends on which tokens are open only.
  lemma {:induction false} StackSame(a: seq<Token>, b: seq<Token>, n: nat)
    requires n <= |a| && n <= |b| && forall i :: 0 <= i < n ==> IsOpen(a[i]) == IsOpen(b[i])
    ensures OpenStack(a, n) == OpenStack(b, n)
  {
    if n > 0 { StackSame(a, b, n - 1); }
  }

  lemma {:induction false} StackClosed(toks: seq<Token>, k: nat, n: nat)
    requires k <= n <= |toks| && forall i :: k <= i < n ==> !IsOpen(toks[i])
    ensures OpenStack(toks, n) == OpenStack(toks, k)
  {
    if k < n { StackClosed(toks, k, n - 1); }
  }

  lemma StackAfterAppend(toks: seq<Token>, i: int, t: Token)
    requires -1 <= i < |toks|
    ensures OpenStack(Grow(toks, i, 1) + [t], |toks| + 1)
            == OpenStack(toks, |toks|) + if IsOpen(t) then [|toks|] else []
  {
    StackSame(Grow(toks, i, 1) + [t], toks, |toks|);
  }

  lemma StackAfterClose(toks: seq<Token>, pos: nat)
    requires LastOpen(toks, |toks|) >= 0
    ensures var k := LastOpen(toks, |toks|);
            var st := OpenStack(toks, |toks|);
            |st| > 0 && st[|st| - 1] == k
            && OpenStack(toks[k := toks[k].(end := pos + 1)], |toks|) == st[..|st| - 1]
  {
    var k := LastOpen(toks, |toks|);
    var closed := toks[k := toks[k].(end := pos + 1)];
    StackTop(toks, |toks|);
    StackClosed(closed, k, |toks|);
    StackSame(closed, toks, k);
  }

  function Kinds(toks: seq<Token>, st: seq<nat>): (r: seq<Kind>)
    requires forall m :: 0 <= m < |st| ==> st[m] < |toks|
    ensures |r| == |st|
  {
    seq(|st|, m requires 0 <= m < |st| => toks[st[m]].kind)
  }

  function OpenKinds(toks: seq<Token>): seq<Kind> {
    Kinds(toks, OpenStack(toks, |toks|))
  }

  lemma AppendKinds(toks: seq<Token>, i: int, t: Token)
    requires -1 <= i < |toks|
    ensures OpenKinds(Grow(toks, i, 1) + [t]) == OpenKinds(toks) + if IsOpen(t) then [t.kind] else []
  {
    StackAfterAppend(toks, i, t);
  }

  lemma CloseKinds(toks: seq<Token>, pos: nat)
    ensures var k := LastOpen(toks, |toks|);
            var kinds := OpenKinds(toks);
            if k == -1 then kinds == []
            else
              kinds != [] && kinds[|kinds| - 1] == toks[k].kind
              && OpenKinds(toks[k := toks[k].(end := pos + 1)]) == kinds[..|kinds| - 1]
  {
    StackTop(toks, |toks|);
    if LastOpen(toks, |toks|) >= 0 { StackAfterClose(toks, pos); }
  }

  // The unclosed tokens of a state act as the stack of Closes.
  lemma StepStack(js: string, s: State, cap: nat)
    requires WellFormed(s) && !AtEnd(js, s.pos) && Lex(js, s.pos).Lexed?
    ensures var l := Lex(js, s.pos).lexeme;
            var kinds := OpenKinds(s.toks);
            match Step(js, s, cap)
            case Go(s') =>
              (match l
               case Open(kind) => OpenKinds(s'.toks) == kinds + [kind]
               case Close(kind) =>
                 kinds != [] && kinds[|kinds| - 1] == kind && OpenKinds(s'.toks) == kinds[..|kinds| - 1]
               case _ => OpenKinds(s'.toks) == kinds)
            case Fail(code) =>
              code != NOMEM ==> l.Close? && (kinds == [] || kinds[|kinds| - 1] != l.kind)
  {
    match Lex(js, s.pos).lexeme
    case Open(kind) => AppendKinds(s.toks, s.sup, Token(kind, s.pos, -1, 0));
    case Leaf(kind, start, end) =>
      AppendKinds(s.toks, s.sup, Token(kind, start, end, 0));
      assert OpenKinds(s.toks) + [] == OpenKinds(s.toks);
    case Close(_) => CloseKinds(s.toks, s.pos);
    case _ =>
  }

  lemma {:induction false} RunCloses(js: string, s: State, cap: nat)
    requires WellFormed(s) && Run(js, s, cap).0 != NOMEM
    ensures Run(js, s, cap).0 >= 0
            <==> Lexes(js, s.pos) && Closes(Brackets(js, s.pos), OpenKinds(s.toks))
    decreases |js| - s.pos
  {
    if AtEnd(js, s.pos) {
      StackTop(s.toks, |s.toks|);
    } else if Lex(js, s.pos).Lexed? {
      StepStack(js, s, cap);
      var rest := Brackets(js, Lex(js, s.pos).next);
      var w := Brackets(js, s.pos);
      var l := Lex(js, s.pos).lexeme;
      assert w == BracketOf(l, s.pos) + rest;
      if l.Open? || l.Close? { assert w[1..] == rest; } else { assert w == rest; }
      if Step(js, s, cap).Go? {
        StepKeepsShape(js, s, cap);
        RunCloses(js, Step(js, s, cap).state, cap);
      }
    }
  }

  // ---------- matching pairs ----------

  // Positions a < b of w hold a matching pair with a Dyck word between them.
  ghost predicate PairAt(w: seq<Bracket>, a: int, b: int, t: Token) {
    && 0 <= a < b < |w| && t.start >= 0 && t.end >= 1
    && w[a] == Bracket(true, t.kind, t.start) && w[b] == Bracket(false, t.kind, t.end - 1)
    && Dyck(w[a + 1..b])
  }

  ghost predicate Paired(w: seq<Bracket>, t: Token) {
    exists a, b :: PairAt(w, a, b, t)
  }

  lemma PairedGrows(w: seq<Bracket>, more: seq<Bracket>, t: Token)
    requires Paired(w, t)
    ensures Paired(w + more, t)
  {
    var a, b :| PairAt(w, a, b, t);
    assert (w + more)[a + 1..b] == w[a + 1..b];
    assert PairAt(w + more, a, b, t);
  }

  // Word read so far: Dyck open Dyck open ... Dyck, one open bracket for each unclosed
  // token, and marks[m] is where the bracket of the m-th one is.
  ghost predicate Marked(w: seq<Bracket>, toks: seq<Token>, st: seq<nat>, marks: seq<nat>)
    decreases |marks|
  {
    && |marks| == |st|
    && if |marks| == 0 then Dyck(w)
       else
         var m, t := marks[|marks| - 1], st[|st| - 1];
         && m < |w| && t < |toks| && toks[t].start >= 0
         && w[m] == Bracket(true, toks[t].kind, toks[t].start)
         && Dyck(w[m + 1..])
         && Marked(w[..m], toks, st[..|st| - 1], marks[..|marks| - 1])
  }

  lemma {:induction false} MarkedSame(w: seq<Bracket>, a: seq<Token>, b: seq<Token>, st: seq<nat>, marks: seq<nat>)
    requires Marked(w, a, st, marks) && |a| <= |b|
    requires forall i :: 0 <= i < |a| ==> b[i].kind == a[i].kind && b[i].start == a[i].start
    ensures Marked(w, b, st, marks)
    decreases |marks|
  {
    if |marks| > 0 {
      MarkedSame(w[..marks[|marks| - 1]], a, b, st[..|st| - 1], marks[..|marks| - 1]);
    }
  }

  ghost predicate Spanned(toks: seq<Token>, w: seq<Bracket>, marks: seq<nat>) {
    Marked(w, toks, OpenStack(toks, |toks|), marks) && AllPaired(toks, w)
  }

  ghost predicate AllPaired(toks: seq<Token>, w: seq<Bracket>) {
    forall i :: 0 <= i < |toks| && IsContainer(toks[i]) && !IsOpen(toks[i]) ==> Paired(w, toks[i])
  }

  lemma {:induction false} MarkedOpens(w: seq<Bracket>, toks: seq<Token>, st: seq<nat>, marks: seq<nat>,
      open: Bracket, t: nat)
    requires Marked(w, toks, st, marks)
    requires t < |toks| && toks[t].start >= 0 && open == Bracket(true, toks[t].kind, toks[t].start)
    ensures Marked(w + [open], toks, st + [t], marks + [|w|])
  {
    var w', st', marks' := w + [open], st + [t], marks + [|w|];
    assert w'[|w| + 1..] == [] && w'[..|w|] == w;
    assert st'[..|st'| - 1] == st && marks'[..|marks'| - 1] == marks;
  }

  // Dropping the innermost mark by a matching bracket leaves a Dyck word behind it.
  lemma {:induction false} MarkedCloses(w: seq<Bracket>, toks: seq<Token>, st: seq<nat>, marks: seq<nat>,
      close: Bracket)
    requires Marked(w, toks, st, marks) && |marks| > 0
    requires Matches(w[marks[|marks| - 1]], close)
    ensures Marked(w + [close], toks, st[..|st| - 1], marks[..|marks| - 1])
  {
    var m := marks[|marks| - 1];
    var below, inner := w[..m], w[m + 1..];
    var marks1 := marks[..|marks| - 1];
    assert w + [close] == below + [w[m]] + inner + [close];
    if |marks1| == 0 {
      DyckWrap(below, w[m], inner, close);
    } else {
      var n := marks1[|marks1| - 1];
      DyckWrap(below[n + 1..], w[m], inner, close);
      assert (w + [close])[n + 1..] == below[n + 1..] + [w[m]] + inner + [close];
      assert (w + [close])[..n] == below[..n];
    }
  }

  lemma {:induction false} PairsKept(a: seq<Token>, b: seq<Token>, w: seq<Bracket>, more: seq<Bracket>)
    requires AllPaired(a, w) && |a| <= |b|
    requires forall i :: 0 <= i < |a| ==> b[i].kind == a[i].kind && b[i].start == a[i].start && b[i].end == a[i].end
    requires forall i :: |a| <= i < |b| ==> IsOpen(b[i]) || !IsContainer(b[i])
    ensures AllPaired(b, w + more)
  {
    forall i | 0 <= i < |a| && IsContainer(b[i]) && !IsOpen(b[i]) ensures Paired(w + more, b[i]) {
      assert Paired(w, a[i]);
      PairedGrows(w, more, a[i]);
      var x, y :| PairAt(w + more, x, y, a[i]);
      assert PairAt(w + more, x, y, b[i]);
    }
  }

  lemma AppendMarked(toks: seq<Token>, i: int, t: Token, w: seq<Bracket>, marks: seq<nat>)
    requires Spanned(toks, w, marks) && -1 <= i < |toks|
    ensures Marked(w, Grow(toks, i, 1) + [t], OpenStack(toks, |toks|), marks)
  {
    MarkedSame(w, toks, Grow(toks, i, 1) + [t], OpenStack(toks, |toks|), marks);
  }

  lemma {:induction false} LeafSpans(toks: seq<Token>, i: int, t: Token, w: seq<Bracket>, marks: seq<nat>)
    requires Spanned(toks, w, marks) && -1 <= i < |toks| && !IsContainer(t) && !IsOpen(t)
    ensures Spanned(Grow(toks, i, 1) + [t], w, marks)
  {
    AppendMarked(toks, i, t, w, marks);
    StackAfterAppend(toks, i, t);
    assert OpenStack(toks, |toks|) + [] == OpenStack(toks, |toks|);
    PairsKept(toks, Grow(toks, i, 1) + [t], w, []);
    assert w + [] == w;
  }

  lemma {:induction false} OpenSpans(toks: seq<Token>, i: int, t: Token, w: seq<Bracket>, marks: seq<nat>)
    requires Spanned(toks, w, marks) && -1 <= i < |toks| && IsOpen(t) && t.start >= 0
    ensures Spanned(Grow(toks, i, 1) + [t], w + [Bracket(true, t.kind, t.start)], marks + [|w|])
  {
    hide Dyck, Marked, AllPaired, OpenStack;
    var open := Bracket(true, t.kind, t.start);
    var toks' := Grow(toks, i, 1) + [t];
    assert Marked(w + [open], toks', OpenStack(toks', |toks'|), marks + [|w|]) by {
      AppendMarked(toks, i, t, w, marks);
      StackAfterAppend(toks, i, t);
      MarkedOpens(w, toks', OpenStack(toks, |toks|), marks, open, |toks|);
    }
    assert AllPaired(toks', w + [open]) by { PairsKept(toks, toks', w, [open]); }
  }

  lemma {:induction false} CloseSpans(toks: seq<Token>, pos: nat, w: seq<Bracket>, marks: seq<nat>)
    requires Spanned(toks, w, marks) && LastOpen(toks, |toks|) >= 0
    ensures var k := LastOpen(toks, |toks|);
            |marks| > 0 && Spanned(toks[k := toks[k].(end := pos + 1)], w + [Bracket(false, toks[k].kind, pos)],
                marks[..|marks| - 1])
  {
    hide Dyck;
    var k := LastOpen(toks, |toks|);
    var st := OpenStack(toks, |toks|);
    var closed, close := toks[k := toks[k].(end := pos + 1)], Bracket(false, toks[k].kind, pos);
    StackAfterClose(toks, pos);
    var m := marks[|marks| - 1];
    MarkedCloses(w, toks, st, marks, close);
    MarkedSame(w + [close], toks, closed, st[..|st| - 1], marks[..|marks| - 1]);
    forall i | 0 <= i < |closed| && IsContainer(closed[i]) && !IsOpen(closed[i])
      ensures Paired(w + [close], closed[i])
    {
      if i == k {
        assert (w + [close])[m + 1..|w|] == w[m + 1..];
        assert PairAt(w + [close], m, |w|, closed[i]);
      } else {
        PairedGrows(w, [close], toks[i]);
      }
    }
  }

  lemma {:induction false} StepSpans(js: string, s: State, cap: nat, w: seq<Bracket>, marks: seq<nat>)
      returns (marks': seq<nat>)
    requires WellFormed(s) && Spanned(s.toks, w, marks) && !AtEnd(js, s.pos) && Step(js, s, cap).Go?
    ensures Spanned(Step(js, s, cap).state.toks, w + BracketOf(Lex(js, s.pos).lexeme, s.pos), marks')
  {
    hide Spanned, Lex;
    match Lex(js, s.pos).lexeme
    case Open(kind) =>
      marks' := marks + [|w|];
      OpenSpans(s.toks, s.sup, Token(kind, s.pos, -1, 0), w, marks);
    case Leaf(kind, start, end) =>
      marks' := marks;
      LeafSpans(s.toks, s.sup, Token(kind, start, end, 0), w, marks);
      assert w + [] == w;
    case Close(_) =>
      CloseSpans(s.toks, s.pos, w, marks);
      marks' := marks[..|marks| - 1];
    case _ =>
      marks' := marks;
      assert w + [] == w;
  }

  lemma {:induction false} RunSpans(js: string, s: State, cap: nat, w: seq<Bracket>, marks: seq<nat>)
    returns (marks': seq<nat>)
    requires WellFormed(s) && Spanned(s.toks, w, marks) && Run(js, s, cap).0 >= 0
    ensures Spanned(Run(js, s, cap).1.toks, w + Brackets(js, s.pos), marks')
    decreases |js| - s.pos
  {
    hide Spanned, Apply, Shape, BracketOf, Lex;
    if AtEnd(js, s.pos) {
      marks' := marks;
      assert w + [] == w;
    } else {
      var l, s' := Lex(js, s.pos).lexeme, Step(js, s, cap).state;
      var w' := w + BracketOf(l, s.pos);
      assert w + Brackets(js, s.pos) == w' + Brackets(js, s'.pos);
      assert Run(js, s, cap) == Run(js, s', cap);
      StepKeepsShape(js, s, cap);
      var mid := StepSpans(js, s, cap, w, marks);
      marks' := RunSpans(js, s', cap, w', mid);
    }
  }

  // ---------- the theorems ----------

  lemma {:induction false} SuccessClosesAll(js: string, s: State, cap: nat)
    requires SupInRange(s) && Run(js, s, cap).0 >= 0
    ensures var (code, s') := Run(js, s, cap);
            code == |s'.toks| && forall i :: 0 <= i < |s'.toks| ==> !IsOpen(s'.toks[i])
    decreases |js| - s.pos
  {
    if !AtEnd(js, s.pos) { SuccessClosesAll(js, Step(js, s, cap).state, cap); }
  }

  // Unless it runs out of tokens, a call on a fresh parser succeeds exactly when every
  // string and primitive lexes and the brackets form a Dyck word.
  lemma AcceptsDyck(js: string, cap: nat)
    requires Run(js, FRESH, cap).0 != NOMEM
    ensures Run(js, FRESH, cap).0 >= 0 <==> Lexes(js, 0) && Dyck(Brackets(js, 0))
  {
    RunCloses(js, FRESH, cap);
    assert OpenKinds([]) == [];
    var w := Brackets(js, 0);
    if Run(js, FRESH, cap).0 >= 0 {
      var marks := RunSpans(js, FRESH, cap, [], []);
      assert [] + w == w;
      SuccessClosesAll(js, FRESH, cap);
      var toks := Run(js, FRESH, cap).1.toks;
      StackClosed(toks, 0, |toks|);
    }
    if Dyck(w) {
      DyckIsSkipped(w, [], []);
      assert w + [] == w;
    }
  }

  // ---------- what the counting mode accepts ----------

  // A NULL call succeeds exactly on the texts that lex, from any parser state.
  lemma {:induction false} CountsIffLexes(js: string, pos: nat, next: nat, sup: int, count: nat)
    ensures CountRun(js, pos, next, sup, count).0 >= 0 <==> Lexes(js, pos)
    decreases |js| - pos
  {
    hide Lex;
    if !AtEnd(js, pos) {
      match Lex(js, pos)
      case LexError(code) =>
      case Lexed(l, q) =>
        CountsIffLexes(js, q, next, if l.Colon? then next - 1 else sup,
                       if l.Open? || l.Leaf? then count + 1 else count);
    }
  }

  // So with as many tokens as it counts, the token call returns the count exactly when
  // the brackets form a Dyck word.
  lemma {:induction false} CountIsResultIffDyck(js: string, cap: nat)
    requires 0 <= CountRun(js, 0, 0, -1, 0).0 <= cap
    ensures Run(js, FRESH, cap).0 == CountRun(js, 0, 0, -1, 0).0 <==> Dyck(Brackets(js, 0))
  {
    hide Run, CountRun, Lexes, Dyck, Brackets;
    CountsIffLexes(js, 0, 0, -1, 0);
    CountingModeAgrees(js, cap);
    AcceptsDyck(js, cap);
  }

  // On success each object or array token spans a matching pair of brackets of its own
  // kind, from `start` to `end - 1`, with a Dyck word between them.
  lemma ContainersSpanPairs(js: string, cap: nat, i: nat)
    requires Run(js, FRESH, cap).0 >= 0 && i < |Run(js, FRESH, cap).1.toks|
    requires IsContainer(Run(js, FRESH, cap).1.toks[i])
    ensures Paired(Brackets(js, 0), Run(js, FRESH, cap).1.toks[i])
  {
    var marks := RunSpans(js, FRESH, cap, [], []);
    assert [] + Brackets(js, 0) == Brackets(js, 0);
    SuccessClosesAll(js, FRESH, cap);
  }
}
