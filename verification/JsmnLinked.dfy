// The JSMN_PARENT_LINKS build of jsmn: each token remembers toksuper at its creation,
// brackets close along that chain and a comma follows one link.  On RFC 8259 texts it
// yields the tokens of the scanning build.

module JsmnLinked {
  import opened Json
  import opened JsonLayout
  import opened JsmnLexer
  import opened JsmnModel
  import opened JsmnRoundTrip

  datatype Linked = Linked(tok: Token, parent: int)

  datatype LState = LState(pos: nat, toks: seq<Linked>, sup: int)

  const LFRESH := LState(0, [], -1)

  ghost predicate LinksBelow(toks: seq<Linked>) {
    forall i :: 0 <= i < |toks| ==> -1 <= toks[i].parent < i
  }

  ghost predicate LValid(s: LState) {
    -1 <= s.sup < |s.toks| && LinksBelow(s.toks)
  }

  function LGrow(toks: seq<Linked>, i: int, n: int): (r: seq<Linked>)
    requires -1 <= i < |toks|
    ensures |r| == |toks|
    ensures forall j :: 0 <= j < |toks| && j != i ==> r[j] == toks[j]
    ensures i >= 0 ==> r[i] == toks[i].(tok := toks[i].tok.(size := toks[i].tok.size + n))
  {
    if i == -1 then toks else toks[i := toks[i].(tok := toks[i].tok.(size := toks[i].tok.size + n))]
  }

  // The for (;;) walk of a closing bracket: the first unclosed token on the chain from
  // i, or else the chain's root.
  function Walk(toks: seq<Linked>, i: nat): (k: nat)
    requires i < |toks| && LinksBelow(toks)
    ensures k <= i && (IsOpen(toks[k].tok) || toks[k].parent == -1)
  {
    if IsOpen(toks[i].tok) || toks[i].parent == -1 then i else Walk(toks, toks[i].parent)
  }

  datatype LOutcome = LGo(state: LState) | LFail(code: int)

  function LApply(s: LState, l: Lexeme, next: nat, cap: nat): (r: LOutcome)
    requires LValid(s)
    ensures r.LGo? ==> LValid(r.state) && r.state.pos == next
    ensures r.LFail? ==> r.code == NOMEM || r.code == INVAL
  {
    match l
    case Open(kind) =>
      if |s.toks| >= cap then LFail(NOMEM)
      else LGo(LState(next, LGrow(s.toks, s.sup, 1) + [Linked(Token(kind, s.pos, -1, 0), s.sup)], |s.toks|))
    case Close(kind) =>
      if |s.toks| < 1 then LFail(INVAL)
      else
        var k := Walk(s.toks, |s.toks| - 1);
        var t := s.toks[k];
        if IsOpen(t.tok) then
          if t.tok.kind != kind then LFail(INVAL)
          else LGo(LState(next, s.toks[k := t.(tok := t.tok.(end := s.pos + 1))], t.parent))
        else if t.tok.kind != kind || s.sup == -1 then LFail(INVAL)
        else LGo(s.(pos := next))
    case Leaf(kind, start, end) =>
      if |s.toks| >= cap then LFail(NOMEM)
      else LGo(LState(next, LGrow(s.toks, s.sup, 1) + [Linked(Token(kind, start, end, 0), s.sup)], s.sup))
    case Colon => LGo(s.(pos := next, sup := |s.toks| - 1))
    case Comma =>
      if s.sup != -1 && !IsContainer(s.toks[s.sup].tok) then LGo(s.(pos := next, sup := s.toks[s.sup].parent))
      else LGo(s.(pos := next))
    case Blank => LGo(s.(pos := next))
  }

  function LStep(js: string, s: LState, cap: nat): (r: LOutcome)
    requires LValid(s) && !AtEnd(js, s.pos)
    ensures r.LGo? ==> LValid(r.state) && s.pos < r.state.pos <= |js|
  {
    match Lex(js, s.pos)
    case LexError(code) => LFail(code)
    case Lexed(l, next) => LApply(s, l, next, cap)
  }

  function Toks(toks: seq<Linked>): (r: seq<Token>)
    ensures |r| == |toks| && forall i :: 0 <= i < |toks| ==> r[i] == toks[i].tok
  {
    seq(|toks|, i requires 0 <= i < |toks| => toks[i].tok)
  }

  function LRun(js: string, s: LState, cap: nat): (r: (int, LState))
    requires LValid(s)
    ensures LValid(r.1)
    decreases |js| - s.pos
  {
    if AtEnd(js, s.pos) then
      (if LastOpen(Toks(s.toks), |s.toks|) != -1 then PART else |s.toks|, s)
    else
      match LStep(js, s, cap)
      case LFail(code) => (code, s)
      case LGo(s') => LRun(js, s', cap)
  }

  // ---------- the linked layout ----------

  // The layout of a value whose first token gets index base and parent up.
  function LLayout(v: Value, p: nat, base: nat, up: int): (r: seq<Linked>)
    decreases v, 0
  {
    match v
    case Arr(pad, items) => [Linked(Layout(v, p)[0], up)] + LItems(items, p + 1 + |pad|, base + 1, base)
    case Obj(pad, members) => [Linked(Layout(v, p)[0], up)] + LMembers(members, p + 1 + |pad|, base + 1, base)
    case _ => [Linked(Layout(v, p)[0], up)]
  }

  function LItems(l: Items, p: nat, base: nat, up: nat): seq<Linked>
    decreases l, 0
  {
    if l.NoItems? then []
    else
      var own := LLayout(l.value, p + |l.lead|, base, up);
      own + LItems(l.rest, p + |l.lead| + |Text(l.value)| + |l.trail| + 1, base + |own|, up)
  }

  function LOwn(m: Members, p: nat, base: nat, up: nat): seq<Linked>
    requires m.Member?
    decreases m, 0
  {
    var k := p + |m.lead| + 1;
    [Linked(Token(String, k, k + |m.key|, 1), up)] + LLayout(m.value, ValueStart(m, p), base + 1, base)
  }

  function LMembers(m: Members, p: nat, base: nat, up: nat): seq<Linked>
    decreases m, 1
  {
    if m.NoMembers? then []
    else
      var own := LOwn(m, p, base, up);
      own + LMembers(m.rest, ValueStart(m, p) + |Text(m.value)| + |m.trail| + 1, base + |own|, up)
  }

  // Tokens appended at base hang below `low` and close what they open.
  ghost predicate Hangs(more: seq<Linked>, base: nat, low: int) {
    forall i :: 0 <= i < |more| ==> !IsOpen(more[i].tok) && low <= more[i].parent < base + i
  }

  lemma {:induction false} HangsConcat(a: seq<Linked>, b: seq<Linked>, base: nat, low: int)
    requires Hangs(a, base, low) && Hangs(b, base + |a|, low)
    ensures Hangs(a + b, base, low)
  {
    forall i | 0 <= i < |a + b| ensures !IsOpen((a + b)[i].tok) && low <= (a + b)[i].parent < base + i {
      if i >= |a| { assert (a + b)[i] == b[i - |a|]; }
    }
  }

  lemma {:induction false} ToksConcat(a: seq<Linked>, b: seq<Linked>)
    ensures Toks(a + b) == Toks(a) + Toks(b)
  {
  }

  lemma {:induction false} HeadPlain(head: Token, plain: seq<Token>, inner: seq<Linked>, base: nat, up: int)
    requires !IsOpen(head) && -1 <= up < base && Toks(inner) == plain && Hangs(inner, base + 1, base)
    ensures Toks([Linked(head, up)] + inner) == [head] + plain && Hangs([Linked(head, up)] + inner, base, up)
  {
    ToksConcat([Linked(head, up)], inner);
    HangsHigher(inner, base + 1, base, up);
    HangsConcat([Linked(head, up)], inner, base, up);
  }

  lemma {:induction false} LayoutHead(v: Value, p: nat)
    ensures !IsOpen(Layout(v, p)[0])
    ensures IsScalar(v) ==> Layout(v, p) == [Layout(v, p)[0]]
    ensures v.Arr? ==> Layout(v, p) == [Layout(v, p)[0]] + ItemsLayout(v.items, p + 1 + |v.pad|)
    ensures v.Obj? ==> Layout(v, p) == [Layout(v, p)[0]] + MembersLayout(v.members, p + 1 + |v.pad|)
  {
    hide ItemsLayout, MembersLayout, Text, ItemCount, MemberCount;
  }

  // Dropping the links gives the plain layout.
  lemma {:induction false} LLayoutPlain(v: Value, p: nat, base: nat, up: int)
    requires -1 <= up < base
    ensures Toks(LLayout(v, p, base, up)) == Layout(v, p) && Hangs(LLayout(v, p, base, up), base, up)
    decreases v, 0
  {
    hide LItems, ItemsLayout, LMembers, MembersLayout, Layout, Text, IsOpen;
    var head := Layout(v, p)[0];
    LayoutHead(v, p);
    match v
    case Arr(pad, items) =>
      hide Hangs;
      LItemsPlain(items, p + 1 + |pad|, base + 1, base);
      HeadPlain(head, ItemsLayout(items, p + 1 + |pad|), LItems(items, p + 1 + |pad|, base + 1, base), base, up);
    case Obj(pad, members) =>
      hide Hangs;
      LMembersPlain(members, p + 1 + |pad|, base + 1, base);
      HeadPlain(head, MembersLayout(members, p + 1 + |pad|),
                LMembers(members, p + 1 + |pad|, base + 1, base), base, up);
    case _ =>
  }

  lemma {:induction false} LItemsPlain(l: Items, p: nat, base: nat, up: nat)
    requires up < base
    ensures Toks(LItems(l, p, base, up)) == ItemsLayout(l, p) && Hangs(LItems(l, p, base, up), base, up)
    decreases l, 0
  {
    if l.Item? {
      hide LLayout, Layout, Text;
      var q := p + |l.lead|;
      var own := LLayout(l.value, q, base, up);
      var f := q + |Text(l.value)| + |l.trail| + 1;
      LLayoutPlain(l.value, q, base, up);
      LItemsPlain(l.rest, f, base + |own|, up);
      ToksConcat(own, LItems(l.rest, f, base + |own|, up));
      HangsConcat(own, LItems(l.rest, f, base + |own|, up), base, up);
    }
  }

  lemma {:induction false} LOwnPlain(m: Members, p: nat, base: nat, up: nat)
    requires m.Member? && up < base
    ensures Toks(LOwn(m, p, base, up)) == OwnLayout(m, p) && Hangs(LOwn(m, p, base, up), base, up)
    decreases m, 0
  {
    hide LLayout, Layout, Text;
    var k := p + |m.lead| + 1;
    var key := Linked(Token(String, k, k + |m.key|, 1), up);
    var value := LLayout(m.value, ValueStart(m, p), base + 1, base);
    LLayoutPlain(m.value, ValueStart(m, p), base + 1, base);
    ToksConcat([key], value);
    HangsConcat([key], value, base, up);
  }

  lemma {:induction false} LMembersPlain(m: Members, p: nat, base: nat, up: nat)
    requires up < base
    ensures Toks(LMembers(m, p, base, up)) == MembersLayout(m, p) && Hangs(LMembers(m, p, base, up), base, up)
    decreases m, 1
  {
    if m.Member? {
      hide LOwn, Layout, Text;
      var own := LOwn(m, p, base, up);
      var f := ValueStart(m, p) + |Text(m.value)| + |m.trail| + 1;
      LOwnPlain(m, p, base, up);
      LMembersPlain(m.rest, f, base + |own|, up);
      ToksConcat(own, LMembers(m.rest, f, base + |own|, up));
      HangsConcat(own, LMembers(m.rest, f, base + |own|, up), base, up);
    }
  }

  // ---------- running over the pieces of a text ----------

  lemma {:induction false} LRunStep(js: string, s: LState, cap: nat)
    requires LValid(s) && !AtEnd(js, s.pos) && LStep(js, s, cap).LGo?
    ensures LRun(js, s, cap) == LRun(js, LStep(js, s, cap).state, cap)
  {
    hide LStep, LastOpen, LinksBelow;
  }

  lemma {:induction false} LRunBlank(js: string, s: LState, cap: nat)
    requires LValid(s) && s.pos < |js| && IsWs(js[s.pos])
    ensures LRun(js, s, cap) == LRun(js, s.(pos := s.pos + 1), cap)
  {
    hide LinksBelow;
    LRunStep(js, s, cap);
  }

  lemma {:induction false} LRunBlanks(js: string, s: LState, ws: string, cap: nat)
    requires LValid(s) && Has(js, s.pos, ws) && Ws(ws)
    ensures LRun(js, s, cap) == LRun(js, s.(pos := s.pos + |ws|), cap)
    decreases |ws|
  {
    hide LRun, LStep, Has, LinksBelow;
    if ws != "" {
      BlankPieces(js, s.pos, ws);
      LRunBlank(js, s, cap);
      LRunBlanks(js, s.(pos := s.pos + 1), ws[1..], cap);
    }
  }

  // Token o is open and everything after it hangs below it.
  ghost predicate Innermost(toks: seq<Linked>, o: nat) {
    && o < |toks| && IsOpen(toks[o].tok)
    && forall j :: o < j < |toks| ==> !IsOpen(toks[j].tok) && o <= toks[j].parent < j
  }

  lemma {:induction false} WalkFindsInnermost(toks: seq<Linked>, o: nat, i: nat)
    requires LinksBelow(toks) && Innermost(toks, o) && o <= i < |toks|
    ensures Walk(toks, i) == o
    decreases i
  {
    if i > o { WalkFindsInnermost(toks, o, toks[i].parent); }
  }

  lemma {:induction false} InnermostAppend(toks: seq<Linked>, o: nat, i: int, n: int, more: seq<Linked>)
    requires Innermost(toks, o) && -1 <= i < |toks| && Hangs(more, |toks|, o)
    ensures Innermost(LGrow(toks, i, n) + more, o)
  {
    var now := LGrow(toks, i, n) + more;
    forall j | o < j < |now| ensures !IsOpen(now[j].tok) && o <= now[j].parent < j {
      if j >= |toks| { assert now[j] == more[j - |toks|]; }
    }
  }

  lemma {:induction false} LinksAppend(toks: seq<Linked>, i: int, n: int, more: seq<Linked>)
    requires LinksBelow(toks) && -1 <= i < |toks| && Hangs(more, |toks|, -1)
    ensures LinksBelow(LGrow(toks, i, n) + more)
  {
    var now := LGrow(toks, i, n) + more;
    forall j | 0 <= j < |now| ensures -1 <= now[j].parent < j {
      if j >= |toks| { assert now[j] == more[j - |toks|]; }
    }
  }

  lemma {:induction false} HangsHigher(more: seq<Linked>, base: nat, low: int, lower: int)
    requires Hangs(more, base, low) && lower <= low
    ensures Hangs(more, base, lower)
  {
  }

  // The state after a value: unlike the scanning build, toksuper always comes back.
  function LAfterValue(s: LState, v: Value): LState
    requires LValid(s)
  {
    LState(s.pos + |Text(v)|, LGrow(s.toks, s.sup, 1) + LLayout(v, s.pos, |s.toks|, s.sup), s.sup)
  }

  lemma {:induction false} LAfterValueValid(s: LState, v: Value)
    requires LValid(s)
    ensures LValid(LAfterValue(s, v))
    ensures Hangs(LLayout(v, s.pos, |s.toks|, s.sup), |s.toks|, s.sup)
  {
    hide LLayout, Text;
    LLayoutPlain(v, s.pos, |s.toks|, s.sup);
    HangsHigher(LLayout(v, s.pos, |s.toks|, s.sup), |s.toks|, s.sup, -1);
    LinksAppend(s.toks, s.sup, 1, LLayout(v, s.pos, |s.toks|, s.sup));
  }

  lemma {:induction false} LRunLeaf(js: string, s: LState, kind: Kind, start: nat, end: nat, next: nat, cap: nat)
    requires LValid(s) && |s.toks| < cap
    requires !AtEnd(js, s.pos) && Lex(js, s.pos) == Lexed(Leaf(kind, start, end), next)
    ensures var s' := LState(next, LGrow(s.toks, s.sup, 1) + [Linked(Token(kind, start, end, 0), s.sup)], s.sup);
            LValid(s') && LRun(js, s, cap) == LRun(js, s', cap)
  {
    hide Lex;
    LRunStep(js, s, cap);
    assert LValid(LStep(js, s, cap).state);
  }

  lemma {:induction false} LRunScalar(js: string, s: LState, v: Value, cap: nat)
    requires LValid(s) && (v.Literal? || v.Number?) && Legal(v) && Has(js, s.pos, Text(v))
    requires Stops(js, s.pos + |Text(v)|) && |s.toks| < cap
    ensures LValid(LAfterValue(s, v)) && LRun(js, s, cap) == LRun(js, LAfterValue(s, v), cap)
  {
    hide LRun, LinksBelow;
    LAfterValueValid(s, v);
    var t := Text(v);
    ScalarIsPlain(v);
    CharAt(js, s.pos, t);
    assert IsPlain(t[0]);
    PlainRun(js, s.pos, t);
    LRunLeaf(js, s, Primitive, s.pos, s.pos + |t|, s.pos + |t|, cap);
  }

  lemma {:induction false} LRunString(js: string, s: LState, body: string, cap: nat)
    requires LValid(s) && StringBody(body) && Has(js, s.pos, Quoted(body)) && |s.toks| < cap
    ensures var s' := LState(s.pos + |body| + 2,
                             LGrow(s.toks, s.sup, 1)
                               + [Linked(Token(String, s.pos + 1, s.pos + 1 + |body|, 0), s.sup)], s.sup);
            LValid(s') && LRun(js, s, cap) == LRun(js, s', cap)
  {
    hide LRun, LinksBelow;
    QuotedBody(js, s.pos, body);
    CharAt(js, s.pos, "\"");
    BodyRun(js, s.pos + 1, body);
    LRunLeaf(js, s, String, s.pos + 1, s.pos + 1 + |body|, s.pos + |body| + 2, cap);
  }

  lemma {:induction false} LRunOpen(js: string, s: LState, v: Value, cap: nat)
    requires LValid(s) && (v.Arr? || v.Obj?) && Has(js, s.pos, if v.Arr? then "[" else "{") && |s.toks| < cap
    ensures var t := Token(if v.Arr? then Array else Object, s.pos, -1, 0);
            var s' := LState(s.pos + 1, LGrow(s.toks, s.sup, 1) + [Linked(t, s.sup)], |s.toks|);
            LValid(s') && LRun(js, s, cap) == LRun(js, s', cap) && Innermost(s'.toks, |s.toks|)
  {
    CharAt(js, s.pos, if v.Arr? then "[" else "{");
    LRunStep(js, s, cap);
    assert LValid(LStep(js, s, cap).state);
  }

  lemma {:induction false} LRunClose(js: string, s: LState, o: nat, kind: Kind, cap: nat)
    requires LValid(s) && (kind == Array || kind == Object) && Has(js, s.pos, if kind == Array then "]" else "}")
    requires Innermost(s.toks, o) && s.toks[o].tok.kind == kind
    ensures var t := s.toks[o];
            var s' := LState(s.pos + 1, s.toks[o := t.(tok := t.tok.(end := s.pos + 1))], t.parent);
            LValid(s') && LRun(js, s, cap) == LRun(js, s', cap)
  {
    CharAt(js, s.pos, if kind == Array then "]" else "}");
    WalkFindsInnermost(s.toks, o, |s.toks| - 1);
    assert LValid(LStep(js, s, cap).state);
    hide Innermost, LinksBelow;
    LRunStep(js, s, cap);
  }

  // A comma follows the link of a key, or leaves toksuper on the container.
  lemma {:induction false} LRunComma(js: string, s: LState, o: nat, cap: nat)
    requires LValid(s) && Has(js, s.pos, ",") && o < |s.toks| && IsContainer(s.toks[o].tok)
    requires s.sup == o || (s.sup != -1 && s.toks[s.sup].tok.kind == String && s.toks[s.sup].parent == o)
    ensures LRun(js, s, cap) == LRun(js, s.(pos := s.pos + 1, sup := o), cap)
  {
    CharAt(js, s.pos, ",");
    LRunStep(js, s, cap);
  }

  lemma {:induction false} LRunColon(js: string, s: LState, cap: nat)
    requires LValid(s) && Has(js, s.pos, ":")
    ensures LRun(js, s, cap) == LRun(js, s.(pos := s.pos + 1, sup := |s.toks| - 1), cap)
  {
    CharAt(js, s.pos, ":");
    assert LStep(js, s, cap) == LGo(s.(pos := s.pos + 1, sup := |s.toks| - 1));
    hide LStep, LinksBelow;
    LRunStep(js, s, cap);
  }

  lemma {:induction false} LGrowTwice(toks: seq<Linked>, a: nat, own: seq<Linked>, n: nat, rest: seq<Linked>)
    requires a < |toks|
    ensures LGrow(LGrow(toks, a, 1) + own, a, n) + rest == LGrow(toks, a, 1 + n) + (own + rest)
  {
  }

  lemma {:induction false} LGrowNothing(toks: seq<Linked>, a: nat)
    requires a < |toks|
    ensures LGrow(toks, a, 0) + [] == toks
  {
  }

  lemma {:induction false} LItemUnfolds(l: Items, p: nat, base: nat, up: nat)
    requires l.Item?
    ensures var own := LLayout(l.value, p + |l.lead|, base, up);
            LItems(l, p, base, up)
            == own + LItems(l.rest, p + |l.lead| + |Text(l.value)| + |l.trail| + 1, base + |own|, up)
  {
    hide LLayout, Text;
  }

  lemma {:induction false} LMemberUnfolds(m: Members, p: nat, base: nat, up: nat)
    requires m.Member?
    ensures var own := LOwn(m, p, base, up);
            LMembers(m, p, base, up)
            == own + LMembers(m.rest, ValueStart(m, p) + |Text(m.value)| + |m.trail| + 1, base + |own|, up)
  {
    hide LOwn, Text;
  }

  lemma {:induction false} LContainerDone(s: LState, v: Value, head: Token, inner: seq<Linked>)
    requires LValid(s) && (v.Arr? || v.Obj?) && head == Layout(v, s.pos)[0]
    requires LLayout(v, s.pos, |s.toks|, s.sup) == [Linked(head, s.sup)] + inner
    requires head.start == s.pos && head.end == s.pos + |Text(v)|
    ensures var n := |s.toks|;
            var toks := LGrow(LGrow(s.toks, s.sup, 1)
                               + [Linked(head.(end := -1, size := 0), s.sup)], n, head.size) + inner;
            var t := toks[n];
            LState(head.end, toks[n := t.(tok := t.tok.(end := head.end))], s.sup) == LAfterValue(s, v)
  {
    hide Text, LLayout, Layout, LinksBelow;
    var n := |s.toks|;
    var toks := LGrow(LGrow(s.toks, s.sup, 1) + [Linked(head.(end := -1, size := 0), s.sup)], n, head.size) + inner;
    var t := toks[n];
    assert toks[n := t.(tok := t.tok.(end := head.end))] == LGrow(s.toks, s.sup, 1) + ([Linked(head, s.sup)] + inner);
  }

  lemma {:induction false} LRunArr(js: string, s: LState, v: Value, cap: nat)
    requires LValid(s) && v.Arr? && Legal(v) && Has(js, s.pos, Text(v))
    requires |s.toks| + |Layout(v, s.pos)| <= cap
    ensures LValid(LAfterValue(s, v)) && LRun(js, s, cap) == LRun(js, LAfterValue(s, v), cap)
    decreases v, 0
  {
    hide Has, Text, ItemsText, Layout, ItemsLayout, LItems, LRun, Legal,
         LegalItems, Ws, ItemCount, LAfterValue, Innermost, LinksBelow;
    LAfterValueValid(s, v);
    var n := |s.toks|;
    var q := s.pos + 1 + |v.pad|;
    var e := q + |ItemsText(v.items)|;
    var inner := LItems(v.items, q, n + 1, n);
    var head := Token(Array, s.pos, s.pos + |Text(v)|, ItemCount(v.items));
    ArrUnfolds(v, s.pos);
    ArrPieces(js, s.pos, v);
    LRunOpen(js, s, v, cap);
    var s1 := LState(s.pos + 1, LGrow(s.toks, s.sup, 1) + [Linked(head.(end := -1, size := 0), s.sup)], n);
    LRunBlanks(js, s1, v.pad, cap);
    LRunItems(js, s1.(pos := q), v.items, n, cap);
    var s3 := LState(e, LGrow(s1.toks, n, ItemCount(v.items)) + inner, n);
    LRunClose(js, s3, n, Array, cap);
    LContainerDone(s, v, head, inner);
  }

  function LAfterItem(s: LState, l: Items, a: nat): LState
    requires l.Item? && a < |s.toks|
  {
    var q := s.pos + |l.lead|;
    LState(q + |Text(l.value)| + |l.trail|, LGrow(s.toks, a, 1) + LLayout(l.value, q, |s.toks|, a), a)
  }

  lemma {:induction false} LRunItem(js: string, s: LState, l: Items, a: nat, cap: nat)
    requires LValid(s) && l.Item? && LegalItems(l) && Has(js, s.pos, ItemsText(l))
             && Has(js, s.pos + |ItemsText(l)|, "]")
    requires |s.toks| + |Layout(l.value, s.pos + |l.lead|)| <= cap
    requires s.sup == a && Innermost(s.toks, a)
    ensures var s' := LAfterItem(s, l, a);
            LValid(s') && LRun(js, s, cap) == LRun(js, s', cap) && Innermost(s'.toks, a)
    decreases l, 0
  {
    hide Has, Text, ItemsText, Layout, ItemsLayout, LLayout, LRun, Legal,
         LegalItems, Ws, Stops, Innermost, LinksBelow, Hangs;
    var q := s.pos + |l.lead|;
    ItemUnfolds(l, s.pos);
    ItemPieces(js, s.pos, l);
    StopsAtTrail(js, q + |Text(l.value)|, l.trail);
    LRunBlanks(js, s, l.lead, cap);
    LRunValue(js, s.(pos := q), l.value, cap);
    LAfterValueValid(s.(pos := q), l.value);
    LRunBlanks(js, LAfterValue(s.(pos := q), l.value), l.trail, cap);
    InnermostAppend(s.toks, a, a, 1, LLayout(l.value, q, |s.toks|, a));
  }

  lemma {:induction false} LRunItems(js: string, s: LState, l: Items, a: nat, cap: nat)
    requires LValid(s) && LegalItems(l) && Has(js, s.pos, ItemsText(l)) && Has(js, s.pos + |ItemsText(l)|, "]")
    requires |s.toks| + |ItemsLayout(l, s.pos)| <= cap
    requires s.sup == a && Innermost(s.toks, a) && s.toks[a].tok.kind == Array
    ensures var s' := LState(s.pos + |ItemsText(l)|, LGrow(s.toks, a, ItemCount(l)) + LItems(l, s.pos, |s.toks|, a), a);
            LValid(s') && LRun(js, s, cap) == LRun(js, s', cap) && Innermost(s'.toks, a)
    decreases l, 1
  {
    hide Has, Text, ItemsText, Layout, ItemsLayout, LLayout, LItems, ItemCount,
         LRun, Legal, LegalItems, Ws, Innermost, LinksBelow;
    if l.NoItems? {
      NoItemsUnfold(l, s.pos);
      LNoItemsUnfold(l, s.pos, |s.toks|, a);
      LGrowNothing(s.toks, a);
    } else {
      var q := s.pos + |l.lead|;
      var f := q + |Text(l.value)| + |l.trail|;
      var own := LLayout(l.value, q, |s.toks|, a);
      ItemUnfolds(l, s.pos);
      LItemUnfolds(l, s.pos, |s.toks|, a);
      ItemPieces(js, s.pos, l);
      LRunItem(js, s, l, a, cap);
      var s2 := LState(f, LGrow(s.toks, a, 1) + own, a);
      LLayoutPlain(l.value, q, |s.toks|, a);
      LGrowTwice(s.toks, a, own, ItemCount(l.rest), LItems(l.rest, f + 1, |s2.toks|, a));
      if l.rest.Item? {
        LRunComma(js, s2, a, cap);
        LRunItems(js, s2.(pos := f + 1), l.rest, a, cap);
      } else {
        NoItemsUnfold(l.rest, f + 1);
        LNoItemsUnfold(l.rest, f + 1, |s2.toks|, a);
        LGrowNothing(s2.toks, a);
      }
    }
  }

  lemma {:induction false} LNoItemsUnfold(l: Items, p: nat, base: nat, up: nat)
    requires l.NoItems?
    ensures LItems(l, p, base, up) == []
  {
  }

  lemma {:induction false} LNoMembersUnfold(m: Members, p: nat, base: nat, up: nat)
    requires m.NoMembers?
    ensures LMembers(m, p, base, up) == []
  {
  }

  lemma {:induction false} LRunObj(js: string, s: LState, v: Value, cap: nat)
    requires LValid(s) && v.Obj? && Legal(v) && Has(js, s.pos, Text(v))
    requires |s.toks| + |Layout(v, s.pos)| <= cap
    ensures LValid(LAfterValue(s, v)) && LRun(js, s, cap) == LRun(js, LAfterValue(s, v), cap)
    decreases v, 0
  {
    hide Has, Text, MembersText, Layout, MembersLayout, LMembers, LRun, Legal,
         LegalMembers, Ws, MemberCount, LAfterValue, Innermost, LinksBelow;
    LAfterValueValid(s, v);
    var n := |s.toks|;
    var q := s.pos + 1 + |v.pad|;
    var e := q + |MembersText(v.members)|;
    var inner := LMembers(v.members, q, n + 1, n);
    var head := Token(Object, s.pos, s.pos + |Text(v)|, MemberCount(v.members));
    ObjUnfolds(v, s.pos);
    ObjPieces(js, s.pos, v);
    LRunOpen(js, s, v, cap);
    var s1 := LState(s.pos + 1, LGrow(s.toks, s.sup, 1) + [Linked(head.(end := -1, size := 0), s.sup)], n);
    LRunBlanks(js, s1, v.pad, cap);
    var s3 := LRunMembers(js, s1.(pos := q), v.members, n, cap);
    LRunClose(js, s3, n, Object, cap);
    LContainerDone(s, v, head, inner);
  }

  lemma {:induction false} LRunKey(js: string, s: LState, m: Members, cap: nat)
    requires LValid(s) && m.Member? && LegalMembers(m) && Has(js, s.pos, MembersText(m)) && |s.toks| < cap
    ensures var k := s.pos + |m.lead| + 1;
            var s' := LState(ValueStart(m, s.pos), LGrow(s.toks, s.sup, 1)
                               + [Linked(Token(String, k, k + |m.key|, 0), s.sup)], |s.toks|);
            LValid(s') && LRun(js, s, cap) == LRun(js, s', cap)
  {
    hide Has, Text, MembersText, LRun, LegalMembers, Legal, Ws, StringBody, Layout, MembersLayout, LinksBelow;
    var k := s.pos + |m.lead|;
    MemberUnfolds(m, s.pos);
    MemberPieces(js, s.pos, m);
    LRunBlanks(js, s, m.lead, cap);
    LRunString(js, s.(pos := k), m.key, cap);
    var s1 := LState(k + |m.key| + 2, LGrow(s.toks, s.sup, 1)
                               + [Linked(Token(String, k + 1, k + 1 + |m.key|, 0), s.sup)], s.sup);
    LRunBlanks(js, s1, m.gap, cap);
    LRunColon(js, s1.(pos := s1.pos + |m.gap|), cap);
    LRunBlanks(js, LState(s1.pos + |m.gap| + 1, s1.toks, |s.toks|), m.gap', cap);
  }

  // One member; toksuper stays on its key, whatever the value was.
  lemma {:induction false} LRunMember(js: string, s: LState, m: Members, o: nat, cap: nat)
    requires LValid(s) && m.Member? && LegalMembers(m) && Has(js, s.pos, MembersText(m))
    requires Has(js, s.pos + |MembersText(m)|, "}")
    requires |s.toks| + |OwnLayout(m, s.pos)| <= cap
    requires s.sup == o && Innermost(s.toks, o)
    ensures var s' := LState(ValueStart(m, s.pos) + |Text(m.value)| + |m.trail|,
                             LGrow(s.toks, o, 1) + LOwn(m, s.pos, |s.toks|, o), |s.toks|);
            && LValid(s') && LRun(js, s, cap) == LRun(js, s', cap) && Innermost(s'.toks, o)
            && s'.toks[s'.sup].tok.kind == String && s'.toks[s'.sup].parent == o
    decreases m, 0
  {
    hide Has, Text, MembersText, LRun, LegalMembers, Legal, Ws, StringBody,
         Layout, LLayout, MembersLayout, Innermost, LinksBelow, Hangs, Stops;
    var k := s.pos + |m.lead| + 1;
    var q := ValueStart(m, s.pos);
    var e := q + |Text(m.value)|;
    var n := |s.toks|;
    var key := Linked(Token(String, k, k + |m.key|, 0), o);
    var own := LLayout(m.value, q, n + 1, n);
    MemberUnfolds(m, s.pos);
    MemberPieces(js, s.pos, m);
    StopsAtTrail(js, e, m.trail);
    LRunKey(js, s, m, cap);
    var s1 := LState(q, LGrow(s.toks, o, 1) + [key], n);
    LRunValue(js, s1, m.value, cap);
    LAfterValueValid(s1, m.value);
    LRunBlanks(js, LAfterValue(s1, m.value), m.trail, cap);
    LKeyGrown(LGrow(s.toks, o, 1), key, own);
    LOwnPlain(m, s.pos, n, o);
    InnermostAppend(s.toks, o, o, 1, LOwn(m, s.pos, n, o));
  }

  lemma {:induction false} LKeyGrown(toks: seq<Linked>, key: Linked, own: seq<Linked>)
    ensures LGrow(toks + [key], |toks|, 1) + own
            == toks + ([key.(tok := key.tok.(size := key.tok.size + 1))] + own)
  {
  }

  lemma {:induction false} LRunMembers(js: string, s: LState, m: Members, o: nat, cap: nat) returns (s': LState)
    requires LValid(s) && LegalMembers(m) && Has(js, s.pos, MembersText(m)) && Has(js, s.pos + |MembersText(m)|, "}")
    requires |s.toks| + |MembersLayout(m, s.pos)| <= cap
    requires o < |s.toks| && Innermost(s.toks, o) && s.toks[o].tok.kind == Object && (m.Member? ==> s.sup == o)
    ensures LValid(s') && LRun(js, s, cap) == LRun(js, s', cap) && o < |s'.toks| && Innermost(s'.toks, o)
    ensures s'.pos == s.pos + |MembersText(m)|
    ensures s'.toks == LGrow(s.toks, o, MemberCount(m)) + LMembers(m, s.pos, |s.toks|, o)
    decreases m, 1
  {
    hide Has, Text, MembersText, MembersLayout, LMembers, MemberCount, LRun, LegalMembers, Legal, Ws, StringBody,
         Layout, OwnLayout, LOwn, Innermost, LinksBelow;
    if m.NoMembers? {
      NoMembersUnfold(js, m, s.pos + |MembersText(m)|, s.pos);
      LNoMembersUnfold(m, s.pos, |s.toks|, o);
      LGrowNothing(s.toks, o);
      s' := s;
    } else {
      var f := ValueStart(m, s.pos) + |Text(m.value)| + |m.trail|;
      var own := LOwn(m, s.pos, |s.toks|, o);
      MemberUnfolds(m, s.pos);
      LMemberUnfolds(m, s.pos, |s.toks|, o);
      MemberPieces(js, s.pos, m);
      LRunMember(js, s, m, o, cap);
      LOwnPlain(m, s.pos, |s.toks|, o);
      var s2 := LState(f, LGrow(s.toks, o, 1) + own, |s.toks|);
      if m.rest.Member? {
        LRunComma(js, s2, o, cap);
        s2 := s2.(pos := f + 1, sup := o);
      } else {
        NoMembersUnfold(js, m.rest, f, f);
        LNoMembersUnfold(m.rest, f, |s2.toks|, o);
        LNoMembersUnfold(m.rest, f + 1, |s2.toks|, o);
      }
      s' := LRunMembers(js, s2, m.rest, o, cap);
      LGrowTwice(s.toks, o, own, MemberCount(m.rest), LMembers(m.rest, f + 1, |s2.toks|, o));
    }
  }

  lemma {:induction false} LRunValue(js: string, s: LState, v: Value, cap: nat)
    requires LValid(s) && Legal(v) && Has(js, s.pos, Text(v)) && Stops(js, s.pos + |Text(v)|)
    requires |s.toks| + |Layout(v, s.pos)| <= cap
    ensures LValid(LAfterValue(s, v)) && LRun(js, s, cap) == LRun(js, LAfterValue(s, v), cap)
    decreases v, 1
  {
    match v
    case Literal(_) | Number(_, _, _, _) =>
      hide Has, Text, LRun, Legal, Layout, Stops, LAfterValue, LinksBelow;
      LRunScalar(js, s, v, cap);
    case Str(body) =>
      hide Has, LRun, StringBody, Stops, LinksBelow;
      LAfterValueValid(s, v);
      LRunString(js, s, body, cap);
    case Arr(_, _) =>
      hide *;
      LRunArr(js, s, v, cap);
    case Obj(_, _) =>
      hide *;
      LRunObj(js, s, v, cap);
  }

  lemma {:induction false} LRunEnds(js: string, s: LState, cap: nat)
    requires LValid(s) && AtEnd(js, s.pos) && forall i :: 0 <= i < |s.toks| ==> !IsOpen(s.toks[i].tok)
    ensures LRun(js, s, cap) == (|s.toks|, s)
  {
    LastOpenBelow(Toks(s.toks), 0, |s.toks|);
  }

  // The round trip for this build: with enough tokens every RFC 8259 text leaves the
  // layout of the scanning build, each token linked to its true parent.
  lemma {:induction false} LinkedRoundTrip(js: string, d: Document, cap: nat)
    requires LegalDocument(d) && Has(js, 0, DocumentText(d)) && AtEnd(js, |DocumentText(d)|)
    requires |Layout(d.value, |d.before|)| <= cap
    ensures var toks := LLayout(d.value, |d.before|, 0, -1);
            && LRun(js, LFRESH, cap) == (|toks|, LState(|DocumentText(d)|, toks, -1))
            && Toks(toks) == Layout(d.value, |d.before|)
  {
    hide Has, DocumentText, LegalDocument, Text, Legal, Ws, Layout, LLayout, LRun, AtEnd, Stops;
    var p := |d.before|;
    var toks := LLayout(d.value, p, 0, -1);
    DocumentPieces(js, d);
    LLayoutPlain(d.value, p, 0, -1);
    LRunBlanks(js, LFRESH, d.before, cap);
    LRunValue(js, LState(p, [], -1), d.value, cap);
    LAfterValueValid(LState(p, [], -1), d.value);
    assert LGrow([], -1, 1) + toks == toks;
    LRunBlanks(js, LState(p + |Text(d.value)|, toks, -1), d.after, cap);
    LRunEnds(js, LState(|DocumentText(d)|, toks, -1), cap);
  }

  // Off the grammar they differ: a colon after a closed object lets the linked build
  // accept a brace that nothing opened.
  lemma {:induction false} BuildsDifferOffGrammar()
    ensures Run("{}:}", FRESH, 9).0 == INVAL && LRun("{}:}", LFRESH, 9).0 == 1
  {
    hide *;
    ScanningRefuses("{}:}");
    LinkedAccepts("{}:}");
  }

  lemma {:induction false} ScanningRefuses(js: string)
    requires js == "{}:}"
    ensures Run(js, FRESH, 9).0 == INVAL
  {
    var s1 := State(1, [Token(Object, 0, -1, 0)], 0);
    var s2 := State(2, [Token(Object, 0, 2, 0)], -1);
    assert Step(js, FRESH, 9) == Go(s1);
    assert Step(js, s1, 9) == Go(s2) by { assert LastOpen(s1.toks, 1) == 0 && LastOpen(s2.toks, 0) == -1; }
    assert Step(js, s2, 9) == Go(s2.(pos := 3, sup := 0));
    assert Step(js, s2.(pos := 3, sup := 0), 9) == Fail(INVAL);
    hide Step, LastOpen;
    RunStep(js, FRESH, 9);
    RunStep(js, s1, 9);
    RunStep(js, s2, 9);
  }

  const L1 := LState(1, [Linked(Token(Object, 0, -1, 0), -1)], 0)
  const L2 := LState(2, [Linked(Token(Object, 0, 2, 0), -1)], -1)
  const L3 := LState(3, [Linked(Token(Object, 0, 2, 0), -1)], 0)

  lemma {:induction false} LinkedStep0(js: string)
    requires js == "{}:}"
    ensures LValid(LFRESH) && !AtEnd(js, 0) && LStep(js, LFRESH, 9) == LGo(L1)
  {
  }

  lemma {:induction false} LinkedStep1(js: string)
    requires js == "{}:}"
    ensures LValid(L1) && !AtEnd(js, 1) && LStep(js, L1, 9) == LGo(L2)
  {
  }

  lemma {:induction false} LinkedStep2(js: string)
    requires js == "{}:}"
    ensures LValid(L2) && !AtEnd(js, 2) && LStep(js, L2, 9) == LGo(L3)
  {
  }

  lemma {:induction false} LinkedStep3(js: string)
    requires js == "{}:}"
    ensures LValid(L3) && !AtEnd(js, 3) && LStep(js, L3, 9) == LGo(L3.(pos := 4))
  {
  }

  lemma {:induction false} LinkedAccepts(js: string)
    requires js == "{}:}"
    ensures LRun(js, LFRESH, 9).0 == 1
  {
    hide LStep, LRun, LinksBelow;
    LinkedStep0(js);
    LinkedStep1(js);
    LinkedStep2(js);
    LinkedStep3(js);
    LRunStep(js, LFRESH, 9);
    LRunStep(js, L1, 9);
    LRunStep(js, L2, 9);
    LRunStep(js, L3, 9);
    LRunEnds(js, L3.(pos := 4), 9);
  }
}
