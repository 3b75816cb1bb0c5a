// What every jsmn_parse call keeps, on any input and on every exit: the shape of the
// token table, and where each unit of `size` came from.

module JsmnInvariants {
  import opened JsmnLexer
  import opened JsmnModel

  lemma {:induction false} HexReadsNoNul(js: string, p: nat, n: nat)
    requires p <= |js| && HexRun(js, p, n).Found?
    ensures forall k :: p <= k < HexRun(js, p, n).at ==> js[k] != '\0'
    decreases n
  {
    if n > 0 && !AtEnd(js, p) { HexReadsNoNul(js, p + 1, n - 1); }
  }

  lemma {:induction false} StringReadsNoNul(js: string, p: nat)
    requires p <= |js| && StringEnd(js, p).Found?
    ensures forall k :: p <= k <= StringEnd(js, p).at ==> js[k] != '\0'
    decreases |js| - p
  {
    if js[p] == '\"' {
    } else if js[p] == '\\' && p + 1 < |js| {
      if IsSimpleEscape(js[p + 1]) {
        StringReadsNoNul(js, p + 2);
      } else {
        HexReadsNoNul(js, p + 2, 4);
        StringReadsNoNul(js, HexRun(js, p + 2, 4).at);
      }
    } else {
      StringReadsNoNul(js, p + 1);
    }
  }

  lemma {:induction false} PrimitiveReadsNoNul(js: string, p: nat)
    requires p <= |js| && PrimitiveEnd(js, p).Found?
    ensures forall k :: p <= k < PrimitiveEnd(js, p).at ==> js[k] != '\0'
    decreases |js| - p
  {
    if !AtEnd(js, p) && !IsTerminator(js[p]) { PrimitiveReadsNoNul(js, p + 1); }
  }

  lemma {:induction false} LexReadsNoNul(js: string, p: nat)
    requires !AtEnd(js, p) && Lex(js, p).Lexed?
    ensures forall k :: p <= k < Lex(js, p).next ==> js[k] != '\0'
  {
    if Lex(js, p).lexeme.Leaf? {
      if js[p] == '\"' { StringReadsNoNul(js, p + 1); } else { PrimitiveReadsNoNul(js, p + 1); }
    }
  }

  predicate IsLeaf(t: Token) {
    t.kind == String || t.kind == Primitive
  }

  // Spans i < j of the table: j inside a closed container i, or after it.
  predicate NestedOrAfter(a: Token, b: Token) {
    && (!IsOpen(a) ==> (IsContainer(a) && !IsOpen(b) && b.end <= a.end) || a.end <= b.start)
    && (a.kind == String ==> a.end < b.start)
  }

  ghost predicate TokenFits(t: Token, pos: nat) {
    && (IsContainer(t) || IsLeaf(t))
    && (IsOpen(t) ==> IsContainer(t))
    && 0 <= t.start < pos
    && (!IsOpen(t) ==> t.start <= t.end <= pos)
    && (t.kind == String ==> t.end < pos)
  }

  ghost predicate Shape(toks: seq<Token>, pos: nat) {
    && (forall i :: 0 <= i < |toks| ==> TokenFits(toks[i], pos))
    && (forall i, j :: 0 <= i < j < |toks| ==>
          toks[i].start < toks[j].start && NestedOrAfter(toks[i], toks[j]))
  }

  ghost predicate WellFormed(s: State) {
    SupInRange(s) && Shape(s.toks, s.pos)
  }

  lemma AppendKeepsShape(toks: seq<Token>, pos: nat, i: int, t: Token, next: nat)
    requires Shape(toks, pos) && -1 <= i < |toks|
    requires pos <= t.start && pos <= next && TokenFits(t, next)
    ensures Shape(Grow(toks, i, 1) + [t], next)
  {
    var grown := Grow(toks, i, 1);
    forall j | 0 <= j < |toks| ensures TokenFits(grown[j], next) && grown[j].start < pos
    {
      assert TokenFits(toks[j], pos);
    }
    forall j, k | 0 <= j < k < |toks|
      ensures grown[j].start < grown[k].start && NestedOrAfter(grown[j], grown[k])
    {
      assert toks[j].start < toks[k].start && NestedOrAfter(toks[j], toks[k]);
    }
    forall j | 0 <= j < |toks| ensures NestedOrAfter(grown[j], t) {
      assert TokenFits(toks[j], pos);
    }
  }

  lemma CloseKeepsShape(toks: seq<Token>, pos: nat)
    requires Shape(toks, pos) && LastOpen(toks, |toks|) >= 0
    ensures var k := LastOpen(toks, |toks|); Shape(toks[k := toks[k].(end := pos + 1)], pos + 1)
  {
    var k := LastOpen(toks, |toks|);
    var closed := toks[k := toks[k].(end := pos + 1)];
    forall j | 0 <= j < |toks| ensures TokenFits(closed[j], pos + 1) {
      assert TokenFits(toks[j], pos);
    }
    forall i, j | 0 <= i < j < |toks|
      ensures closed[i].start < closed[j].start && NestedOrAfter(closed[i], closed[j])
    {
      assert toks[i].start < toks[j].start && NestedOrAfter(toks[i], toks[j]);
      assert TokenFits(toks[j], pos);
    }
  }

  lemma ReadingKeepsShape(toks: seq<Token>, pos: nat, next: nat)
    requires Shape(toks, pos) && pos <= next
    ensures Shape(toks, next)
  {
    forall i | 0 <= i < |toks| ensures TokenFits(toks[i], next) {
      assert TokenFits(toks[i], pos);
    }
  }

  lemma StepKeepsShape(js: string, s: State, cap: nat)
    requires WellFormed(s) && !AtEnd(js, s.pos) && Step(js, s, cap).Go?
    ensures WellFormed(Step(js, s, cap).state)
  {
    hide Shape, Lex;
    var next := Lex(js, s.pos).next;
    match Lex(js, s.pos).lexeme
    case Open(kind) => AppendKeepsShape(s.toks, s.pos, s.sup, Token(kind, s.pos, -1, 0), next);
    case Leaf(kind, start, end) => AppendKeepsShape(s.toks, s.pos, s.sup, Token(kind, start, end, 0), next);
    case Close(_) => CloseKeepsShape(s.toks, s.pos);
    case Colon | Comma | Blank => ReadingKeepsShape(s.toks, s.pos, next);
  }

  // Every reachable state is well formed, whatever the input and the return code:
  // starts increase, closed spans lie in the input read so far and nest or are disjoint.
  lemma {:induction false} RunKeepsShape(js: string, s: State, cap: nat)
    requires WellFormed(s)
    ensures WellFormed(Run(js, s, cap).1)
    ensures Run(js, s, cap).1.pos <= if s.pos <= |js| then |js| else s.pos
    decreases |js| - s.pos
  {
    if !AtEnd(js, s.pos) && Step(js, s, cap).Go? {
      StepKeepsShape(js, s, cap);
      RunKeepsShape(js, Step(js, s, cap).state, cap);
    }
  }

  // Nothing a call has read past is a NUL.
  lemma {:induction false} RunReadsNoNul(js: string, s: State, cap: nat)
    requires SupInRange(s) && s.pos <= |js| && forall k :: 0 <= k < s.pos ==> js[k] != '\0'
    ensures Run(js, s, cap).1.pos <= |js|
    ensures forall k :: 0 <= k < Run(js, s, cap).1.pos ==> js[k] != '\0'
    decreases |js| - s.pos
  {
    if !AtEnd(js, s.pos) && Step(js, s, cap).Go? {
      LexReadsNoNul(js, s.pos);
      RunReadsNoNul(js, Step(js, s, cap).state, cap);
    }
  }

  // A bracket closes the innermost unclosed token: all later tokens are closed and lie
  // inside the span it gets, and the new toksuper is the innermost one still unclosed.
  lemma CloseEndsInnermost(s: State, kind: Kind, cap: nat)
    requires WellFormed(s) && Apply(s, Close(kind), s.pos + 1, cap).Go?
    ensures var s' := Apply(s, Close(kind), s.pos + 1, cap).state;
            exists k :: 0 <= k < |s.toks| && IsOpen(s.toks[k]) && s.toks[k].kind == kind
              && s'.toks == s.toks[k := s.toks[k].(end := s.pos + 1)]
              && (forall j :: k < j < |s.toks| ==>
                    !IsOpen(s'.toks[j]) && s'.toks[k].start < s'.toks[j].start <= s'.toks[j].end < s'.toks[k].end)
              && (s'.sup == -1 || (s'.sup < k && IsOpen(s.toks[s'.sup])))
              && (forall j :: s'.sup < j < |s'.toks| ==> !IsOpen(s'.toks[j]))
  {
    var k := LastOpen(s.toks, |s.toks|);
    var s' := Apply(s, Close(kind), s.pos + 1, cap).state;
    forall j | k < j < |s.toks|
      ensures !IsOpen(s'.toks[j]) && s'.toks[k].start < s'.toks[j].start <= s'.toks[j].end < s'.toks[k].end
    {
      assert TokenFits(s.toks[j], s.pos) && s.toks[k].start < s.toks[j].start;
    }
  }

  // ---------- where the sizes come from ----------

  // toksuper at the creation of each token a run allocates, in order.
  function Supers(js: string, s: State, cap: nat): seq<int>
    requires SupInRange(s)
    decreases |js| - s.pos
  {
    if AtEnd(js, s.pos) then []
    else
      match Step(js, s, cap)
      case Fail(_) => []
      case Go(s') =>
        (if |s'.toks| > |s.toks| then [s.sup] else []) + Supers(js, s', cap)
  }

  function SizeSum(toks: seq<Token>): int {
    if toks == [] then 0 else SizeSum(toks[..|toks| - 1]) + toks[|toks| - 1].size
  }

  lemma {:induction false} SizeSumGrow(toks: seq<Token>, i: int)
    requires -1 <= i < |toks|
    ensures SizeSum(Grow(toks, i, 1)) == SizeSum(toks) + if i == -1 then 0 else 1
  {
    if i >= 0 {
      var n := |toks| - 1;
      var grown := Grow(toks, i, 1);
      if i == n {
        assert grown[..n] == toks[..n];
      } else {
        SizeSumGrow(toks[..n], i);
        assert grown[..n] == Grow(toks[..n], i, 1);
      }
    }
  }

  lemma {:induction false} SizeSumEnds(toks: seq<Token>, i: nat, end: int)
    requires i < |toks|
    ensures SizeSum(toks[i := toks[i].(end := end)]) == SizeSum(toks)
  {
    var n := |toks| - 1;
    var closed := toks[i := toks[i].(end := end)];
    if i == n {
      assert closed[..n] == toks[..n];
    } else {
      SizeSumEnds(toks[..n], i, end);
      assert closed[..n] == toks[..n][i := toks[i].(end := end)];
    }
  }

  // `past[j]` is toksuper when token j was created: sizes count creations.
  ghost predicate Counted(toks: seq<Token>, past: seq<int>) {
    && |past| == |toks|
    && (forall j :: 0 <= j < |past| ==> -1 <= past[j] < j)
    && (forall i :: 0 <= i < |toks| ==> toks[i].size == multiset(past)[i])
    && SizeSum(toks) + multiset(past)[-1] == |toks|
  }

  // The children of a string or primitive are the run of tokens just after it.
  ghost predicate ChildrenFollow(toks: seq<Token>, past: seq<int>, i: nat)
    requires |past| == |toks| && i < |toks|
  {
    && i + toks[i].size < |toks|
    && forall j :: 0 <= j < |past| ==> (past[j] == i <==> i < j <= i + toks[i].size)
  }

  ghost predicate LeavesFollowed(s: State, past: seq<int>)
    requires |past| == |s.toks|
  {
    forall i :: 0 <= i < |s.toks| && IsLeaf(s.toks[i]) ==>
      s.toks[i].size >= 0 && ChildrenFollow(s.toks, past, i)
      && (s.sup == i ==> i + s.toks[i].size + 1 == |s.toks|)
  }

  ghost predicate Recorded(s: State, past: seq<int>) {
    Counted(s.toks, past) && LeavesFollowed(s, past)
  }

  lemma NotCounted(past: seq<int>, v: int)
    requires forall j :: 0 <= j < |past| ==> past[j] < v
    ensures multiset(past)[v] == 0
  {
    assert v !in past;
  }

  lemma AppendCounts(toks: seq<Token>, past: seq<int>, sup: int, t: Token)
    requires Counted(toks, past) && -1 <= sup < |toks| && t.size == 0
    ensures Counted(Grow(toks, sup, 1) + [t], past + [sup])
  {
    var now, grown := past + [sup], Grow(toks, sup, 1);
    assert multiset(now) == multiset(past) + multiset{sup};
    NotCounted(now, |toks|);
    SizeSumGrow(toks, sup);
    assert (grown + [t])[..|toks|] == grown;
  }

  lemma AppendFollows(s: State, past: seq<int>, t: Token, next: nat, sup: int)
    requires SupInRange(s) && |past| == |s.toks| && LeavesFollowed(s, past)
    requires forall j :: 0 <= j < |past| ==> past[j] < j
    requires t.size == 0 && (sup == s.sup || (sup == |s.toks| && !IsLeaf(t)))
    ensures LeavesFollowed(State(next, Grow(s.toks, s.sup, 1) + [t], sup), past + [s.sup])
  {
    var s' := State(next, Grow(s.toks, s.sup, 1) + [t], sup);
    forall i | 0 <= i < |s'.toks| && IsLeaf(s'.toks[i])
      ensures s'.toks[i].size >= 0 && ChildrenFollow(s'.toks, past + [s.sup], i)
      ensures s'.sup == i ==> i + s'.toks[i].size + 1 == |s'.toks|
    {
      if i < |s.toks| {
        assert IsLeaf(s.toks[i]) && ChildrenFollow(s.toks, past, i);
      }
    }
  }

  // Toksuper may move to a container or to the newest token; spans may get an end.
  lemma MoveFollows(s: State, past: seq<int>, s': State)
    requires |past| == |s.toks| == |s'.toks| && LeavesFollowed(s, past) && Counted(s.toks, past)
    requires forall i :: 0 <= i < |s.toks| ==>
      s'.toks[i].kind == s.toks[i].kind && s'.toks[i].size == s.toks[i].size
    requires s'.sup == -1 || s'.sup == s.sup || s'.sup == |s.toks| - 1
             || (0 <= s'.sup < |s.toks| && !IsLeaf(s.toks[s'.sup]))
    ensures LeavesFollowed(s', past)
  {
    forall i | 0 <= i < |s'.toks| && IsLeaf(s'.toks[i])
      ensures s'.toks[i].size >= 0 && ChildrenFollow(s'.toks, past, i)
      ensures s'.sup == i ==> i + s'.toks[i].size + 1 == |s'.toks|
    {
      assert IsLeaf(s.toks[i]) && ChildrenFollow(s.toks, past, i);
      if i == |s.toks| - 1 { NotCounted(past, i); }
    }
  }

  lemma {:induction false} CloseCounts(toks: seq<Token>, past: seq<int>, k: nat, end: int)
    requires Counted(toks, past) && k < |toks|
    ensures Counted(toks[k := toks[k].(end := end)], past)
  {
    hide SizeSum;
    SizeSumEnds(toks, k, end);
  }

  lemma {:induction false} CloseRecords(s: State, kind: Kind, cap: nat, past: seq<int>)
    requires WellFormed(s) && Recorded(s, past) && Apply(s, Close(kind), s.pos + 1, cap).Go?
    ensures Recorded(Apply(s, Close(kind), s.pos + 1, cap).state, past)
  {
    hide LeavesFollowed, SizeSum;
    var s' := Apply(s, Close(kind), s.pos + 1, cap).state;
    assert s'.sup >= 0 ==> TokenFits(s.toks[s'.sup], s.pos);
    hide Shape;
    CloseCounts(s.toks, past, LastOpen(s.toks, |s.toks|), s.pos + 1);
    MoveFollows(s, past, s');
  }

  lemma AppendRecords(s: State, past: seq<int>, t: Token, next: nat, sup: int)
    requires SupInRange(s) && Recorded(s, past)
    requires t.size == 0 && (sup == s.sup || (sup == |s.toks| && !IsLeaf(t)))
    ensures Recorded(State(next, Grow(s.toks, s.sup, 1) + [t], sup), past + [s.sup])
  {
    AppendCounts(s.toks, past, s.sup, t);
    AppendFollows(s, past, t, next, sup);
  }

  lemma QuietRecords(s: State, l: Lexeme, next: nat, cap: nat, past: seq<int>)
    requires SupInRange(s) && Recorded(s, past) && (l.Colon? || l.Comma? || l.Blank?)
    ensures Recorded(Apply(s, l, next, cap).state, past)
  {
    MoveFollows(s, past, Apply(s, l, next, cap).state);
  }

  lemma StepRecords(js: string, s: State, cap: nat, past: seq<int>)
    requires WellFormed(s) && Recorded(s, past) && !AtEnd(js, s.pos) && Step(js, s, cap).Go?
    ensures var s' := Step(js, s, cap).state;
            Recorded(s', past + if |s'.toks| > |s.toks| then [s.sup] else [])
  {
    hide Recorded, Lex;
    var s' := Step(js, s, cap).state;
    match Lex(js, s.pos).lexeme
    case Open(kind) => AppendRecords(s, past, Token(kind, s.pos, -1, 0), s'.pos, s'.sup);
    case Leaf(kind, start, end) => AppendRecords(s, past, Token(kind, start, end, 0), s'.pos, s'.sup);
    case Close(kind) =>
      CloseRecords(s, kind, cap, past);
      assert past + [] == past;
    case l =>
      QuietRecords(s, l, s'.pos, cap, past);
      assert past + [] == past;
  }

  lemma {:induction false} RunRecords(js: string, s: State, cap: nat, past: seq<int>)
    requires WellFormed(s) && Recorded(s, past)
    ensures Recorded(Run(js, s, cap).1, past + Supers(js, s, cap))
    decreases |js| - s.pos
  {
    hide Recorded, Shape, Apply, Lex, LastOpen;
    if AtEnd(js, s.pos) || Step(js, s, cap).Fail? {
      assert past + [] == past;
    } else {
      var s' := Step(js, s, cap).state;
      var more := if |s'.toks| > |s.toks| then [s.sup] else [];
      assert past + Supers(js, s, cap) == (past + more) + Supers(js, s', cap);
      assert Run(js, s, cap) == Run(js, s', cap);
      StepKeepsShape(js, s, cap);
      StepRecords(js, s, cap, past);
      RunRecords(js, s', cap, past + more);
    }
  }

  lemma FreshRecords(js: string, cap: nat)
    ensures Recorded(Run(js, FRESH, cap).1, Supers(js, FRESH, cap))
  {
    RunRecords(js, FRESH, cap, []);
    assert [] + Supers(js, FRESH, cap) == Supers(js, FRESH, cap);
  }

  // Size conservation on arbitrary input: the sizes add up to the tokens created under
  // some token, the rest being the ones created with toksuper == -1.
  lemma SizesConserved(js: string, cap: nat)
    ensures var toks := Run(js, FRESH, cap).1.toks;
            var supers := Supers(js, FRESH, cap);
            && |supers| == |toks|
            && SizeSum(toks) + multiset(supers)[-1] == |toks|
            && (forall i {:trigger toks[i]} :: 0 <= i < |toks| ==> toks[i].size == multiset(supers)[i])
  {
    FreshRecords(js, cap);
  }

  // A string of size n owns exactly the n tokens after it, so the t[i+1] that
  // client_alert_data reads beside a string of size 1 is allocated and is its only child.
  lemma LeafChildrenFollow(js: string, cap: nat, i: nat)
    requires i < |Run(js, FRESH, cap).1.toks| && IsLeaf(Run(js, FRESH, cap).1.toks[i])
    ensures var toks := Run(js, FRESH, cap).1.toks;
            var supers := Supers(js, FRESH, cap);
            && |supers| == |toks|
            && (forall j :: 0 <= j < |toks| ==> (supers[j] == i <==> i < j <= i + toks[i].size))
            && (toks[i].size >= 1 ==> i + 1 < |toks| && supers[i + 1] == i)
  {
    hide Run, Supers;
    FreshRecords(js, cap);
    var s, supers := Run(js, FRESH, cap).1, Supers(js, FRESH, cap);
    assert ChildrenFollow(s.toks, supers, i);
  }
}
