// jsmn_parse as it would be with an explicit stack of the brackets still open, and the
// proof that the backward scans over the tokens compute the same, whatever the text.

module JsmnReference {
  import opened JsmnAcceptance
  import opened JsmnInvariants
  import opened JsmnLexer
  import opened JsmnModel

  // The indices of the open brackets' tokens, innermost last, beside the parser's state.
  datatype RState = RState(pos: nat, toks: seq<Token>, stack: seq<nat>, sup: int)

  datatype ROutcome = RGo(state: RState) | RFail(code: int)

  ghost predicate RValid(s: RState) {
    -1 <= s.sup < |s.toks| && forall m :: 0 <= m < |s.stack| ==> s.stack[m] < |s.toks|
  }

  function Top(stack: seq<nat>): int {
    if stack == [] then -1 else stack[|stack| - 1]
  }

  // One more child for token i, if there is one.
  function Child(toks: seq<Token>, i: int): (r: seq<Token>)
    requires -1 <= i < |toks|
    ensures |r| == |toks|
  {
    if i < 0 then toks else toks[i := Token(toks[i].kind, toks[i].start, toks[i].end, toks[i].size + 1)]
  }

  function RApply(s: RState, l: Lexeme, next: nat, cap: nat): (r: ROutcome)
    requires RValid(s)
    ensures r.RGo? ==> RValid(r.state) && r.state.pos == next
  {
    match l
    case Open(kind) =>
      if |s.toks| >= cap then RFail(-1)
      else RGo(RState(next, Child(s.toks, s.sup) + [Token(kind, s.pos, -1, 0)], s.stack + [|s.toks|], |s.toks|))
    case Close(kind) =>
      if s.stack == [] || s.toks[Top(s.stack)].kind != kind then RFail(-2)
      else
        var i, below := Top(s.stack), s.stack[..|s.stack| - 1];
        var t := s.toks[i];
        RGo(RState(next, s.toks[i := Token(t.kind, t.start, s.pos + 1, t.size)], below, Top(below)))
    case Leaf(kind, start, end) =>
      if |s.toks| >= cap then RFail(-1)
      else RGo(RState(next, Child(s.toks, s.sup) + [Token(kind, start, end, 0)], s.stack, s.sup))
    case Colon => RGo(RState(next, s.toks, s.stack, |s.toks| - 1))
    case Comma =>
      // from a string or primitive back to the innermost open bracket, if any is open
      var back := s.stack != [] && s.sup >= 0 && (s.toks[s.sup].kind == String || s.toks[s.sup].kind == Primitive);
      RGo(RState(next, s.toks, s.stack, if back then Top(s.stack) else s.sup))
    case Blank => RGo(RState(next, s.toks, s.stack, s.sup))
  }

  function RRun(js: string, s: RState, cap: nat): (r: (int, RState))
    requires RValid(s)
    decreases |js| - s.pos
  {
    if AtEnd(js, s.pos) then (if s.stack != [] then -3 else |s.toks|, s)
    else
      match Lex(js, s.pos)
      case LexError(code) => (code, s)
      case Lexed(l, next) =>
        match RApply(s, l, next, cap)
        case RFail(code) => (code, s)
        case RGo(s') => RRun(js, s', cap)
  }

  // ---------- the scans find the top of the stack ----------

  // Unclosed tokens are brackets, and every token is a bracket, a string or a primitive.
  ghost predicate Kinded(toks: seq<Token>) {
    forall i :: 0 <= i < |toks| ==>
      && (IsOpen(toks[i]) ==> IsContainer(toks[i]))
      && (IsContainer(toks[i]) || toks[i].kind == String || toks[i].kind == Primitive)
  }

  ghost predicate Same(s: State, r: RState) {
    && SupInRange(s) && Kinded(s.toks)
    && r == RState(s.pos, s.toks, OpenStack(s.toks, |s.toks|), s.sup)
  }

  lemma {:induction false} TopIsLastOpen(toks: seq<Token>, n: nat)
    requires n <= |toks|
    ensures Top(OpenStack(toks, n)) == LastOpen(toks, n)
  {
    StackTop(toks, n);
  }

  lemma {:induction false} ScansAgree(toks: seq<Token>, n: nat)
    requires n <= |toks| && Kinded(toks)
    ensures LastOpenContainer(toks, n) == LastOpen(toks, n)
    decreases n
  {
    if n > 0 { ScansAgree(toks, n - 1); }
  }

  ghost predicate Alike(o: Outcome, r: ROutcome) {
    match o
    case Fail(code) => r == RFail(code)
    case Go(s) => r.RGo? && Same(s, r.state)
  }

  lemma {:induction false} AppendAlike(s: State, r: RState, l: Lexeme, next: nat, cap: nat)
    requires Same(s, r) && RValid(r) && (l.Open? || l.Leaf?)
    requires if l.Open? then l.kind == Object || l.kind == Array
             else l.kind == String || l.kind == Primitive
    ensures Alike(Apply(s, l, next, cap), RApply(r, l, next, cap))
  {
    hide LastOpen, OpenStack;
    if |s.toks| < cap {
      var t := if l.Open? then Token(l.kind, s.pos, -1, 0) else Token(l.kind, l.start, l.end, 0);
      StackAfterAppend(s.toks, s.sup, t);
      assert OpenStack(s.toks, |s.toks|) + [] == OpenStack(s.toks, |s.toks|);
    }
  }

  lemma {:induction false} CloseAlike(s: State, r: RState, kind: Kind, cap: nat)
    requires Same(s, r) && RValid(r)
    ensures Alike(Apply(s, Close(kind), s.pos + 1, cap), RApply(r, Close(kind), s.pos + 1, cap))
  {
    hide LastOpen, OpenStack, Kinded;
    TopIsLastOpen(s.toks, |s.toks|);
    var i := LastOpen(s.toks, |s.toks|);
    if i >= 0 {
      var closed := s.toks[i := s.toks[i].(end := s.pos + 1)];
      StackTop(s.toks, |s.toks|);
      StackAfterClose(s.toks, s.pos);
      TopIsLastOpen(closed, |closed|);
      ClosedKinded(s.toks, i, s.pos + 1);
      ScanBelow(s.toks, i, s.pos + 1);
    }
  }

  lemma {:induction false} ClosedKinded(toks: seq<Token>, i: nat, end: nat)
    requires Kinded(toks) && i < |toks|
    ensures Kinded(toks[i := toks[i].(end := end)])
  {
  }

  // Below the token just closed the scan goes on as over the whole.
  lemma {:induction false} ScanBelow(toks: seq<Token>, i: nat, end: nat)
    requires i < |toks| && i == LastOpen(toks, |toks|)
    ensures var closed := toks[i := toks[i].(end := end)];
            LastOpen(closed, i) == LastOpen(closed, |closed|)
  {
    var closed := toks[i := toks[i].(end := end)];
    assert forall j :: i <= j < |closed| ==> !IsOpen(closed[j]);
    ScanDown(closed, i, |closed|);
  }

  lemma {:induction false} ScanDown(toks: seq<Token>, k: nat, n: nat)
    requires k <= n <= |toks| && forall j :: k <= j < n ==> !IsOpen(toks[j])
    ensures LastOpen(toks, n) == LastOpen(toks, k)
    decreases n
  {
    if n > k { ScanDown(toks, k, n - 1); }
  }

  lemma {:induction false} QuietAlike(s: State, r: RState, l: Lexeme, next: nat, cap: nat)
    requires Same(s, r) && RValid(r) && (l.Colon? || l.Comma? || l.Blank?)
    ensures Alike(Apply(s, l, next, cap), RApply(r, l, next, cap))
  {
    hide LastOpen, LastOpenContainer, OpenStack;
    TopIsLastOpen(s.toks, |s.toks|);
    ScansAgree(s.toks, |s.toks|);
  }

  lemma {:induction false} RunAlike(js: string, s: State, r: RState, cap: nat)
    requires Same(s, r) && RValid(r)
    ensures var (code, s') := Run(js, s, cap); var (rcode, r') := RRun(js, r, cap);
            code == rcode && Same(s', r')
    decreases |js| - s.pos
  {
    hide Lex, Apply, RApply, Same, RValid, LastOpen, OpenStack;
    SameParts(s, r);
    if AtEnd(js, s.pos) {
      TopIsLastOpen(s.toks, |s.toks|);
      StackTop(s.toks, |s.toks|);
    } else if Lex(js, s.pos).Lexed? {
      var l, next := Lex(js, s.pos).lexeme, Lex(js, s.pos).next;
      if l.Open? || l.Leaf? { AppendAlike(s, r, l, next, cap); }
      else if l.Close? { CloseAlike(s, r, l.kind, cap); }
      else { QuietAlike(s, r, l, next, cap); }
      if Apply(s, l, next, cap).Go? {
        RunAlike(js, Apply(s, l, next, cap).state, RApply(r, l, next, cap).state, cap);
      }
    }
  }

  lemma {:induction false} SameParts(s: State, r: RState)
    requires Same(s, r)
    ensures SupInRange(s) && r.pos == s.pos && r.toks == s.toks && r.stack == OpenStack(s.toks, |s.toks|)
  {
  }

  // On every text and with every array, a call on a fresh parser returns the code, and
  // leaves the pos, tokens and toksuper, that the parser with a stack does.
  lemma {:induction false} ScansAreAStack(js: string, cap: nat)
    ensures var (code, s) := Run(js, FRESH, cap); var (rcode, r) := RRun(js, RState(0, [], [], -1), cap);
            code == rcode && s == State(r.pos, r.toks, r.sup)
  {
    hide Run, RRun;
    RunAlike(js, FRESH, RState(0, [], [], -1), cap);
  }
}
