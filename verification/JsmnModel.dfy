// The token-building half of jsmn as a function on values: the default build
// (non-strict, no parent links), which closes brackets by scanning backwards.

module JsmnModel {
  import opened JsmnLexer

  datatype Token = Token(kind: Kind, start: int, end: int, size: int)

  // pos, the toknext tokens allocated so far, and toksuper.
  datatype State = State(pos: nat, toks: seq<Token>, sup: int)

  const FRESH := State(0, [], -1)

  // toksuper is -1 or one of the allocated tokens.
  predicate SupInRange(s: State) {
    -1 <= s.sup < |s.toks|
  }

  predicate IsOpen(t: Token) {
    t.start != -1 && t.end == -1
  }

  predicate IsContainer(t: Token) {
    t.kind == Array || t.kind == Object
  }

  // The backward scans: the last unclosed token below n, or -1.
  function LastOpen(toks: seq<Token>, n: nat): (i: int)
    requires n <= |toks|
    ensures -1 <= i < n
    ensures i >= 0 ==> IsOpen(toks[i])
    ensures forall j :: i < j < n ==> !IsOpen(toks[j])
  {
    if n == 0 then -1 else if IsOpen(toks[n - 1]) then n - 1 else LastOpen(toks, n - 1)
  }

  function LastOpenContainer(toks: seq<Token>, n: nat): (i: int)
    requires n <= |toks|
    ensures -1 <= i < n
    ensures i >= 0 ==> IsContainer(toks[i]) && IsOpen(toks[i])
    ensures forall j :: i < j < n ==> !(IsContainer(toks[j]) && IsOpen(toks[j]))
  {
    if n == 0 then -1
    else if IsContainer(toks[n - 1]) && IsOpen(toks[n - 1]) then n - 1
    else LastOpenContainer(toks, n - 1)
  }

  // tokens[i].size += n, with -1 standing for "no parent".
  function Grow(toks: seq<Token>, i: int, n: int): (r: seq<Token>)
    requires -1 <= i < |toks|
    ensures |r| == |toks|
    ensures forall j :: 0 <= j < |toks| && j != i ==> r[j] == toks[j]
    ensures i >= 0 ==> r[i] == toks[i].(size := toks[i].size + n)
  {
    if i == -1 then toks else toks[i := toks[i].(size := toks[i].size + n)]
  }

  datatype Outcome = Go(state: State) | Fail(code: int)

  function Apply(s: State, l: Lexeme, next: nat, cap: nat): (r: Outcome)
    requires SupInRange(s)
    ensures r.Go? ==> SupInRange(r.state) && r.state.pos == next
    ensures r.Fail? ==> r.code == NOMEM || r.code == INVAL
  {
    match l
    case Open(kind) =>
      if |s.toks| >= cap then Fail(NOMEM)
      else Go(State(next, Grow(s.toks, s.sup, 1) + [Token(kind, s.pos, -1, 0)], |s.toks|))
    case Close(kind) =>
      var i := LastOpen(s.toks, |s.toks|);
      if i == -1 || s.toks[i].kind != kind then Fail(INVAL)
      else
        var toks := s.toks[i := s.toks[i].(end := s.pos + 1)];
        Go(State(next, toks, LastOpen(toks, i)))
    case Leaf(kind, start, end) =>
      if |s.toks| >= cap then Fail(NOMEM)
      else Go(State(next, Grow(s.toks, s.sup, 1) + [Token(kind, start, end, 0)], s.sup))
    case Colon => Go(s.(pos := next, sup := |s.toks| - 1))
    case Comma =>
      if s.sup != -1 && !IsContainer(s.toks[s.sup]) then
        var i := LastOpenContainer(s.toks, |s.toks|);
        Go(s.(pos := next, sup := if i == -1 then s.sup else i))
      else Go(s.(pos := next))
    case Blank => Go(s.(pos := next))
  }

  // One turn of jsmn_parse's loop.
  function Step(js: string, s: State, cap: nat): (r: Outcome)
    requires SupInRange(s) && !AtEnd(js, s.pos)
    ensures r.Go? ==> SupInRange(r.state) && s.pos < r.state.pos <= |js|
    ensures r.Fail? ==> r.code < 0
  {
    match Lex(js, s.pos)
    case LexError(code) => Fail(code)
    case Lexed(l, next) => Apply(s, l, next, cap)
  }

  // A whole jsmn_parse call in token mode: its return code and the state it leaves.
  // Every error leaves the state as it was before the lexeme that failed.
  function Run(js: string, s: State, cap: nat): (r: (int, State))
    requires SupInRange(s)
    ensures SupInRange(r.1)
    decreases |js| - s.pos
  {
    if AtEnd(js, s.pos) then
      (if LastOpen(s.toks, |s.toks|) != -1 then PART else |s.toks|, s)
    else
      match Step(js, s, cap)
      case Fail(code) => (code, s)
      case Go(s') => Run(js, s', cap)
  }

  // A jsmn_parse call with tokens == NULL: return code, pos and toksuper.
  function CountRun(js: string, pos: nat, next: nat, sup: int, count: nat): (int, nat, int)
    decreases |js| - pos
  {
    if AtEnd(js, pos) then (count, pos, sup)
    else
      match Lex(js, pos)
      case LexError(code) => (code, pos, sup)
      case Lexed(l, q) =>
        CountRun(js, q, next, if l.Colon? then next - 1 else sup,
                 if l.Open? || l.Leaf? then count + 1 else count)
  }
}
