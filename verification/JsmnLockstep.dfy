// The scanning and the parent-link build side by side, lexeme by lexeme: on every text
// whose lexemes come in order, as those of an RFC 8259 text do, they stop at the same
// place with the same code and the same tokens, whatever the size of the array.

module JsmnLockstep {
  import opened Json
  import opened JsonLayout
  import opened JsmnAcceptance
  import opened JsmnLexer
  import opened JsmnLinked
  import opened JsmnModel
  import opened JsmnRoundTrip

  // ---------- the order of lexemes ----------

  // What the last lexeme allows next: Ready for a value or a key, Plain after a leaf that
  // may turn out to be a key, Keyed by a colon, Done with a value.
  datatype Phase = Ready | Plain | Keyed | Done

  predicate MayStart(phase: Phase) {
    phase.Ready? || phase.Keyed?
  }

  function AfterLeaf(phase: Phase): Phase {
    if phase.Ready? then Plain else Done
  }

  // No value follows another without a comma, and a colon follows only a string or
  // primitive inside brackets that was not itself after a colon.
  predicate Orderly(js: string, p: nat, phase: Phase, depth: nat)
    decreases |js| - p
  {
    AtEnd(js, p)
    || match Lex(js, p)
       case LexError(_) => true
       case Lexed(l, q) =>
         (match l
          case Open(_) => MayStart(phase) && Orderly(js, q, Ready, depth + 1)
          case Leaf(_, _, _) => MayStart(phase) && Orderly(js, q, AfterLeaf(phase), depth)
          case Close(_) => depth == 0 || Orderly(js, q, Done, depth - 1)
          case Colon => phase.Plain? && depth > 0 && Orderly(js, q, Keyed, depth)
          case Comma => Orderly(js, q, Ready, depth)
          case Blank => Orderly(js, q, phase, depth))
  }

  // ---------- what the links are like ----------

  // Token k is a key, or could be one, of container o.
  ghost predicate KeyOn(toks: seq<Linked>, k: int, o: int) {
    0 <= o < k < |toks| && toks[k].parent == o && !IsContainer(toks[k].tok) && !IsOpen(toks[k].tok)
  }

  // Everything after token m hangs below it.
  ghost predicate Under(toks: seq<Linked>, m: int) {
    forall i :: 0 <= i < |toks| && m < i ==> m <= toks[i].parent
  }

  // Token i is linked to a and everything between them hangs below a.
  ghost predicate NestedAt(toks: seq<Linked>, i: nat)
    requires i < |toks|
  {
    forall j :: 0 <= j < i && toks[i].parent < j ==> toks[i].parent <= toks[j].parent
  }

  ghost predicate Nested(toks: seq<Linked>) {
    forall i :: 0 <= i < |toks| ==> NestedAt(toks, i)
  }

  // An unclosed token is a container, holds all that follows, and is linked to the
  // unclosed one below it or to a key of that.
  ghost predicate OpenAt(toks: seq<Linked>, m: nat)
    requires m < |toks|
  {
    IsOpen(toks[m].tok) ==>
      && IsContainer(toks[m].tok) && Under(toks, m)
      && (toks[m].parent == LastOpen(Toks(toks), m) || KeyOn(toks, toks[m].parent, LastOpen(Toks(toks), m)))
  }

  ghost predicate Links(toks: seq<Linked>) {
    LinksBelow(toks) && Nested(toks) && forall m :: 0 <= m < |toks| ==> OpenAt(toks, m)
  }

  // ---------- the lockstep ----------

  // Where the two toksuper values may stand, o being the innermost unclosed token.
  ghost predicate Sups(toks: seq<Linked>, sup: int, lsup: int, o: int, phase: Phase) {
    match phase
    case Ready => sup == o && lsup == o
    case Plain => sup == o && lsup == o && (o >= 0 ==> KeyOn(toks, |toks| - 1, o))
    case Keyed => sup == lsup == |toks| - 1 && KeyOn(toks, lsup, o)
    case Done => (sup == o || sup == lsup) && (lsup == o || KeyOn(toks, lsup, o))
  }

  ghost predicate Lockstep(s: State, ls: LState, phase: Phase, depth: nat) {
    && LValid(ls) && ls.pos == s.pos && Toks(ls.toks) == s.toks
    && Links(ls.toks) && Under(ls.toks, ls.sup)
    && Sups(ls.toks, s.sup, ls.sup, LastOpen(s.toks, |s.toks|), phase)
    && depth == |OpenStack(s.toks, |s.toks|)|
  }

  lemma {:induction false} LockstepFresh()
    ensures Lockstep(FRESH, LFRESH, Ready, 0)
  {
  }

  // ---------- a token more ----------

  ghost predicate Hook(toks: seq<Linked>, a: int) {
    var o := LastOpen(Toks(toks), |toks|);
    Under(toks, a) && (a == o || KeyOn(toks, a, o))
  }

  function Appended(toks: seq<Linked>, a: int, t: Token): (r: seq<Linked>)
    requires -1 <= a < |toks|
    ensures |r| == |toks| + 1 && r[|toks|] == Linked(t, a)
    ensures forall i :: 0 <= i < |toks| ==>
      r[i].parent == toks[i].parent && r[i].tok.kind == toks[i].tok.kind && IsOpen(r[i].tok) == IsOpen(toks[i].tok)
  {
    LGrow(toks, a, 1) + [Linked(t, a)]
  }

  lemma {:induction false} AppendedToks(toks: seq<Linked>, a: int, t: Token)
    requires -1 <= a < |toks|
    ensures Toks(Appended(toks, a, t)) == Grow(Toks(toks), a, 1) + [t]
  {
  }

  lemma {:induction false} AppendedLast(toks: seq<Linked>, a: int, t: Token, m: nat)
    requires -1 <= a < |toks| && m <= |toks|
    ensures LastOpen(Toks(Appended(toks, a, t)), m) == LastOpen(Toks(toks), m)
    ensures LastOpen(Toks(Appended(toks, a, t)), |toks| + 1)
            == if IsOpen(t) then |toks| else LastOpen(Toks(toks), |toks|)
  {
    hide Appended;
    LastOpenSame(Toks(Appended(toks, a, t)), Toks(toks), m);
    LastOpenSame(Toks(Appended(toks, a, t)), Toks(toks), |toks|);
  }

  lemma {:induction false} AppendedKey(toks: seq<Linked>, a: int, t: Token, k: int, o: int)
    requires -1 <= a < |toks| && KeyOn(toks, k, o)
    ensures KeyOn(Appended(toks, a, t), k, o)
  {
    hide Appended;
  }

  lemma {:induction false} AppendedUnder(toks: seq<Linked>, a: int, t: Token, m: int)
    requires -1 <= a < |toks| && Under(toks, m) && m <= a
    ensures Under(Appended(toks, a, t), m)
  {
    hide Appended;
  }

  lemma {:induction false} AppendedNested(toks: seq<Linked>, a: int, t: Token)
    requires -1 <= a < |toks| && Nested(toks) && Under(toks, a)
    ensures Nested(Appended(toks, a, t))
  {
    hide Appended;
    var r := Appended(toks, a, t);
    forall i | 0 <= i < |r| ensures NestedAt(r, i) {
      if i < |toks| { assert NestedAt(toks, i); }
    }
  }

  lemma {:induction false} AppendedOpen(toks: seq<Linked>, a: int, t: Token, m: nat)
    requires Links(toks) && -1 <= a < |toks| && Hook(toks, a) && (IsOpen(t) ==> IsContainer(t)) && m <= |toks|
    ensures OpenAt(Appended(toks, a, t), m)
  {
    hide Appended, Nested, LinksBelow, LastOpen;
    var r := Appended(toks, a, t);
    var o := LastOpen(Toks(toks), |toks|);
    AppendedLast(toks, a, t, m);
    if m < |toks| && IsOpen(toks[m].tok) {
      assert OpenAt(toks, m);
      assert IsOpen(Toks(toks)[m]) && m <= o;
      AppendedUnder(toks, a, t, m);
      var b := LastOpen(Toks(toks), m);
      if KeyOn(toks, toks[m].parent, b) { AppendedKey(toks, a, t, toks[m].parent, b); }
    } else if m == |toks| {
      if KeyOn(toks, a, o) { AppendedKey(toks, a, t, a, o); }
    }
  }

  lemma {:induction false} AppendedLinks(toks: seq<Linked>, a: int, t: Token)
    requires Links(toks) && -1 <= a < |toks| && Hook(toks, a) && (IsOpen(t) ==> IsContainer(t))
    ensures Links(Appended(toks, a, t)) && Under(Appended(toks, a, t), a)
  {
    hide Appended, Nested, LastOpen, OpenAt;
    AppendedNested(toks, a, t);
    AppendedUnder(toks, a, t, a);
    forall m | 0 <= m <= |toks| ensures OpenAt(Appended(toks, a, t), m) { AppendedOpen(toks, a, t, m); }
  }

  // ---------- a token closed ----------

  function Closed(toks: seq<Linked>, o: nat, end: nat): (r: seq<Linked>)
    requires o < |toks|
    ensures |r| == |toks| && !IsOpen(r[o].tok)
    ensures forall i :: 0 <= i < |toks| ==> r[i].parent == toks[i].parent && r[i].tok.kind == toks[i].tok.kind
    ensures forall i :: 0 <= i < |toks| && i != o ==> IsOpen(r[i].tok) == IsOpen(toks[i].tok)
  {
    toks[o := toks[o].(tok := toks[o].tok.(end := end))]
  }

  lemma {:induction false} ClosedToks(toks: seq<Linked>, o: nat, end: nat)
    requires o < |toks|
    ensures Toks(Closed(toks, o, end)) == Toks(toks)[o := Toks(toks)[o].(end := end)]
  {
  }

  lemma {:induction false} ClosedLast(toks: seq<Linked>, o: nat, end: nat, m: nat)
    requires o == LastOpen(Toks(toks), |toks|) && o < |toks| && m <= o
    ensures LastOpen(Toks(Closed(toks, o, end)), m) == LastOpen(Toks(toks), m)
    ensures LastOpen(Toks(Closed(toks, o, end)), |toks|) == LastOpen(Toks(toks), o)
  {
    hide Closed;
    var r := Toks(Closed(toks, o, end));
    LastOpenSame(r, Toks(toks), m);
    LastOpenSame(r, Toks(toks), o);
    forall i | o <= i < |toks| ensures !IsOpen(r[i]) {
      if i > o { assert !IsOpen(Toks(toks)[i]); }
    }
    LastOpenBelow(r, o, |toks|);
  }

  // Where the linked toksuper goes, seen from where the scanning one does.
  lemma {:induction false} ClosedHook(toks: seq<Linked>, o: nat, end: nat)
    requires Links(toks) && o == LastOpen(Toks(toks), |toks|) && o < |toks|
    ensures var r := Closed(toks, o, end); var b := LastOpen(Toks(toks), o);
            Under(r, toks[o].parent) && (toks[o].parent == b || KeyOn(r, toks[o].parent, b))
  {
    hide Closed, LastOpen;
    assert IsOpen(Toks(toks)[o]);
    assert OpenAt(toks, o) && NestedAt(toks, o);
    var r := Closed(toks, o, end);
    var up := toks[o].parent;
    forall i | 0 <= i < |r| && up < i ensures up <= r[i].parent {
      assert o < i ==> o <= toks[i].parent;
    }
  }

  lemma {:induction false} ClosedOpen(toks: seq<Linked>, o: nat, end: nat, m: nat)
    requires Links(toks) && o == LastOpen(Toks(toks), |toks|) && o < |toks| && m < |toks|
    ensures OpenAt(Closed(toks, o, end), m)
  {
    hide Closed, Nested, LinksBelow, LastOpen;
    var r := Closed(toks, o, end);
    if IsOpen(r[m].tok) {
      assert OpenAt(toks, m);
      assert IsOpen(Toks(toks)[m]) && m <= o;
      ClosedLast(toks, o, end, m);
    }
  }

  lemma {:induction false} ClosedLinks(toks: seq<Linked>, o: nat, end: nat)
    requires Links(toks) && o == LastOpen(Toks(toks), |toks|) && o < |toks|
    ensures Links(Closed(toks, o, end))
  {
    hide Closed, LastOpen, OpenAt;
    var r := Closed(toks, o, end);
    forall i | 0 <= i < |r| ensures NestedAt(r, i) { assert NestedAt(toks, i); }
    forall m | 0 <= m < |r| ensures OpenAt(r, m) { ClosedOpen(toks, o, end, m); }
  }

  // ---------- one lexeme ----------

  // Both builds refuse with one code, or both go on in step.
  ghost predicate Together(r: Outcome, lr: LOutcome, phase: Phase, depth: nat) {
    match r
    case Fail(code) => lr == LFail(code)
    case Go(s) => lr.LGo? && Lockstep(s, lr.state, phase, depth)
  }

  lemma {:induction false} LockOpen(s: State, ls: LState, phase: Phase, depth: nat, kind: Kind, next: nat, cap: nat)
    requires Lockstep(s, ls, phase, depth) && SupInRange(s) && MayStart(phase) && (kind == Array || kind == Object)
    ensures Together(Apply(s, Open(kind), next, cap), LApply(ls, Open(kind), next, cap), Ready, depth + 1)
  {
    hide Links, LastOpen, Under, KeyOn, OpenStack, LinksBelow;
    if |s.toks| < cap {
      var t := Token(kind, s.pos, -1, 0);
      assert Hook(ls.toks, ls.sup);
      AppendedLinks(ls.toks, ls.sup, t);
      AppendedToks(ls.toks, ls.sup, t);
      AppendedLast(ls.toks, ls.sup, t, 0);
      StackAfterAppend(s.toks, s.sup, t);
      NothingAfter(Appended(ls.toks, ls.sup, t));
      LinksBelowOf(Appended(ls.toks, ls.sup, t));
    }
  }

  lemma {:induction false} LinksBelowOf(toks: seq<Linked>)
    requires Links(toks)
    ensures LinksBelow(toks)
  {
  }

  lemma {:induction false} NothingAfter(toks: seq<Linked>)
    ensures Under(toks, |toks| - 1)
  {
  }

  lemma {:induction false} LockLeaf(s: State, ls: LState, phase: Phase, depth: nat, l: Lexeme, next: nat, cap: nat)
    requires Lockstep(s, ls, phase, depth) && SupInRange(s) && MayStart(phase)
    requires l.Leaf? && (l.kind == String || l.kind == Primitive)
    ensures Together(Apply(s, l, next, cap), LApply(ls, l, next, cap), AfterLeaf(phase), depth)
  {
    hide Links, LastOpen, Under, OpenStack, LinksBelow;
    if |s.toks| < cap {
      var t := Token(l.kind, l.start, l.end, 0);
      assert Hook(ls.toks, ls.sup);
      AppendedLinks(ls.toks, ls.sup, t);
      AppendedToks(ls.toks, ls.sup, t);
      AppendedLast(ls.toks, ls.sup, t, 0);
      StackAfterAppend(s.toks, s.sup, t);
      LinksBelowOf(Appended(ls.toks, ls.sup, t));
    }
  }

  lemma {:induction false} OpenUnder(toks: seq<Linked>, o: nat)
    requires Links(toks) && o == LastOpen(Toks(toks), |toks|) && o < |toks|
    ensures Innermost(toks, o) && IsContainer(toks[o].tok) && Under(toks, o)
  {
    assert IsOpen(Toks(toks)[o]) && OpenAt(toks, o);
    forall j | o < j < |toks| ensures !IsOpen(toks[j].tok) { assert !IsOpen(Toks(toks)[j]); }
  }

  lemma {:induction false} CloseInPlace(ls: LState, o: nat, kind: Kind, cap: nat)
    requires LValid(ls) && o < |ls.toks| && IsOpen(ls.toks[o].tok) && Walk(ls.toks, |ls.toks| - 1) == o
    ensures LApply(ls, Close(kind), ls.pos + 1, cap)
            == if ls.toks[o].tok.kind != kind then LFail(INVAL)
               else LGo(LState(ls.pos + 1, Closed(ls.toks, o, ls.pos + 1), ls.toks[o].parent))
  {
    hide LinksBelow, Walk;
  }

  lemma {:induction false} LockClosed(s: State, ls: LState, phase: Phase, depth: nat, o: nat)
    requires Lockstep(s, ls, phase, depth) && LastOpen(s.toks, |s.toks|) == o < |s.toks|
    ensures var toks := s.toks[o := s.toks[o].(end := s.pos + 1)];
            && depth > 0
            && Lockstep(State(s.pos + 1, toks, LastOpen(toks, o)),
                        LState(s.pos + 1, Closed(ls.toks, o, s.pos + 1), ls.toks[o].parent), Done, depth - 1)
  {
    hide Links, LastOpen, Under, OpenStack, LinksBelow, KeyOn, Closed;
    StackAfterClose(s.toks, s.pos);
    ClosedLinks(ls.toks, o, s.pos + 1);
    ClosedHook(ls.toks, o, s.pos + 1);
    ClosedToks(ls.toks, o, s.pos + 1);
    ClosedLast(ls.toks, o, s.pos + 1, o);
    LinksBelowOf(Closed(ls.toks, o, s.pos + 1));
    LinksBelowOf(ls.toks);
    ParentBelow(ls.toks, o);
  }

  lemma {:induction false} ParentBelow(toks: seq<Linked>, i: nat)
    requires LinksBelow(toks) && i < |toks|
    ensures -1 <= toks[i].parent < i
  {
  }

  lemma {:induction false} LockClose(s: State, ls: LState, phase: Phase, depth: nat, kind: Kind, cap: nat)
    requires Lockstep(s, ls, phase, depth) && SupInRange(s) && (kind == Array || kind == Object)
    ensures var r := Apply(s, Close(kind), s.pos + 1, cap); var lr := LApply(ls, Close(kind), s.pos + 1, cap);
            if depth == 0 then r == Fail(INVAL) && lr == LFail(INVAL) else Together(r, lr, Done, depth - 1)
  {
    hide Lockstep, LastOpen, OpenStack, LinksBelow, Walk, LApply, Closed;
    var o := LastOpen(s.toks, |s.toks|);
    LockstepValid(s, ls, phase, depth);
    if o >= 0 {
      OpenUnder(ls.toks, o);
      WalkFindsInnermost(ls.toks, o, |ls.toks| - 1);
      CloseInPlace(ls, o, kind, cap);
      LockClosed(s, ls, phase, depth, o);
    } else {
      DepthNone(s, ls, phase, depth);
      LockCloseNone(s, ls, phase, depth, kind, cap);
    }
  }

  lemma {:induction false} DepthNone(s: State, ls: LState, phase: Phase, depth: nat)
    requires Lockstep(s, ls, phase, depth) && LastOpen(s.toks, |s.toks|) == -1
    ensures depth == 0
  {
    StackTop(s.toks, |s.toks|);
  }

  lemma {:induction false} LockCloseNone(s: State, ls: LState, phase: Phase, depth: nat, kind: Kind, cap: nat)
    requires Lockstep(s, ls, phase, depth) && SupInRange(s) && LastOpen(s.toks, |s.toks|) == -1
    ensures Apply(s, Close(kind), s.pos + 1, cap) == Fail(INVAL)
    ensures LApply(ls, Close(kind), s.pos + 1, cap) == LFail(INVAL)
  {
    hide Links, LastOpen, Under, OpenStack, Walk;
    NoneOpen(ls.toks);
  }

  lemma {:induction false} NoneOpen(toks: seq<Linked>)
    requires LastOpen(Toks(toks), |toks|) == -1
    ensures forall i :: 0 <= i < |toks| ==> !IsOpen(toks[i].tok)
  {
    forall i | 0 <= i < |toks| ensures !IsOpen(toks[i].tok) { assert !IsOpen(Toks(toks)[i]); }
  }

  // No unclosed token is a string or primitive, so both scans find the same one.
  lemma {:induction false} SameScan(toks: seq<Linked>, n: nat)
    requires Links(toks) && n <= |toks|
    ensures LastOpenContainer(Toks(toks), n) == LastOpen(Toks(toks), n)
    decreases n
  {
    if n > 0 {
      assert OpenAt(toks, n - 1);
      hide Links, OpenAt;
      SameScan(toks, n - 1);
    }
  }

  lemma {:induction false} LockComma(s: State, ls: LState, phase: Phase, depth: nat, next: nat, cap: nat)
    requires Lockstep(s, ls, phase, depth) && SupInRange(s)
    ensures Together(Apply(s, Comma, next, cap), LApply(ls, Comma, next, cap), Ready, depth)
  {
    hide Links, LastOpen, LastOpenContainer, Under, OpenStack, LinksBelow;
    var o := LastOpen(s.toks, |s.toks|);
    SameScan(ls.toks, |ls.toks|);
    if o >= 0 { OpenUnder(ls.toks, o); } else { UnderAll(ls.toks); }
  }

  lemma {:induction false} UnderAll(toks: seq<Linked>)
    requires Links(toks)
    ensures Under(toks, -1)
  {
  }

  lemma {:induction false} LockColon(s: State, ls: LState, depth: nat, next: nat, cap: nat)
    requires Lockstep(s, ls, Plain, depth) && SupInRange(s) && depth > 0
    ensures Together(Apply(s, Colon, next, cap), LApply(ls, Colon, next, cap), Keyed, depth)
  {
    hide Links, LastOpen, Under, OpenStack, LinksBelow;
    StackTop(s.toks, |s.toks|);
    NothingAfter(ls.toks);
  }

  lemma {:induction false} LockBlank(s: State, ls: LState, phase: Phase, depth: nat, next: nat, cap: nat)
    requires Lockstep(s, ls, phase, depth) && SupInRange(s)
    ensures Together(Apply(s, Blank, next, cap), LApply(ls, Blank, next, cap), phase, depth)
  {
    hide Links, LastOpen, Under, OpenStack, LinksBelow;
  }

  // ---------- whole runs ----------

  // The two toksuper values are equal, or on a container and on a key of it.
  predicate SupsMeet(s: State, ls: LState) {
    || s.sup == ls.sup
    || (0 <= s.sup < |s.toks| && 0 <= ls.sup < |ls.toks|
        && IsContainer(s.toks[s.sup]) && !IsContainer(ls.toks[ls.sup].tok) && ls.toks[ls.sup].parent == s.sup)
  }

  // The same return code, and parsers that differ at most in toksuper.
  predicate Agree(r: (int, State), lr: (int, LState)) {
    r.0 == lr.0 && r.1.pos == lr.1.pos && r.1.toks == Toks(lr.1.toks) && SupsMeet(r.1, lr.1)
  }

  lemma {:induction false} LockstepMeets(s: State, ls: LState, phase: Phase, depth: nat)
    requires Lockstep(s, ls, phase, depth)
    ensures SupsMeet(s, ls)
  {
    hide Links, LastOpen, Under, OpenStack, LinksBelow;
    var o := LastOpen(s.toks, |s.toks|);
    if o >= 0 { OpenUnder(ls.toks, o); }
  }

  // One lexeme of an orderly text, and what it leaves to come.
  lemma {:induction false} LockStep(js: string, s: State, ls: LState, phase: Phase, depth: nat, cap: nat)
    returns (phase': Phase, depth': nat)
    requires Lockstep(s, ls, phase, depth) && SupInRange(s)
    requires !AtEnd(js, s.pos) && Orderly(js, s.pos, phase, depth)
    ensures Together(Step(js, s, cap), LStep(js, ls, cap), phase', depth')
    ensures Step(js, s, cap).Go? ==> Orderly(js, Step(js, s, cap).state.pos, phase', depth')
  {
    hide Lockstep, SupInRange, Lex, Apply, LApply;
    LockstepValid(s, ls, phase, depth);
    phase', depth' := phase, depth;
    if Lex(js, s.pos).Lexed? {
      var q := Lex(js, s.pos).next;
      match Lex(js, s.pos).lexeme
      case Open(kind) =>
        LockOpen(s, ls, phase, depth, kind, q, cap);
        phase', depth' := Ready, depth + 1;
      case Leaf(kind, start, end) =>
        LockLeaf(s, ls, phase, depth, Leaf(kind, start, end), q, cap);
        phase' := AfterLeaf(phase);
      case Close(kind) =>
        LockClose(s, ls, phase, depth, kind, cap);
        if depth > 0 { phase', depth' := Done, depth - 1; }
      case Colon =>
        LockColon(s, ls, depth, q, cap);
        phase' := Keyed;
      case Comma =>
        LockComma(s, ls, phase, depth, q, cap);
        phase' := Ready;
      case Blank =>
        LockBlank(s, ls, phase, depth, q, cap);
    }
  }

  lemma {:induction false} LockstepValid(s: State, ls: LState, phase: Phase, depth: nat)
    requires Lockstep(s, ls, phase, depth)
    ensures LValid(ls) && ls.pos == s.pos && Toks(ls.toks) == s.toks && Links(ls.toks)
  {
  }

  lemma {:induction false} LockRun(js: string, s: State, ls: LState, phase: Phase, depth: nat, cap: nat)
    requires Lockstep(s, ls, phase, depth) && SupInRange(s) && Orderly(js, s.pos, phase, depth)
    ensures LValid(ls) && Agree(Run(js, s, cap), LRun(js, ls, cap))
    decreases |js| - s.pos
  {
    hide Lockstep, Orderly, Step, LStep, LastOpen, SupsMeet, LinksBelow;
    LockstepValid(s, ls, phase, depth);
    LockstepMeets(s, ls, phase, depth);
    if !AtEnd(js, s.pos) {
      var phase', depth' := LockStep(js, s, ls, phase, depth, cap);
      if Step(js, s, cap).Go? {
        LockRun(js, Step(js, s, cap).state, LStep(js, ls, cap).state, phase', depth', cap);
      }
    }
  }

  // On every orderly text and with every array the two builds agree.
  lemma {:induction false} OrderlyAgree(js: string, cap: nat)
    requires Orderly(js, 0, Ready, 0)
    ensures Agree(Run(js, FRESH, cap), LRun(js, LFRESH, cap))
  {
    hide Agree, Run, LRun, Orderly;
    LockstepFresh();
    LockRun(js, FRESH, LFRESH, Ready, 0, cap);
  }

  // ---------- RFC 8259 texts are orderly ----------

  // What may follow a value may follow one that could have been a key.
  lemma {:induction false} PlainToo(js: string, p: nat, depth: nat)
    requires Orderly(js, p, Done, depth)
    ensures Orderly(js, p, Plain, depth)
    decreases |js| - p
  {
    hide Lex;
    if !AtEnd(js, p) && Lex(js, p).Lexed? && Lex(js, p).lexeme.Blank? { PlainToo(js, Lex(js, p).next, depth); }
  }

  lemma {:induction false} OrderlyBlanks(js: string, p: nat, ws: string, phase: Phase, depth: nat)
    requires Has(js, p, ws) && Ws(ws) && Orderly(js, p + |ws|, phase, depth)
    ensures Orderly(js, p, phase, depth)
    decreases |ws|
  {
    hide Has, Ws;
    if ws != "" {
      BlankPieces(js, p, ws);
      OrderlyBlanks(js, p + 1, ws[1..], phase, depth);
    }
  }

  lemma {:induction false} OrderlyLeaf(js: string, p: nat, end: nat, phase: Phase, depth: nat)
    requires !AtEnd(js, p) && Lex(js, p).Lexed? && Lex(js, p).lexeme.Leaf? && Lex(js, p).next == end
    requires MayStart(phase) && Orderly(js, end, Done, depth)
    ensures Orderly(js, p, phase, depth)
  {
    hide Lex;
    PlainToo(js, end, depth);
  }

  lemma {:induction false} OrderlyScalar(js: string, p: nat, v: Value, phase: Phase, depth: nat)
    requires (v.Literal? || v.Number?) && Legal(v) && Has(js, p, Text(v)) && Stops(js, p + |Text(v)|)
    requires MayStart(phase) && Orderly(js, p + |Text(v)|, Done, depth)
    ensures Orderly(js, p, phase, depth)
  {
    hide Orderly;
    var t := Text(v);
    ScalarIsPlain(v);
    CharAt(js, p, t);
    assert IsPlain(t[0]);
    PlainRun(js, p, t);
    OrderlyLeaf(js, p, p + |t|, phase, depth);
  }

  lemma {:induction false} LexString(js: string, p: nat, body: string)
    requires StringBody(body) && Has(js, p, Quoted(body))
    ensures !AtEnd(js, p) && Lex(js, p) == Lexed(Leaf(String, p + 1, p + 1 + |body|), p + |body| + 2)
  {
    QuotedBody(js, p, body);
    CharAt(js, p, "\"");
    BodyRun(js, p + 1, body);
  }

  lemma {:induction false} LexMark(js: string, p: nat, mark: string)
    requires Has(js, p, mark) && mark in {"[", "]", "{", "}", ",", ":"}
    ensures !AtEnd(js, p) && Lex(js, p).Lexed? && Lex(js, p).next == p + 1
    ensures var l := Lex(js, p).lexeme;
            if mark == "[" || mark == "{" then l.Open? else if mark == "]" || mark == "}" then l.Close?
            else if mark == "," then l.Comma? else l.Colon?
  {
    CharAt(js, p, mark);
  }

  // A bracket on each side, and what is between in order from the first on.
  lemma {:induction false} OrderlyBrackets(js: string, p: nat, pad: string, open: string, phase: Phase, depth: nat)
    requires (open == "[" || open == "{") && Has(js, p, open) && Has(js, p + 1, pad) && Ws(pad) && MayStart(phase)
    requires Orderly(js, p + 1 + |pad|, Ready, depth + 1)
    ensures Orderly(js, p, phase, depth)
  {
    OrderlyBlanks(js, p + 1, pad, Ready, depth + 1);
    LexMark(js, p, open);
    hide Has, Ws, Lex;
  }

  lemma {:induction false} OrderlyClose(js: string, p: nat, close: string, phase: Phase, depth: nat)
    requires (close == "]" || close == "}") && Has(js, p, close) && Orderly(js, p + 1, Done, depth)
    ensures Orderly(js, p, phase, depth + 1)
  {
    LexMark(js, p, close);
    hide Has, Lex;
  }

  lemma {:induction false} OrderlyComma(js: string, p: nat, phase: Phase, depth: nat)
    requires Has(js, p, ",") && Orderly(js, p + 1, Ready, depth)
    ensures Orderly(js, p, phase, depth)
  {
    LexMark(js, p, ",");
    hide Has, Lex;
  }

  // A key, its colon and the whitespace up to the value.
  lemma {:induction false} OrderlyKey(js: string, p: nat, key: string, gap: string, gap': string, depth: nat)
    requires StringBody(key) && Ws(gap) && Ws(gap') && Has(js, p, Quoted(key)) && Has(js, p + |key| + 2, gap)
    requires var c := p + |key| + 2 + |gap|;
             Has(js, c, ":") && Has(js, c + 1, gap') && Orderly(js, c + 1 + |gap'|, Keyed, depth + 1)
    ensures Orderly(js, p, Ready, depth + 1)
  {
    hide Has, Ws, Lex, StringBody, Quoted;
    var c := p + |key| + 2 + |gap|;
    OrderlyBlanks(js, c + 1, gap', Keyed, depth + 1);
    LexMark(js, c, ":");
    assert Orderly(js, c, Plain, depth + 1);
    OrderlyBlanks(js, p + |key| + 2, gap, Plain, depth + 1);
    LexString(js, p, key);
  }

  lemma {:induction false} OrderlyItems(js: string, p: nat, l: Items, depth: nat)
    requires LegalItems(l) && Has(js, p, ItemsText(l)) && Has(js, p + |ItemsText(l)|, "]")
    requires Orderly(js, p + |ItemsText(l)| + 1, Done, depth)
    ensures Orderly(js, p, Ready, depth + 1)
    decreases l, 1
  {
    hide Has, Text, ItemsText, Orderly, Legal, LegalItems, Ws, Stops;
    if l.NoItems? {
      NoItemsUnfold(l, p);
      OrderlyClose(js, p, "]", Ready, depth);
    } else {
      var q := p + |l.lead|;
      var e := q + |Text(l.value)|;
      var f := e + |l.trail|;
      ItemUnfolds(l, p);
      ItemPieces(js, p, l);
      StopsAtTrail(js, e, l.trail);
      if l.rest.Item? {
        OrderlyItems(js, f + 1, l.rest, depth);
        OrderlyComma(js, f, Done, depth + 1);
      } else {
        OrderlyClose(js, f, "]", Done, depth);
      }
      OrderlyBlanks(js, e, l.trail, Done, depth + 1);
      OrderlyValue(js, q, l.value, Ready, depth + 1);
      OrderlyBlanks(js, p, l.lead, Ready, depth + 1);
    }
  }

  lemma {:induction false} OrderlyMembers(js: string, p: nat, m: Members, depth: nat)
    requires LegalMembers(m) && Has(js, p, MembersText(m)) && Has(js, p + |MembersText(m)|, "}")
    requires Orderly(js, p + |MembersText(m)| + 1, Done, depth)
    ensures Orderly(js, p, Ready, depth + 1)
    decreases m, 1
  {
    hide Has, Text, MembersText, Orderly, Legal, LegalMembers, Ws, Stops, StringBody;
    if m.NoMembers? {
      NoMembersUnfold(js, m, p + |MembersText(m)|, p);
      OrderlyClose(js, p, "}", Ready, depth);
    } else {
      var q := ValueStart(m, p);
      var e := q + |Text(m.value)|;
      var f := e + |m.trail|;
      MemberUnfolds(m, p);
      MemberPieces(js, p, m);
      StopsAtTrail(js, e, m.trail);
      if m.rest.Member? {
        OrderlyMembers(js, f + 1, m.rest, depth);
        OrderlyComma(js, f, Done, depth + 1);
      } else {
        OrderlyClose(js, f, "}", Done, depth);
      }
      OrderlyBlanks(js, e, m.trail, Done, depth + 1);
      OrderlyValue(js, q, m.value, Keyed, depth + 1);
      OrderlyKey(js, p + |m.lead|, m.key, m.gap, m.gap', depth);
      OrderlyBlanks(js, p, m.lead, Ready, depth + 1);
    }
  }

  lemma {:induction false} OrderlyValue(js: string, p: nat, v: Value, phase: Phase, depth: nat)
    requires Legal(v) && Has(js, p, Text(v)) && Stops(js, p + |Text(v)|) && MayStart(phase)
    requires Orderly(js, p + |Text(v)|, Done, depth)
    ensures Orderly(js, p, phase, depth)
    decreases v, 1
  {
    hide Has, ItemsText, MembersText, Orderly, LegalItems, LegalMembers, Ws, Stops, StringBody, ScalarText;
    match v
    case Literal(_) | Number(_, _, _, _) =>
      hide Text, Legal;
      OrderlyScalar(js, p, v, phase, depth);
    case Str(body) =>
      LexString(js, p, body);
      OrderlyLeaf(js, p, p + |body| + 2, phase, depth);
    case Arr(pad, items) =>
      ArrPieces(js, p, v);
      OrderlyItems(js, p + 1 + |pad|, items, depth);
      OrderlyBrackets(js, p, pad, "[", phase, depth);
    case Obj(pad, members) =>
      ObjPieces(js, p, v);
      OrderlyMembers(js, p + 1 + |pad|, members, depth);
      OrderlyBrackets(js, p, pad, "{", phase, depth);
  }

  lemma {:induction false} OrderlyDocument(js: string, d: Document)
    requires LegalDocument(d) && Has(js, 0, DocumentText(d)) && AtEnd(js, |DocumentText(d)|)
    ensures Orderly(js, 0, Ready, 0)
  {
    assert Orderly(js, |DocumentText(d)|, Done, 0);
    hide Has, DocumentText, LegalDocument, Text, Legal, Ws, Orderly, Stops;
    var p := |d.before|;
    DocumentPieces(js, d);
    OrderlyBlanks(js, p + |Text(d.value)|, d.after, Done, 0);
    OrderlyValue(js, p, d.value, Ready, 0);
    OrderlyBlanks(js, 0, d.before, Ready, 0);
  }

  // On every RFC 8259 text and with every array, large enough or not, the two builds
  // return the same code and leave the same position and the same type, start, end and
  // size in every token.
  lemma {:induction false} BuildsAgree(js: string, d: Document, cap: nat)
    requires LegalDocument(d) && Has(js, 0, DocumentText(d)) && AtEnd(js, |DocumentText(d)|)
    ensures Agree(Run(js, FRESH, cap), LRun(js, LFRESH, cap))
  {
    hide Agree, Has, DocumentText, LegalDocument, Orderly;
    OrderlyDocument(js, d);
    OrderlyAgree(js, cap);
  }

  // ---------- in between, toksuper differs ----------

  const OBJECT := Token(Object, 0, -1, 1)
  const KEY := Token(String, 2, 3, 1)
  const INNER := Token(Object, 5, -1, 0)

  // An object cut off behind a member that is itself an object: one toksuper is on the
  // container, the other on the key.
  lemma {:induction false} SupsDiffer()
    ensures var (code, s) := Run("{\"a\":{}", FRESH, 3); var (lcode, ls) := LRun("{\"a\":{}", LFRESH, 3);
            code == lcode == PART && s.sup == 0 && ls.sup == 1
  {
    hide *;
    ScanningSup("{\"a\":{}");
    LinkedSup("{\"a\":{}");
  }

  lemma {:induction false} Lexemes(js: string)
    requires js == "{\"a\":{}"
    ensures !AtEnd(js, 0) && Lex(js, 0) == Lexed(Open(Object), 1)
    ensures !AtEnd(js, 1) && Lex(js, 1) == Lexed(Leaf(String, 2, 3), 4)
    ensures !AtEnd(js, 4) && Lex(js, 4) == Lexed(Colon, 5)
    ensures !AtEnd(js, 5) && Lex(js, 5) == Lexed(Open(Object), 6)
    ensures !AtEnd(js, 6) && Lex(js, 6) == Lexed(Close(Object), 7)
    ensures AtEnd(js, 7)
  {
    assert StringEnd(js, 3) == Found(3);
    assert StringEnd(js, 2) == Found(3);
  }

  lemma {:induction false} ScanningSup(js: string)
    requires js == "{\"a\":{}"
    ensures Run(js, FRESH, 3).0 == PART && Run(js, FRESH, 3).1.sup == 0
  {
    hide Lex, AtEnd, Run;
    Lexemes(js);
    var s1 := State(1, [OBJECT.(size := 0)], 0);
    var s2 := State(4, [OBJECT, KEY.(size := 0)], 0);
    var s3 := s2.(pos := 5, sup := 1);
    var s4 := State(6, [OBJECT, KEY, INNER], 2);
    var s5 := State(7, [OBJECT, KEY, INNER.(end := 7)], 0);
    assert Step(js, FRESH, 3) == Go(s1);
    assert Step(js, s1, 3) == Go(s2) by { assert Grow(s1.toks, 0, 1) + [KEY.(size := 0)] == s2.toks; }
    assert Step(js, s2, 3) == Go(s3);
    assert Step(js, s3, 3) == Go(s4) by { assert Grow(s3.toks, 1, 1) + [INNER] == s4.toks; }
    assert LastOpen(s4.toks, 3) == 2;
    assert s4.toks[2 := INNER.(end := 7)] == s5.toks;
    assert LastOpen(s5.toks, 2) == 0 by { assert LastOpen(s5.toks, 1) == 0; }
    assert LastOpen(s5.toks, 3) == 0;
    assert Step(js, s4, 3) == Go(s5);
    hide Step, LastOpen;
    RunStep(js, FRESH, 3);
    RunStep(js, s1, 3);
    RunStep(js, s2, 3);
    RunStep(js, s3, 3);
    RunStep(js, s4, 3);
    RunParts(js, s5, 3);
  }

  lemma {:induction false} RunParts(js: string, s: State, cap: nat)
    requires SupInRange(s) && AtEnd(js, s.pos) && LastOpen(s.toks, |s.toks|) != -1
    ensures Run(js, s, cap) == (PART, s)
  {
  }

  lemma {:induction false} LinkedSup(js: string)
    requires js == "{\"a\":{}"
    ensures LRun(js, LFRESH, 3).0 == PART && LRun(js, LFRESH, 3).1.sup == 1
  {
    hide Lex, AtEnd, LRun;
    Lexemes(js);
    var s1 := LState(1, [Linked(OBJECT.(size := 0), -1)], 0);
    var s2 := LState(4, [Linked(OBJECT, -1), Linked(KEY.(size := 0), 0)], 0);
    var s3 := s2.(pos := 5, sup := 1);
    var s4 := LState(6, [Linked(OBJECT, -1), Linked(KEY, 0), Linked(INNER, 1)], 2);
    var s5 := LState(7, [Linked(OBJECT, -1), Linked(KEY, 0), Linked(INNER.(end := 7), 1)], 1);
    assert LStep(js, LFRESH, 3) == LGo(s1);
    assert LStep(js, s1, 3) == LGo(s2) by {
      assert LGrow(s1.toks, 0, 1) + [Linked(KEY.(size := 0), 0)] == s2.toks;
    }
    assert LStep(js, s2, 3) == LGo(s3);
    assert LStep(js, s3, 3) == LGo(s4) by { assert LGrow(s3.toks, 1, 1) + [Linked(INNER, 1)] == s4.toks; }
    assert s4.toks[2 := Linked(INNER.(end := 7), 1)] == s5.toks;
    assert LStep(js, s4, 3) == LGo(s5);
    assert LastOpen(Toks(s5.toks), 3) == 0 by {
      assert Toks(s5.toks) == [OBJECT, KEY, INNER.(end := 7)];
      assert LastOpen(Toks(s5.toks), 1) == 0;
    }
    hide LStep, LastOpen;
    LRunStep(js, LFRESH, 3);
    LRunStep(js, s1, 3);
    LRunStep(js, s2, 3);
    LRunStep(js, s3, 3);
    LRunStep(js, s4, 3);
    LRunParts(js, s5, 3);
  }

  lemma {:induction false} LRunParts(js: string, s: LState, cap: nat)
    requires LValid(s) && AtEnd(js, s.pos) && LastOpen(Toks(s.toks), |s.toks|) != -1
    ensures LRun(js, s, cap) == (PART, s)
  {
  }
}
