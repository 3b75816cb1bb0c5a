// Tokenizing a printed RFC 8259 text gives its preorder layout, from which the value
// can be read back.  The proof follows the text: each piece takes Run from one state
// to the next.

module JsmnRoundTrip {
  import opened Wrappers
  import opened Json
  import opened JsonLayout
  import opened JsmnLexer
  import opened JsmnModel
  import opened JsmnModes

  lemma {:induction false} RunStep(js: string, s: State, cap: nat)
    requires SupInRange(s) && !AtEnd(js, s.pos) && Step(js, s, cap).Go?
    ensures Run(js, s, cap) == Run(js, Step(js, s, cap).state, cap)
  {
    hide Step, LastOpen;
  }

  lemma {:induction false} CharAt(js: string, p: nat, t: string)
    requires Has(js, p, t) && t != ""
    ensures p < |js| && js[p] == t[0]
  {
    assert js[p..p + |t|][0] == js[p];
  }

  lemma {:induction false} BlankPieces(js: string, p: nat, ws: string)
    requires Has(js, p, ws) && Ws(ws) && ws != ""
    ensures p < |js| && IsWs(js[p]) && Has(js, p + 1, ws[1..]) && Ws(ws[1..])
  {
    CharAt(js, p, ws);
    assert ws == ws[..1] + ws[1..];
    HasSplit(js, p, ws[..1], ws[1..]);
  }

  lemma {:induction false} RunBlank(js: string, s: State, cap: nat)
    requires SupInRange(s) && s.pos < |js| && IsWs(js[s.pos])
    ensures Run(js, s, cap) == Run(js, s.(pos := s.pos + 1), cap)
  {
    RunStep(js, s, cap);
  }

  lemma {:induction false} RunBlanks(js: string, s: State, ws: string, cap: nat)
    requires SupInRange(s) && Has(js, s.pos, ws) && Ws(ws)
    ensures Run(js, s, cap) == Run(js, s.(pos := s.pos + |ws|), cap)
    decreases |ws|
  {
    hide Run, Has, Ws;
    if ws != "" {
      BlankPieces(js, s.pos, ws);
      RunBlank(js, s, cap);
      RunBlanks(js, s.(pos := s.pos + 1), ws[1..], cap);
    }
  }

  // ---------- scans over an appended layout ----------

  lemma {:induction false} LastOpenSame(a: seq<Token>, b: seq<Token>, n: nat)
    requires n <= |a| && n <= |b| && forall i :: 0 <= i < n ==> IsOpen(a[i]) == IsOpen(b[i])
    ensures LastOpen(a, n) == LastOpen(b, n)
  {
    if n > 0 { LastOpenSame(a, b, n - 1); }
  }

  lemma {:induction false} LastOpenBelow(toks: seq<Token>, k: nat, n: nat)
    requires k <= n <= |toks| && forall i :: k <= i < n ==> !IsOpen(toks[i])
    ensures LastOpen(toks, n) == LastOpen(toks, k)
  {
    if k < n { LastOpenBelow(toks, k, n - 1); }
  }

  // Growing a size and appending closed tokens leave the innermost open token alone.
  lemma {:induction false} LastOpenAppend(toks: seq<Token>, i: int, n: int, more: seq<Token>)
    requires -1 <= i < |toks| && forall j :: 0 <= j < |more| ==> !IsOpen(more[j])
    ensures LastOpen(Grow(toks, i, n) + more, |toks| + |more|) == LastOpen(toks, |toks|)
  {
    LastOpenBelow(Grow(toks, i, n) + more, |toks|, |toks| + |more|);
    LastOpenSame(Grow(toks, i, n) + more, toks, |toks|);
  }

  // ---------- one value ----------

  predicate IsScalar(v: Value) {
    v.Literal? || v.Number? || v.Str?
  }

  // The state after a value has been read from s.
  function AfterValue(s: State, v: Value): (r: State)
    requires SupInRange(s)
    ensures SupInRange(r)
  {
    State(s.pos + |Text(v)|,
          Grow(s.toks, s.sup, 1) + Layout(v, s.pos),
          if IsScalar(v) then s.sup else LastOpen(s.toks, |s.toks|))
  }

  lemma {:induction false} RunLeaf(js: string, s: State, kind: Kind, start: nat, end: nat, next: nat, cap: nat)
    requires SupInRange(s) && |s.toks| < cap
    requires !AtEnd(js, s.pos) && Lex(js, s.pos) == Lexed(Leaf(kind, start, end), next)
    ensures Run(js, s, cap)
            == Run(js, State(next, Grow(s.toks, s.sup, 1) + [Token(kind, start, end, 0)], s.sup), cap)
  {
    hide Lex;
    RunStep(js, s, cap);
  }

  lemma {:induction false} RunScalar(js: string, s: State, v: Value, cap: nat)
    requires SupInRange(s) && (v.Literal? || v.Number?) && Legal(v) && Has(js, s.pos, Text(v))
    requires Stops(js, s.pos + |Text(v)|) && |s.toks| < cap
    ensures Run(js, s, cap) == Run(js, AfterValue(s, v), cap)
  {
    hide Run, LastOpen;
    var t := Text(v);
    ScalarIsPlain(v);
    CharAt(js, s.pos, t);
    assert IsPlain(t[0]);
    PlainRun(js, s.pos, t);
    RunLeaf(js, s, Primitive, s.pos, s.pos + |t|, s.pos + |t|, cap);
  }

  lemma {:induction false} RunString(js: string, s: State, body: string, cap: nat)
    requires SupInRange(s) && StringBody(body) && Has(js, s.pos, Quoted(body)) && |s.toks| < cap
    ensures Run(js, s, cap)
            == Run(js, State(s.pos + |body| + 2,
                             Grow(s.toks, s.sup, 1) + [Token(String, s.pos + 1, s.pos + 1 + |body|, 0)],
                             s.sup), cap)
  {
    hide Run, LastOpen;
    QuotedBody(js, s.pos, body);
    CharAt(js, s.pos, "\"");
    BodyRun(js, s.pos + 1, body);
    RunLeaf(js, s, String, s.pos + 1, s.pos + 1 + |body|, s.pos + |body| + 2, cap);
  }

  // ---------- opening, closing and separating ----------

  lemma {:induction false} RunOpen(js: string, s: State, v: Value, cap: nat) returns (s': State)
    requires SupInRange(s) && (v.Arr? || v.Obj?) && Has(js, s.pos, if v.Arr? then "[" else "{") && |s.toks| < cap
    ensures s' == State(s.pos + 1, Grow(s.toks, s.sup, 1)
                          + [Token(if v.Arr? then Array else Object, s.pos, -1, 0)], |s.toks|)
    ensures Run(js, s, cap) == Run(js, s', cap)
    ensures LastOpen(s'.toks, |s'.toks|) == s'.sup
  {
    CharAt(js, s.pos, if v.Arr? then "[" else "{");
    s' := Step(js, s, cap).state;
    RunStep(js, s, cap);
  }

  lemma {:induction false} RunClose(js: string, s: State, kind: Kind, cap: nat)
    requires SupInRange(s) && (kind == Array || kind == Object)
    requires Has(js, s.pos, if kind == Array then "]" else "}")
    requires var o := LastOpen(s.toks, |s.toks|); o >= 0 && s.toks[o].kind == kind
    ensures var o := LastOpen(s.toks, |s.toks|);
            Run(js, s, cap)
            == Run(js, State(s.pos + 1, s.toks[o := s.toks[o].(end := s.pos + 1)], LastOpen(s.toks, o)), cap)
  {
    CharAt(js, s.pos, if kind == Array then "]" else "}");
    var o := LastOpen(s.toks, |s.toks|);
    LastOpenSame(s.toks[o := s.toks[o].(end := s.pos + 1)], s.toks, o);
    RunStep(js, s, cap);
  }

  // A comma moves toksuper from a key, or leaves it on the container.
  lemma {:induction false} RunComma(js: string, s: State, o: nat, cap: nat)
    requires SupInRange(s) && Has(js, s.pos, ",")
    requires LastOpen(s.toks, |s.toks|) == o && IsContainer(s.toks[o])
    requires s.sup == o || (s.sup != -1 && s.toks[s.sup].kind == String)
    ensures Run(js, s, cap) == Run(js, s.(pos := s.pos + 1, sup := o), cap)
  {
    CharAt(js, s.pos, ",");
    RunStep(js, s, cap);
  }

  lemma {:induction false} RunColon(js: string, s: State, cap: nat)
    requires SupInRange(s) && Has(js, s.pos, ":")
    ensures Run(js, s, cap) == Run(js, s.(pos := s.pos + 1, sup := |s.toks| - 1), cap)
  {
    CharAt(js, s.pos, ":");
    RunStep(js, s, cap);
  }

  // ---------- unfolding one level of a text ----------

  lemma {:induction false} ArrUnfolds(v: Value, p: nat)
    requires v.Arr? && Legal(v)
    ensures Ws(v.pad) && LegalItems(v.items)
    ensures Layout(v, p)
            == [Token(Array, p, p + |Text(v)|, ItemCount(v.items))] + ItemsLayout(v.items, p + 1 + |v.pad|)
  {
    hide ItemsLayout, Text, LegalItems, ItemCount;
  }

  lemma {:induction false} ObjUnfolds(v: Value, p: nat)
    requires v.Obj? && Legal(v)
    ensures Ws(v.pad) && LegalMembers(v.members)
    ensures Layout(v, p)
            == [Token(Object, p, p + |Text(v)|, MemberCount(v.members))] + MembersLayout(v.members, p + 1 + |v.pad|)
  {
    hide MembersLayout, Text, LegalMembers, MemberCount;
  }

  lemma {:induction false} NoItemsUnfold(l: Items, p: nat)
    requires l.NoItems?
    ensures ItemsText(l) == "" && ItemCount(l) == 0 && ItemsLayout(l, p) == []
  {
  }

  lemma {:induction false} NoMembersUnfold(js: string, m: Members, p: nat, q: nat)
    requires m.NoMembers? && Has(js, p, "}")
    ensures MembersText(m) == "" && Has(js, p, MembersText(m)) && LegalMembers(m) && MemberCount(m) == 0
    ensures MembersLayout(m, q) == []
  {
  }

  lemma {:induction false} ItemUnfolds(l: Items, p: nat)
    requires l.Item? && LegalItems(l)
    ensures Ws(l.lead) && Legal(l.value) && Ws(l.trail) && LegalItems(l.rest)
    ensures ItemCount(l) == 1 + ItemCount(l.rest)
    ensures ItemsLayout(l, p)
            == Layout(l.value, p + |l.lead|) + ItemsLayout(l.rest, p + |l.lead| + |Text(l.value)| + |l.trail| + 1)
  {
    hide Layout, Text, Legal;
  }

  // The tokens of a first member on its own.
  function OwnLayout(m: Members, p: nat): seq<Token>
    requires m.Member?
  {
    var k := p + |m.lead| + 1;
    [Token(String, k, k + |m.key|, 1)] + Layout(m.value, ValueStart(m, p))
  }

  lemma {:induction false} MemberUnfolds(m: Members, p: nat)
    requires m.Member? && LegalMembers(m)
    ensures Ws(m.lead) && StringBody(m.key) && Ws(m.gap) && Ws(m.gap')
            && Legal(m.value) && Ws(m.trail) && LegalMembers(m.rest)
    ensures MemberCount(m) == 1 + MemberCount(m.rest)
    ensures MembersLayout(m, p)
            == OwnLayout(m, p) + MembersLayout(m.rest, ValueStart(m, p) + |Text(m.value)| + |m.trail| + 1)
  {
    hide Layout, Text, Legal, StringBody;
  }

  // What follows a value ends a primitive.
  lemma {:induction false} StopsAtTrail(js: string, e: nat, trail: string)
    requires Has(js, e, trail) && Ws(trail)
    requires Has(js, e + |trail|, ",") || Has(js, e + |trail|, "]")
             || Has(js, e + |trail|, "}") || AtEnd(js, e + |trail|)
    ensures Stops(js, e)
  {
    if trail != "" {
      CharAt(js, e, trail);
      assert IsWs(trail[0]);
    } else if Has(js, e, ",") {
      CharAt(js, e, ",");
    } else if Has(js, e, "]") {
      CharAt(js, e, "]");
    } else if Has(js, e, "}") {
      CharAt(js, e, "}");
    }
  }

  // ---------- containers ----------

  // Closing the container's token turns the state into AfterValue.
  lemma {:induction false} ContainerDone(s: State, v: Value, head: Token, inner: seq<Token>)
    requires SupInRange(s) && (v.Arr? || v.Obj?) && Layout(v, s.pos) == [head] + inner
    requires head.start == s.pos && head.end == s.pos + |Text(v)|
    ensures var n := |s.toks|;
            var toks := Grow(Grow(s.toks, s.sup, 1) + [head.(end := -1, size := 0)], n, head.size) + inner;
            State(head.end, toks[n := toks[n].(end := head.end)], LastOpen(toks, n)) == AfterValue(s, v)
  {
    hide Text, Layout, LastOpen;
    var n := |s.toks|;
    var toks := Grow(Grow(s.toks, s.sup, 1) + [head.(end := -1, size := 0)], n, head.size) + inner;
    LastOpenSame(toks, s.toks, n);
    assert toks[n := toks[n].(end := head.end)] == Grow(s.toks, s.sup, 1) + ([head] + inner);
  }

  lemma {:induction false} RunArr(js: string, s: State, v: Value, cap: nat)
    requires SupInRange(s) && v.Arr? && Legal(v) && Has(js, s.pos, Text(v))
    requires |s.toks| + |Layout(v, s.pos)| <= cap
    ensures Run(js, s, cap) == Run(js, AfterValue(s, v), cap)
    decreases v, 0
  {
    hide Has, Text, ItemsText, Layout, ItemsLayout, Run, Legal, LegalItems, Ws, LastOpen, ItemCount, AfterValue, IsOpen;
    var n := |s.toks|;
    var q := s.pos + 1 + |v.pad|;
    var e := q + |ItemsText(v.items)|;
    var head := Token(Array, s.pos, s.pos + |Text(v)|, ItemCount(v.items));
    ArrUnfolds(v, s.pos);
    ArrPieces(js, s.pos, v);
    var s1 := RunOpen(js, s, v, cap);
    RunBlanks(js, s1, v.pad, cap);
    var s2 := s1.(pos := q);
    RunItems(js, s2, v.items, n, cap);
    var s3 := State(e, Grow(s2.toks, n, ItemCount(v.items)) + ItemsLayout(v.items, q), n);
    ItemsLayoutClosed(v.items, q);
    LastOpenAppend(s2.toks, n, ItemCount(v.items), ItemsLayout(v.items, q));
    RunClose(js, s3, Array, cap);
    ContainerDone(s, v, head, ItemsLayout(v.items, q));
  }

  lemma {:induction false} GrowTwice(toks: seq<Token>, a: nat, own: seq<Token>, n: nat, rest: seq<Token>)
    requires a < |toks|
    ensures Grow(Grow(toks, a, 1) + own, a, n) + rest == Grow(toks, a, 1 + n) + (own + rest)
  {
  }

  lemma {:induction false} GrowNothing(toks: seq<Token>, a: nat)
    requires a < |toks|
    ensures Grow(toks, a, 0) + [] == toks
  {
  }

  // One element of an open array and its whitespace.
  lemma {:induction false} RunItem(js: string, s: State, l: Items, a: nat, cap: nat)
    requires SupInRange(s) && l.Item? && LegalItems(l) && Has(js, s.pos, ItemsText(l))
    requires Has(js, s.pos + |ItemsText(l)|, "]")
    requires |s.toks| + |Layout(l.value, s.pos + |l.lead|)| <= cap
    requires s.sup == a && LastOpen(s.toks, |s.toks|) == a
    ensures var q := s.pos + |l.lead|;
            var s' := State(q + |Text(l.value)| + |l.trail|, Grow(s.toks, a, 1) + Layout(l.value, q), a);
            Run(js, s, cap) == Run(js, s', cap) && LastOpen(s'.toks, |s'.toks|) == a
    decreases l, 0
  {
    hide Has, Text, ItemsText, Layout, ItemsLayout, Run, Legal, LegalItems, Ws, LastOpen, Stops, IsOpen;
    var q := s.pos + |l.lead|;
    var e := q + |Text(l.value)|;
    ItemUnfolds(l, s.pos);
    ItemPieces(js, s.pos, l);
    StopsAtTrail(js, e, l.trail);
    RunBlanks(js, s, l.lead, cap);
    RunValue(js, s.(pos := q), l.value, cap);
    RunBlanks(js, State(e, Grow(s.toks, a, 1) + Layout(l.value, q), a), l.trail, cap);
    LayoutClosed(l.value, q);
    LastOpenAppend(s.toks, a, 1, Layout(l.value, q));
  }

  // The elements of the open array whose token is a, up to its closing bracket.
  lemma {:induction false} RunItems(js: string, s: State, l: Items, a: nat, cap: nat)
    requires SupInRange(s) && LegalItems(l) && Has(js, s.pos, ItemsText(l))
    requires Has(js, s.pos + |ItemsText(l)|, "]")
    requires |s.toks| + |ItemsLayout(l, s.pos)| <= cap
    requires s.sup == a && LastOpen(s.toks, |s.toks|) == a && s.toks[a].kind == Array
    ensures Run(js, s, cap)
            == Run(js, State(s.pos + |ItemsText(l)|, Grow(s.toks, a, ItemCount(l)) + ItemsLayout(l, s.pos), a), cap)
    decreases l, 1
  {
    hide Has, Text, ItemsText, Layout, ItemsLayout, ItemCount, Run, Legal, LegalItems, Ws, LastOpen;
    if l.NoItems? {
      NoItemsUnfold(l, s.pos);
      GrowNothing(s.toks, a);
    } else {
      var q := s.pos + |l.lead|;
      var f := q + |Text(l.value)| + |l.trail|;
      var own := Layout(l.value, q);
      ItemUnfolds(l, s.pos);
      ItemPieces(js, s.pos, l);
      RunItem(js, s, l, a, cap);
      var s2 := State(f, Grow(s.toks, a, 1) + own, a);
      GrowTwice(s.toks, a, own, ItemCount(l.rest), ItemsLayout(l.rest, f + 1));
      if l.rest.Item? {
        RunComma(js, s2, a, cap);
        RunItems(js, s2.(pos := f + 1), l.rest, a, cap);
      } else {
        NoItemsUnfold(l.rest, f + 1);
        GrowNothing(s2.toks, a);
      }
    }
  }

  lemma {:induction false} RunObj(js: string, s: State, v: Value, cap: nat)
    requires SupInRange(s) && v.Obj? && Legal(v) && Has(js, s.pos, Text(v))
    requires |s.toks| + |Layout(v, s.pos)| <= cap
    ensures Run(js, s, cap) == Run(js, AfterValue(s, v), cap)
    decreases v, 0
  {
    hide Has, Text, MembersText, Layout, MembersLayout, Run, Legal,
         LegalMembers, Ws, LastOpen, MemberCount, AfterValue, IsOpen;
    var n := |s.toks|;
    var q := s.pos + 1 + |v.pad|;
    var head := Token(Object, s.pos, s.pos + |Text(v)|, MemberCount(v.members));
    ObjUnfolds(v, s.pos);
    ObjPieces(js, s.pos, v);
    var s1 := RunOpen(js, s, v, cap);
    RunBlanks(js, s1, v.pad, cap);
    RunMembers(js, s1.(pos := q), v.members, n, cap);
    ContainerDone(s, v, head, MembersLayout(v.members, q));
  }

  // A key, its colon and the whitespace up to the value.
  lemma {:induction false} RunKey(js: string, s: State, m: Members, cap: nat)
    requires SupInRange(s) && m.Member? && LegalMembers(m) && Has(js, s.pos, MembersText(m)) && |s.toks| < cap
    ensures var k := s.pos + |m.lead| + 1;
            var toks := Grow(s.toks, s.sup, 1) + [Token(String, k, k + |m.key|, 0)];
            Run(js, s, cap) == Run(js, State(ValueStart(m, s.pos), toks, |s.toks|), cap)
  {
    hide Has, Text, MembersText, Run, LegalMembers, Legal, Ws, StringBody, Layout, MembersLayout;
    var k := s.pos + |m.lead|;
    MemberUnfolds(m, s.pos);
    MemberPieces(js, s.pos, m);
    RunBlanks(js, s, m.lead, cap);
    RunString(js, s.(pos := k), m.key, cap);
    var s1 := State(k + |m.key| + 2, Grow(s.toks, s.sup, 1) + [Token(String, k + 1, k + 1 + |m.key|, 0)], s.sup);
    RunBlanks(js, s1, m.gap, cap);
    RunColon(js, s1.(pos := s1.pos + |m.gap|), cap);
    RunBlanks(js, State(s1.pos + |m.gap| + 1, s1.toks, |s.toks|), m.gap', cap);
  }

  // One member of an open object and its whitespace; toksuper may stay on the key.
  lemma {:induction false} RunMember(js: string, s: State, m: Members, o: nat, cap: nat) returns (s': State)
    requires SupInRange(s) && m.Member? && LegalMembers(m) && Has(js, s.pos, MembersText(m))
    requires Has(js, s.pos + |MembersText(m)|, "}")
    requires |s.toks| + |OwnLayout(m, s.pos)| <= cap
    requires s.sup == o && LastOpen(s.toks, |s.toks|) == o
    ensures SupInRange(s') && Run(js, s, cap) == Run(js, s', cap)
    ensures s'.pos == ValueStart(m, s.pos) + |Text(m.value)| + |m.trail|
    ensures s'.toks == Grow(s.toks, o, 1) + OwnLayout(m, s.pos)
    ensures LastOpen(s'.toks, |s'.toks|) == o
    ensures s'.sup == o || (s'.sup != -1 && s'.toks[s'.sup].kind == String)
    decreases m, 0
  {
    hide Has, Text, MembersText, Run, LegalMembers, Legal, Ws, StringBody, Layout, MembersLayout, LastOpen, Stops;
    var k := s.pos + |m.lead| + 1;
    var q := ValueStart(m, s.pos);
    var e := q + |Text(m.value)|;
    var key := Token(String, k, k + |m.key|, 0);
    var own := Layout(m.value, q);
    MemberUnfolds(m, s.pos);
    MemberPieces(js, s.pos, m);
    StopsAtTrail(js, e, m.trail);
    RunKey(js, s, m, cap);
    var s1 := State(q, Grow(s.toks, o, 1) + [key], |s.toks|);
    RunValue(js, s1, m.value, cap);
    var s2 := AfterValue(s1, m.value);
    s' := s2.(pos := e + |m.trail|);
    RunBlanks(js, s2, m.trail, cap);
    LayoutClosed(m.value, q);
    LastOpenAppend(s.toks, o, 1, [key]);
    LastOpenAppend(s.toks, o, 1, OwnLayout(m, s.pos));
    KeyGrown(Grow(s.toks, o, 1), key, own);
  }

  lemma {:induction false} KeyGrown(toks: seq<Token>, key: Token, own: seq<Token>)
    ensures Grow(toks + [key], |toks|, 1) + own == toks + ([key.(size := key.size + 1)] + own)
  {
  }

  // The members of the open object whose token is o, up to and with its closing brace.
  lemma {:induction false} RunMembers(js: string, s: State, m: Members, o: nat, cap: nat)
    requires SupInRange(s) && LegalMembers(m) && Has(js, s.pos, MembersText(m))
    requires Has(js, s.pos + |MembersText(m)|, "}")
    requires |s.toks| + |MembersLayout(m, s.pos)| <= cap
    requires LastOpen(s.toks, |s.toks|) == o && s.toks[o].kind == Object && (m.Member? ==> s.sup == o)
    ensures var end := s.pos + |MembersText(m)| + 1;
            var toks := Grow(s.toks, o, MemberCount(m)) + MembersLayout(m, s.pos);
            Run(js, s, cap) == Run(js, State(end, toks[o := toks[o].(end := end)], LastOpen(toks, o)), cap)
    decreases m, 1
  {
    hide Has, Text, MembersText, MembersLayout, MemberCount, Run,
         LegalMembers, Legal, Ws, StringBody, Layout, LastOpen, OwnLayout;
    if m.NoMembers? {
      NoMembersUnfold(js, m, s.pos + |MembersText(m)|, s.pos);
      GrowNothing(s.toks, o);
      RunClose(js, s, Object, cap);
    } else {
      var f := ValueStart(m, s.pos) + |Text(m.value)| + |m.trail|;
      MemberUnfolds(m, s.pos);
      MemberPieces(js, s.pos, m);
      var s2 := RunMember(js, s, m, o, cap);
      if m.rest.Member? {
        RunComma(js, s2, o, cap);
        s2 := s2.(pos := f + 1, sup := o);
      } else {
        NoMembersUnfold(js, m.rest, f, f);
        NoMembersUnfold(js, m.rest, f, f + 1);
      }
      RunMembers(js, s2, m.rest, o, cap);
      GrowTwice(s.toks, o, OwnLayout(m, s.pos), MemberCount(m.rest), MembersLayout(m.rest, f + 1));
    }
  }

  lemma {:induction false} RunValue(js: string, s: State, v: Value, cap: nat)
    requires SupInRange(s) && Legal(v) && Has(js, s.pos, Text(v)) && Stops(js, s.pos + |Text(v)|)
    requires |s.toks| + |Layout(v, s.pos)| <= cap
    ensures Run(js, s, cap) == Run(js, AfterValue(s, v), cap)
    decreases v, 1
  {
    match v
    case Literal(_) | Number(_, _, _, _) =>
      hide Has, Text, Run, Legal, Layout, Stops, AfterValue;
      RunScalar(js, s, v, cap);
    case Str(body) =>
      hide Has, Run, StringBody, Stops;
      RunString(js, s, body, cap);
    case Arr(_, _) =>
      hide *;
      RunArr(js, s, v, cap);
    case Obj(_, _) =>
      hide *;
      RunObj(js, s, v, cap);
  }

  // ---------- the theorems ----------

  lemma {:induction false} RunEnds(js: string, p: nat, toks: seq<Token>, cap: nat)
    requires AtEnd(js, p) && forall i :: 0 <= i < |toks| ==> !IsOpen(toks[i])
    ensures Run(js, State(p, toks, -1), cap) == (|toks|, State(p, toks, -1))
  {
    LastOpenBelow(toks, 0, |toks|);
  }

  lemma {:induction false} DocumentPieces(js: string, d: Document)
    requires LegalDocument(d) && Has(js, 0, DocumentText(d)) && AtEnd(js, |DocumentText(d)|)
    ensures var e := |d.before| + |Text(d.value)|;
            && Ws(d.before) && Legal(d.value) && Ws(d.after) && e + |d.after| == |DocumentText(d)|
            && Has(js, 0, d.before) && Has(js, |d.before|, Text(d.value)) && Has(js, e, d.after) && Stops(js, e)
  {
    hide Has, Text, Legal, Ws;
    var e := |d.before| + |Text(d.value)|;
    HasSplit(js, 0, d.before, Text(d.value) + d.after);
    HasSplit(js, |d.before|, Text(d.value), d.after);
    StopsAtTrail(js, e, d.after);
  }

  // For every RFC 8259 text, at the start of the buffer and followed by its end or a
  // NUL: with enough tokens the call returns the number of nodes and leaves exactly the
  // preorder layout, and the value can be read back from tokens and text.
  lemma {:induction false} RoundTrip(js: string, d: Document, cap: nat)
    requires LegalDocument(d) && Has(js, 0, DocumentText(d)) && AtEnd(js, |DocumentText(d)|)
    requires |Layout(d.value, |d.before|)| <= cap
    ensures var toks := Layout(d.value, |d.before|);
            && Run(js, FRESH, cap) == (|toks|, State(|DocumentText(d)|, toks, -1))
            && Rebuild(js, toks, 0) == Some((TreeOf(d.value), |toks|))
  {
    hide Has, DocumentText, LegalDocument, Text, Legal, Ws, Layout, Rebuild, TreeOf, Run, AtEnd, Stops;
    var toks := Layout(d.value, |d.before|);
    var e := |d.before| + |Text(d.value)|;
    DocumentPieces(js, d);
    RunBlanks(js, FRESH, d.before, cap);
    RunValue(js, State(|d.before|, [], -1), d.value, cap);
    assert Grow([], -1, 1) + toks == toks;
    RunBlanks(js, State(e, toks, -1), d.after, cap);
    LayoutClosed(d.value, |d.before|);
    RunEnds(js, |DocumentText(d)|, toks, cap);
    assert toks[0..0 + |toks|] == toks;
    RebuildValue(js, toks, 0, d.value, |d.before|);
  }

  // With fewer tokens than nodes the call reports NOMEM, and only then.
  lemma {:induction false} RoundTripNomem(js: string, d: Document, cap: nat)
    requires LegalDocument(d) && Has(js, 0, DocumentText(d)) && AtEnd(js, |DocumentText(d)|)
    ensures Run(js, FRESH, cap).0 == NOMEM <==> cap < |Layout(d.value, |d.before|)|
  {
    hide Has, LegalDocument, Layout, Run;
    var need := |Layout(d.value, |d.before|)|;
    RoundTrip(js, d, need);
    if cap < need {
      if Run(js, FRESH, cap).0 != NOMEM {
        MoreTokensChangeNothing(js, FRESH, cap, need);
        AllocatedFit(js, FRESH, cap);
      }
    } else {
      RoundTrip(js, d, cap);
    }
  }
}
