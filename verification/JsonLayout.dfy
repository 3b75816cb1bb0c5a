// The preorder token layout of an RFC 8259 value, how a value is read back from it,
// and how its pieces lex.

module JsonLayout {
  import opened Wrappers
  import opened Json
  import opened JsmnLexer
  import opened JsmnModel

  // t occurs in js at p.
  predicate Has(js: string, p: nat, t: string) {
    p + |t| <= |js| && js[p..p + |t|] == t
  }

  lemma {:induction false} HasSplit(js: string, p: nat, a: string, b: string)
    requires Has(js, p, a + b)
    ensures Has(js, p, a) && Has(js, p + |a|, b)
  {
    assert js[p..p + |a|] == (a + b)[..|a|];
    assert js[p + |a|..p + |a + b|] == (a + b)[|a|..];
  }

  // ---------- layout ----------

  function Layout(v: Value, p: nat): (r: seq<Token>)
    ensures |r| >= 1
  {
    match v
    case Literal(_) | Number(_, _, _, _) => [Token(Primitive, p, p + |Text(v)|, 0)]
    case Str(body) => [Token(String, p + 1, p + 1 + |body|, 0)]
    case Arr(pad, items) =>
      [Token(Array, p, p + |Text(v)|, ItemCount(items))] + ItemsLayout(items, p + 1 + |pad|)
    case Obj(pad, members) =>
      [Token(Object, p, p + |Text(v)|, MemberCount(members))] + MembersLayout(members, p + 1 + |pad|)
  }

  function ItemsLayout(items: Items, p: nat): seq<Token> {
    match items
    case NoItems => []
    case Item(lead, value, trail, rest) =>
      var q := p + |lead|;
      Layout(value, q) + ItemsLayout(rest, q + |Text(value)| + |trail| + 1)
  }

  function ValueStart(m: Members, p: nat): nat
    requires m.Member?
  {
    p + |m.lead| + |m.key| + 2 + |m.gap| + 1 + |m.gap'|
  }

  function MembersLayout(m: Members, p: nat): seq<Token> {
    if m.NoMembers? then []
    else
      var k := p + |m.lead| + 1;
      var q := ValueStart(m, p);
      [Token(String, k, k + |m.key|, 1)] + Layout(m.value, q)
      + MembersLayout(m.rest, q + |Text(m.value)| + |m.trail| + 1)
  }

  // No token of a layout is left open, and scans below it do not see it.
  lemma {:induction false} LayoutClosed(v: Value, p: nat)
    ensures forall i :: 0 <= i < |Layout(v, p)| ==> !IsOpen(Layout(v, p)[i])
    decreases v
  {
    match v
    case Arr(pad, items) => ItemsLayoutClosed(items, p + 1 + |pad|);
    case Obj(pad, members) => MembersLayoutClosed(members, p + 1 + |pad|);
    case _ =>
  }

  lemma {:induction false} ItemsLayoutClosed(items: Items, p: nat)
    ensures forall i :: 0 <= i < |ItemsLayout(items, p)| ==> !IsOpen(ItemsLayout(items, p)[i])
    decreases items
  {
    match items
    case NoItems =>
    case Item(lead, value, trail, rest) =>
      var q := p + |lead|;
      LayoutClosed(value, q);
      ItemsLayoutClosed(rest, q + |Text(value)| + |trail| + 1);
  }

  lemma {:induction false} MembersLayoutClosed(m: Members, p: nat)
    ensures forall i :: 0 <= i < |MembersLayout(m, p)| ==> !IsOpen(MembersLayout(m, p)[i])
    decreases m
  {
    if m.Member? {
      var q := ValueStart(m, p);
      LayoutClosed(m.value, q);
      MembersLayoutClosed(m.rest, q + |Text(m.value)| + |m.trail| + 1);
    }
  }

  // ---------- reading a value back from tokens and text ----------

  function Slice(js: string, t: Token): string {
    if 0 <= t.start <= t.end <= |js| then js[t.start..t.end] else ""
  }

  // The tree whose first token is toks[i], and the index after its last one.
  function Rebuild(js: string, toks: seq<Token>, i: nat): Option<(Tree, nat)>
    decreases |toks| - i, 0, 0
  {
    if i >= |toks| then None
    else
      match toks[i].kind
      case Primitive => Some((Scalar(Slice(js, toks[i])), i + 1))
      case String => Some((Chars(Slice(js, toks[i])), i + 1))
      case Array =>
        (match RebuildList(js, toks, i + 1, toks[i].size)
         case None => None
         case Some((l, j)) => Some((List(l), j)))
      case Object =>
        (match RebuildTable(js, toks, i + 1, toks[i].size)
         case None => None
         case Some((l, j)) => Some((Table(l), j)))
      case Undefined => None
  }

  function RebuildList(js: string, toks: seq<Token>, i: nat, n: int): Option<(seq<Tree>, nat)>
    decreases |toks| - i, 1, n
  {
    if n <= 0 then Some(([], i))
    else
      match Rebuild(js, toks, i)
      case None => None
      case Some((t, j)) =>
        if j <= i then None
        else
          match RebuildList(js, toks, j, n - 1)
          case None => None
          case Some((l, k)) => Some(([t] + l, k))
  }

  function RebuildTable(js: string, toks: seq<Token>, i: nat, n: int): Option<(seq<(string, Tree)>, nat)>
    decreases |toks| - i, 1, n
  {
    if n <= 0 then Some(([], i))
    else if i >= |toks| || toks[i].kind != String || toks[i].size != 1 then None
    else
      match Rebuild(js, toks, i + 1)
      case None => None
      case Some((t, j)) =>
        if j <= i then None
        else
          match RebuildTable(js, toks, j, n - 1)
          case None => None
          case Some((l, k)) => Some(([(Slice(js, toks[i]), t)] + l, k))
  }

  // toks holds part at i.
  predicate Holds(toks: seq<Token>, i: nat, part: seq<Token>) {
    i + |part| <= |toks| && toks[i..i + |part|] == part
  }

  lemma {:induction false} HoldsSplit(toks: seq<Token>, i: nat, a: seq<Token>, b: seq<Token>)
    requires Holds(toks, i, a + b)
    ensures Holds(toks, i, a) && Holds(toks, i + |a|, b)
  {
    assert toks[i..i + |a|] == (a + b)[..|a|];
    assert toks[i + |a|..i + |a + b|] == (a + b)[|a|..];
  }

  // ---------- where the pieces of a text are ----------

  lemma {:induction false} ArrPieces(js: string, p: nat, v: Value)
    requires v.Arr? && Has(js, p, Text(v))
    ensures var q := p + 1 + |v.pad|;
            && Has(js, p, "[") && Has(js, p + 1, v.pad) && Has(js, q, ItemsText(v.items))
            && Has(js, q + |ItemsText(v.items)|, "]")
            && p + |Text(v)| == q + |ItemsText(v.items)| + 1
  {
    var t2 := ItemsText(v.items) + "]";
    var t1 := v.pad + t2;
    assert Text(v) == "[" + t1;
    hide Has, Text, ItemsText;
    HasSplit(js, p, "[", t1);
    HasSplit(js, p + 1, v.pad, t2);
    HasSplit(js, p + 1 + |v.pad|, ItemsText(v.items), "]");
  }

  lemma {:induction false} ObjPieces(js: string, p: nat, v: Value)
    requires v.Obj? && Has(js, p, Text(v))
    ensures var q := p + 1 + |v.pad|;
            && Has(js, p, "{") && Has(js, p + 1, v.pad) && Has(js, q, MembersText(v.members))
            && Has(js, q + |MembersText(v.members)|, "}")
            && p + |Text(v)| == q + |MembersText(v.members)| + 1
  {
    var t2 := MembersText(v.members) + "}";
    var t1 := v.pad + t2;
    assert Text(v) == "{" + t1;
    hide Has, Text, MembersText;
    HasSplit(js, p, "{", t1);
    HasSplit(js, p + 1, v.pad, t2);
    HasSplit(js, p + 1 + |v.pad|, MembersText(v.members), "}");
  }

  // The pieces of the first element, and the rest after the comma.
  lemma {:induction false} ItemPieces(js: string, p: nat, l: Items)
    requires l.Item? && Has(js, p, ItemsText(l))
    ensures var q := p + |l.lead|;
            var e := q + |Text(l.value)| + |l.trail|;
            && Has(js, p, l.lead) && Has(js, q, Text(l.value)) && Has(js, e - |l.trail|, l.trail)
            && (l.rest.Item? ==> Has(js, e, ",") && Has(js, e + 1, ItemsText(l.rest)))
            && p + |ItemsText(l)| == if l.rest.Item? then e + 1 + |ItemsText(l.rest)| else e
  {
    hide Has, Text;
    var t2 := l.trail + ItemsTail(l.rest);
    var t1 := Text(l.value) + t2;
    assert ItemsText(l) == l.lead + t1;
    hide ItemsText;
    HasSplit(js, p, l.lead, t1);
    var q := p + |l.lead|;
    HasSplit(js, q, Text(l.value), t2);
    HasSplit(js, q + |Text(l.value)|, l.trail, ItemsTail(l.rest));
    if l.rest.Item? { HasSplit(js, q + |Text(l.value)| + |l.trail|, ",", ItemsText(l.rest)); }
  }

  lemma {:induction false} MemberKeyPieces(js: string, p: nat, m: Members)
    requires m.Member? && Has(js, p, MembersText(m))
    ensures var k := p + |m.lead|;
            var c := k + |m.key| + 2 + |m.gap|;
            && Has(js, p, m.lead) && Has(js, k, Quoted(m.key)) && Has(js, c - |m.gap|, m.gap)
            && Has(js, c, FromColon(m))
            && p + |MembersText(m)| == c + |FromColon(m)|
  {
    hide Has, FromColon;
    var t2 := m.gap + FromColon(m);
    var t1 := Quoted(m.key) + t2;
    assert MembersText(m) == m.lead + t1;
    hide MembersText;
    HasSplit(js, p, m.lead, t1);
    var k := p + |m.lead|;
    HasSplit(js, k, Quoted(m.key), t2);
    HasSplit(js, k + |m.key| + 2, m.gap, FromColon(m));
  }

  lemma {:induction false} MemberValuePieces(js: string, c: nat, m: Members)
    requires m.Member? && Has(js, c, FromColon(m))
    ensures var q := c + 1 + |m.gap'|;
            var e := q + |Text(m.value)| + |m.trail|;
            && Has(js, c, ":") && Has(js, c + 1, m.gap') && Has(js, q, Text(m.value)) && Has(js, e - |m.trail|, m.trail)
            && (m.rest.Member? ==> Has(js, e, ",") && Has(js, e + 1, MembersText(m.rest)))
            && c + |FromColon(m)| == if m.rest.Member? then e + 1 + |MembersText(m.rest)| else e
  {
    hide Has, Text, MembersText;
    var t3 := m.trail + MembersTail(m.rest);
    var t2 := Text(m.value) + t3;
    var t1 := m.gap' + t2;
    assert FromColon(m) == ":" + t1;
    hide FromColon;
    HasSplit(js, c, ":", t1);
    HasSplit(js, c + 1, m.gap', t2);
    var q := c + 1 + |m.gap'|;
    HasSplit(js, q, Text(m.value), t3);
    HasSplit(js, q + |Text(m.value)|, m.trail, MembersTail(m.rest));
    if m.rest.Member? { HasSplit(js, q + |Text(m.value)| + |m.trail|, ",", MembersText(m.rest)); }
  }

  lemma {:induction false} MemberPieces(js: string, p: nat, m: Members)
    requires m.Member? && Has(js, p, MembersText(m))
    ensures var k := p + |m.lead|;
            var q := ValueStart(m, p);
            var e := q + |Text(m.value)| + |m.trail|;
            && Has(js, p, m.lead) && Has(js, k, Quoted(m.key))
            && Has(js, k + |m.key| + 2, m.gap) && Has(js, q - |m.gap'| - 1, ":") && Has(js, q - |m.gap'|, m.gap')
            && Has(js, q, Text(m.value)) && Has(js, e - |m.trail|, m.trail)
            && (m.rest.Member? ==> Has(js, e, ",") && Has(js, e + 1, MembersText(m.rest)))
            && p + |MembersText(m)| == if m.rest.Member? then e + 1 + |MembersText(m.rest)| else e
  {
    hide Has, MembersText, FromColon, Text;
    MemberKeyPieces(js, p, m);
    MemberValuePieces(js, p + |m.lead| + |m.key| + 2 + |m.gap|, m);
  }

  lemma {:induction false} QuotedBody(js: string, p: nat, body: string)
    requires Has(js, p, Quoted(body))
    ensures Has(js, p, "\"") && Has(js, p + 1, body) && Has(js, p + 1, body + "\"") && Has(js, p + 1 + |body|, "\"")
  {
    HasSplit(js, p, "\"", body + "\"");
    HasSplit(js, p + 1, body, "\"");
  }

  // ---------- rebuilding inverts the layout ----------

  lemma {:induction false} HeadHolds(toks: seq<Token>, i: nat, head: Token, rest: seq<Token>)
    requires Holds(toks, i, [head] + rest)
    ensures i < |toks| && toks[i] == head && Holds(toks, i + 1, rest)
  {
    HoldsSplit(toks, i, [head], rest);
    assert toks[i..i + 1][0] == toks[i];
  }

  lemma {:induction false} RebuildArr(js: string, toks: seq<Token>, i: nat, v: Value, p: nat)
    requires v.Arr? && Has(js, p, Text(v)) && Holds(toks, i, Layout(v, p))
    ensures Rebuild(js, toks, i) == Some((TreeOf(v), i + |Layout(v, p)|))
    decreases v, 0
  {
    hide Has, Text, Slice, RebuildTable, RebuildList, Holds, ItemsLayout, TreesOf, ItemCount;
    ArrPieces(js, p, v);
    var q := p + 1 + |v.pad|;
    HeadHolds(toks, i, Token(Array, p, p + |Text(v)|, ItemCount(v.items)), ItemsLayout(v.items, q));
    RebuildItems(js, toks, i + 1, v.items, q);
  }

  lemma {:induction false} RebuildObj(js: string, toks: seq<Token>, i: nat, v: Value, p: nat)
    requires v.Obj? && Has(js, p, Text(v)) && Holds(toks, i, Layout(v, p))
    ensures Rebuild(js, toks, i) == Some((TreeOf(v), i + |Layout(v, p)|))
    decreases v, 0
  {
    hide Has, Text, Slice, RebuildTable, RebuildList, Holds, MembersLayout, PairsOf, MemberCount;
    ObjPieces(js, p, v);
    var q := p + 1 + |v.pad|;
    HeadHolds(toks, i, Token(Object, p, p + |Text(v)|, MemberCount(v.members)), MembersLayout(v.members, q));
    RebuildMembers(js, toks, i + 1, v.members, q);
  }

  lemma {:induction false} RebuildValue(js: string, toks: seq<Token>, i: nat, v: Value, p: nat)
    requires Has(js, p, Text(v)) && Holds(toks, i, Layout(v, p))
    ensures Rebuild(js, toks, i) == Some((TreeOf(v), i + |Layout(v, p)|))
    decreases v, 1
  {
    match v
    case Literal(_) | Number(_, _, _, _) =>
      HeadHolds(toks, i, Layout(v, p)[0], []);
    case Str(body) =>
      HeadHolds(toks, i, Layout(v, p)[0], []);
      QuotedBody(js, p, body);
    case Arr(_, _) =>
      hide *;
      RebuildArr(js, toks, i, v, p);
    case Obj(_, _) =>
      hide *;
      RebuildObj(js, toks, i, v, p);
  }

  lemma {:induction false} ItemHolds(toks: seq<Token>, i: nat, l: Items, p: nat)
    requires l.Item? && Holds(toks, i, ItemsLayout(l, p))
    ensures var q := p + |l.lead|;
            var own := Layout(l.value, q);
            var rest := ItemsLayout(l.rest, q + |Text(l.value)| + |l.trail| + 1);
            Holds(toks, i, own) && Holds(toks, i + |own|, rest) && |ItemsLayout(l, p)| == |own| + |rest|
  {
    hide Layout, Text, Holds;
    var q := p + |l.lead|;
    HoldsSplit(toks, i, Layout(l.value, q), ItemsLayout(l.rest, q + |Text(l.value)| + |l.trail| + 1));
  }

  lemma {:induction false} RebuildItems(js: string, toks: seq<Token>, i: nat, l: Items, p: nat)
    requires Has(js, p, ItemsText(l)) && Holds(toks, i, ItemsLayout(l, p))
    ensures RebuildList(js, toks, i, ItemCount(l)) == Some((TreesOf(l), i + |ItemsLayout(l, p)|))
    decreases l
  {
    hide Has, Text, ItemsText, Holds, Layout, Rebuild, TreeOf;
    if l.Item? {
      var q := p + |l.lead|;
      ItemPieces(js, p, l);
      ItemHolds(toks, i, l, p);
      hide ItemsLayout;
      RebuildValue(js, toks, i, l.value, q);
      if l.rest.Item? {
        RebuildItems(js, toks, i + |Layout(l.value, q)|, l.rest, q + |Text(l.value)| + |l.trail| + 1);
      }
    }
  }

  lemma {:induction false} MemberHolds(toks: seq<Token>, i: nat, m: Members, p: nat)
    requires m.Member? && Holds(toks, i, MembersLayout(m, p))
    ensures var k := p + |m.lead| + 1;
            var q := ValueStart(m, p);
            var own := Layout(m.value, q);
            var rest := MembersLayout(m.rest, q + |Text(m.value)| + |m.trail| + 1);
            && i < |toks| && toks[i] == Token(String, k, k + |m.key|, 1)
            && Holds(toks, i + 1, own) && Holds(toks, i + 1 + |own|, rest)
            && |MembersLayout(m, p)| == 1 + |own| + |rest|
  {
    hide Layout, Text, Holds;
    var k := p + |m.lead| + 1;
    var q := ValueStart(m, p);
    var head := Token(String, k, k + |m.key|, 1);
    var own := Layout(m.value, q);
    var rest := MembersLayout(m.rest, q + |Text(m.value)| + |m.trail| + 1);
    assert MembersLayout(m, p) == ([head] + own) + rest;
    hide MembersLayout;
    HoldsSplit(toks, i, [head] + own, rest);
    HeadHolds(toks, i, head, own);
  }

  lemma {:induction false} RebuildMembers(js: string, toks: seq<Token>, i: nat, m: Members, p: nat)
    requires Has(js, p, MembersText(m)) && Holds(toks, i, MembersLayout(m, p))
    ensures RebuildTable(js, toks, i, MemberCount(m)) == Some((PairsOf(m), i + |MembersLayout(m, p)|))
    decreases m
  {
    hide Text, MembersText, Holds, Layout, Rebuild, TreeOf;
    if m.Member? {
      var q := ValueStart(m, p);
      var q' := q + |Text(m.value)| + |m.trail| + 1;
      MemberPieces(js, p, m);
      MemberHolds(toks, i, m, p);
      QuotedBody(js, p + |m.lead|, m.key);
      assert Slice(js, toks[i]) == m.key;
      hide Has, MembersLayout, Slice;
      RebuildValue(js, toks, i + 1, m.value, q);
      if m.rest.Member? { RebuildMembers(js, toks, i + 1 + |Layout(m.value, q)|, m.rest, q'); }
    }
  }

  // ---------- how the pieces lex ----------

  // A primitive ends where the input does or at a terminator.
  predicate Stops(js: string, p: nat) {
    AtEnd(js, p) || IsTerminator(js[p])
  }

  predicate IsPlain(c: char) {
    IsPrintable(c) && !IsTerminator(c)
  }

  lemma {:induction false} ScalarIsPlain(v: Value)
    requires (v.Literal? || v.Number?) && Legal(v)
    ensures |Text(v)| >= 1 && forall i :: 0 <= i < |Text(v)| ==> IsPlain(Text(v)[i])
    ensures Text(v)[0] != '{' && Text(v)[0] != '[' && Text(v)[0] != '\"'
  {
    if v.Number? {
      forall i | 0 <= i < |v.frac| ensures IsPlain(v.frac[i]) {
        assert i >= 1 ==> v.frac[i] == v.frac[1..][i - 1];
      }
      forall i | 0 <= i < |v.exp| ensures IsPlain(v.exp[i]) {
        assert i >= 1 ==> v.exp[i] == v.exp[1..][i - 1];
        assert i >= 2 ==> v.exp[i] == v.exp[2..][i - 2];
      }
    }
  }

  lemma {:induction false} PlainRun(js: string, p: nat, t: string)
    requires Has(js, p, t) && Stops(js, p + |t|) && forall i :: 0 <= i < |t| ==> IsPlain(t[i])
    ensures PrimitiveEnd(js, p) == Found(p + |t|)
    decreases |t|
  {
    if t != "" {
      assert t == [t[0]] + t[1..];
      HasSplit(js, p, [t[0]], t[1..]);
      PlainRun(js, p + 1, t[1..]);
    }
  }

  // One character of a string body, or one escape of it, is one turn of the scan.
  lemma {:induction false} BodyHead(js: string, p: nat, body: string) returns (n: nat)
    requires body != "" && StringBody(body) && Has(js, p, body) && p + |body| < |js|
    ensures 1 <= n <= |body| && StringBody(body[n..]) && Has(js, p + n, body[n..])
    ensures StringEnd(js, p) == StringEnd(js, p + n)
  {
    n := if body[0] != '\\' then 1 else if IsEscapeLetter(body[1]) then 2 else 6;
    forall i | 0 <= i < |body| ensures js[p + i] == body[i] {
      assert js[p..p + |body|][i] == js[p + i];
    }
    assert Has(js, p + n, body[n..]) by {
      assert body == body[..n] + body[n..];
      HasSplit(js, p, body[..n], body[n..]);
    }
    hide Has;
    if n == 6 { HexFour(js, p + 2); }
  }

  lemma {:induction false} BodyRun(js: string, p: nat, body: string)
    requires Has(js, p, body) && Has(js, p + |body|, "\"") && StringBody(body)
    ensures StringEnd(js, p) == Found(p + |body|)
    decreases |body|
  {
    if body == "" {
      assert js[p..p + 1][0] == js[p];
    } else {
      var n := BodyHead(js, p, body);
      hide *;
      BodyRun(js, p + n, body[n..]);
    }
  }

  lemma {:induction false} HexFour(js: string, p: nat)
    requires p + 4 <= |js| && forall i :: p <= i < p + 4 ==> IsHexDigit(js[i])
    ensures HexRun(js, p, 4) == Found(p + 4)
  {
    assert HexRun(js, p + 4, 0) == Found(p + 4);
    assert HexRun(js, p + 3, 1) == Found(p + 4);
    assert HexRun(js, p + 2, 2) == Found(p + 4);
    assert HexRun(js, p + 1, 3) == Found(p + 4);
  }
}
