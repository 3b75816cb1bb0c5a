// What jsmn takes for a lexeme, written out on the text alone, and the proof that the
// scanning code reads exactly that: which strings and primitives lex, where they end,
// and which are refused or found to be cut off.

module JsmnGrammar {
  import opened JsmnAcceptance
  import opened JsmnLexer
  import opened JsmnModel
  import opened JsmnModes

  predicate EscapeLetter(c: char) { c in "\"\\/bfrnt" }
  predicate HexDigit(c: char) { c in "0123456789abcdefABCDEF" }
  predicate Blank(c: char) { c in "\t\r\n " }
  predicate EndsPrimitive(c: char) { c in "\t\r\n ,]}:" }

  // The input is over at p.
  predicate Over(js: string, p: nat) {
    p >= |js| || js[p] == '\0'
  }

  // js[p..q] is all hexadecimal digits.
  predicate Hexadecimal(js: string, p: nat, q: nat) {
    p <= q <= |js| && forall k :: p <= k < q ==> HexDigit(js[k])
  }

  // js[p..q] is one character of a string, or one escape.
  predicate Unit(js: string, p: nat, q: nat) {
    && p < q <= |js|
    && if js[p] != '\\' then q == p + 1 && js[p] != '\"' && js[p] != '\0'
       else if q == p + 2 then EscapeLetter(js[p + 1])
       else q == p + 6 && js[p + 1] == 'u' && Hexadecimal(js, p + 2, q)
  }

  // js[p..e] is a sequence of units.
  ghost predicate Body(js: string, p: nat, e: nat)
    decreases e - p
  {
    p == e || exists q :: p < q <= e && Unit(js, p, q) && Body(js, q, e)
  }

  // At h, after less than four digits of the escape at b, the input is over.
  predicate DigitsCutOff(js: string, b: nat, h: nat) {
    b + 2 <= h < b + 6 && Hexadecimal(js, b + 2, h) && Over(js, h)
  }

  // At h, after less than four digits of the escape at b, something else follows.
  predicate DigitsSpoilt(js: string, b: nat, h: nat) {
    b + 2 <= h < b + 6 && Hexadecimal(js, b + 2, h) && !Over(js, h) && !HexDigit(js[h])
  }

  // A backslash with something after it that makes no escape.
  ghost predicate BadEscape(js: string, b: nat) {
    && b + 1 < |js| && js[b] == '\\' && !EscapeLetter(js[b + 1])
    && (js[b + 1] == 'u' ==> exists h :: DigitsSpoilt(js, b, h))
  }

  // The input ends at t or within the escape that starts there.
  ghost predicate CutOff(js: string, t: nat) {
    || Over(js, t)
    || (js[t] == '\\' && t + 1 == |js|)
    || (js[t] == '\\' && t + 1 < |js| && js[t + 1] == 'u' && exists h :: DigitsCutOff(js, t, h))
  }

  // js[p..e] is the text of a primitive and something ends it at e.
  predicate PrimitiveText(js: string, p: nat, e: nat) {
    && p <= e <= |js|
    && (forall k :: p <= k < e ==> 32 <= js[k] as int <= 126 && !EndsPrimitive(js[k]))
    && (Over(js, e) || EndsPrimitive(js[e]))
  }

  // A primitive from p runs into a character it cannot hold.
  predicate PrimitiveSpoilt(js: string, p: nat, b: nat) {
    && p <= b < |js| && !Over(js, b) && !EndsPrimitive(js[b]) && !(32 <= js[b] as int <= 126)
    && forall k :: p <= k < b ==> 32 <= js[k] as int <= 126 && !EndsPrimitive(js[k])
  }

  // ---------- the character classes ----------

  lemma {:induction false} HexDigitIs(c: char)
    ensures IsHex(c) <==> HexDigit(c)
  {
    var n, digits := c as int, "0123456789abcdefABCDEF";
    if IsHex(c) {
      var k := if n <= 57 then n - 48 else if n >= 97 then 10 + (n - 97) else 16 + (n - 65);
      assert digits[k] == c;
    }
  }

  lemma {:induction false} EscapeLetterIs(c: char)
    ensures IsSimpleEscape(c) <==> EscapeLetter(c)
  {
    var letters := "\"\\/bfrnt";
    assert letters[0] == '\"' && letters[1] == '\\' && letters[2] == '/' && letters[3] == 'b';
    assert letters[4] == 'f' && letters[5] == 'r' && letters[6] == 'n' && letters[7] == 't';
  }

  lemma {:induction false} EndsPrimitiveIs(c: char)
    ensures IsTerminator(c) <==> EndsPrimitive(c)
    ensures IsBlank(c) <==> Blank(c)
  {
    var ends, blanks := "\t\r\n ,]}:", "\t\r\n ";
    assert ends[0] == '\t' && ends[1] == '\r' && ends[2] == '\n' && ends[3] == ' ';
    assert ends[4] == ',' && ends[5] == ']' && ends[6] == '}' && ends[7] == ':';
    assert blanks[0] == '\t' && blanks[1] == '\r' && blanks[2] == '\n' && blanks[3] == ' ';
  }

  // ---------- strings ----------

  lemma {:induction false} HexRunIs(js: string, p: nat, n: nat) returns (h: nat)
    requires p <= |js|
    ensures p <= h <= p + n && Hexadecimal(js, p, h)
    ensures HexRun(js, p, n) == if h == p + n || Over(js, h) then Found(h) else Invalid
    ensures h < p + n && !Over(js, h) ==> !HexDigit(js[h])
    decreases n
  {
    hide HexDigit;
    h := p;
    if n > 0 && !AtEnd(js, p) {
      HexDigitIs(js[p]);
      if IsHex(js[p]) { h := HexRunIs(js, p + 1, n - 1); }
    }
  }

  lemma {:induction false} HexRunOf(js: string, p: nat, n: nat, h: nat)
    requires p <= h <= p + n && Hexadecimal(js, p, h)
    ensures h == p + n || Over(js, h) ==> HexRun(js, p, n) == Found(h)
    ensures h < p + n && !Over(js, h) && !HexDigit(js[h]) ==> HexRun(js, p, n) == Invalid
    decreases n
  {
    hide HexDigit;
    if p < h {
      HexDigitIs(js[p]);
      assert js[p] != '\0' by { NulIsNoDigit(); }
      HexRunOf(js, p + 1, n - 1, h);
    } else if n > 0 && !AtEnd(js, p) {
      HexDigitIs(js[p]);
    }
  }

  lemma {:induction false} NulIsNoDigit()
    ensures !HexDigit('\0')
  {
  }

  // A unit is one turn of the scan.
  lemma {:induction false} UnitTurn(js: string, p: nat, q: nat)
    requires Unit(js, p, q)
    ensures StringEnd(js, p) == StringEnd(js, q)
  {
    hide HexDigit, EscapeLetter, Hexadecimal;
    if js[p] == '\\' {
      EscapeLetterIs(js[p + 1]);
      if q == p + 6 {
        HexRunOf(js, p + 2, 4, q);
        assert !IsSimpleEscape('u');
      }
    }
  }

  lemma {:induction false} BodyTurns(js: string, p: nat, e: nat)
    requires Body(js, p, e)
    ensures StringEnd(js, p) == StringEnd(js, e)
    decreases e - p
  {
    hide Unit, StringEnd;
    if p != e {
      var q :| p < q <= e && Unit(js, p, q) && Body(js, q, e);
      UnitTurn(js, p, q);
      BodyTurns(js, q, e);
    }
  }

  lemma {:induction false} BadEscapeStops(js: string, b: nat)
    requires BadEscape(js, b)
    ensures StringEnd(js, b) == Invalid
  {
    hide HexDigit, EscapeLetter, Hexadecimal;
    EscapeLetterIs(js[b + 1]);
    if js[b + 1] == 'u' {
      var h :| DigitsSpoilt(js, b, h);
      HexRunOf(js, b + 2, 4, h);
    }
  }

  lemma {:induction false} CutOffStops(js: string, t: nat)
    requires CutOff(js, t)
    ensures StringEnd(js, t) == Partial
  {
    hide HexDigit, EscapeLetter, Hexadecimal;
    if !Over(js, t) {
      assert StringEnd(js, |js|) == Partial;
      if t + 1 < |js| {
        EscapeLetterIs('u');
        assert !IsSimpleEscape('u');
        var h :| DigitsCutOff(js, t, h);
        HexRunOf(js, t + 2, 4, h);
        assert StringEnd(js, h) == Partial;
      }
    }
  }

  // At p the scan has its quote, a unit before it, or stops.
  ghost predicate StopsAt(js: string, p: nat, e: nat) {
    match StringEnd(js, p)
    case Found(at) => e == at
    case Invalid => BadEscape(js, e)
    case Partial => CutOff(js, e)
  }

  lemma {:induction false} NextUnit(js: string, p: nat) returns (q: nat)
    ensures StopsAt(js, p, p) || (q > p && Unit(js, p, q))
  {
    hide HexDigit, EscapeLetter;
    q := p + 1;
    if AtEnd(js, p) || js[p] == '\"' {
      assert StopsAt(js, p, p);
    } else if js[p] == '\\' && p + 1 == |js| {
      assert CutOff(js, p);
      CutOffStops(js, p);
    } else if js[p] == '\\' {
      q := NextEscape(js, p);
    }
  }

  lemma {:induction false} NextEscape(js: string, p: nat) returns (q: nat)
    requires p + 1 < |js| && js[p] == '\\'
    ensures StopsAt(js, p, p) || (q > p && Unit(js, p, q))
  {
    hide HexDigit, EscapeLetter, StringEnd;
    EscapeLetterIs(js[p + 1]);
    q := p + 2;
    if js[p + 1] == 'u' {
      assert !IsSimpleEscape('u');
      q := p + 6;
      var h := HexRunIs(js, p + 2, 4);
      if h < p + 6 && Over(js, h) {
        assert DigitsCutOff(js, p, h);
        CutOffStops(js, p);
      } else if h < p + 6 {
        assert DigitsSpoilt(js, p, h);
        BadEscapeStops(js, p);
      }
    } else if !EscapeLetter(js[p + 1]) {
      assert BadEscape(js, p);
      BadEscapeStops(js, p);
    }
  }

  // Where the scan stops, and after what.
  lemma {:induction false} StringStops(js: string, p: nat) returns (e: nat)
    ensures p <= e && Body(js, p, e) && StopsAt(js, p, e)
    decreases |js| - p
  {
    hide Unit, StringEnd, BadEscape, CutOff;
    e := p;
    if !StopsAt(js, p, p) {
      var q := NextUnit(js, p);
      assert q <= |js| by { UnitEnds(js, p, q); }
      UnitTurn(js, p, q);
      e := StringStops(js, q);
    }
  }

  lemma {:induction false} UnitEnds(js: string, p: nat, q: nat)
    requires Unit(js, p, q)
    ensures p < q <= |js|
  {
  }

  // The closing quote is at e exactly when only units are before it ...
  lemma {:induction false} StringFound(js: string, p: nat, e: nat)
    ensures StringEnd(js, p) == Found(e) <==> p <= e < |js| && js[e] == '\"' && Body(js, p, e)
  {
    if StringEnd(js, p) == Found(e) { var e' := StringStops(js, p); }
    if p <= e < |js| && js[e] == '\"' && Body(js, p, e) { BodyTurns(js, p, e); }
  }

  // ... a string is refused exactly when units lead to an escape there is none of ...
  lemma {:induction false} StringInvalid(js: string, p: nat)
    ensures StringEnd(js, p) == Invalid <==> exists b :: p <= b && Body(js, p, b) && BadEscape(js, b)
  {
    hide Body, BadEscape, CutOff, StringEnd;
    var e := StringStops(js, p);
    if b :| p <= b && Body(js, p, b) && BadEscape(js, b) {
      BodyTurns(js, p, b);
      BadEscapeStops(js, b);
    }
  }

  // ... and is partial exactly when they lead to the end of the input.
  lemma {:induction false} StringPartial(js: string, p: nat)
    ensures StringEnd(js, p) == Partial <==> exists t :: p <= t && Body(js, p, t) && CutOff(js, t)
  {
    hide Body, BadEscape, CutOff, StringEnd;
    var e := StringStops(js, p);
    if t :| p <= t && Body(js, p, t) && CutOff(js, t) {
      BodyTurns(js, p, t);
      CutOffStops(js, t);
    }
  }

  // ---------- primitives ----------

  lemma {:induction false} PrimitiveStops(js: string, p: nat) returns (e: nat)
    requires p <= |js|
    ensures if PrimitiveEnd(js, p).Found? then PrimitiveEnd(js, p).at == e && PrimitiveText(js, p, e)
            else PrimitiveSpoilt(js, p, e)
    decreases |js| - p
  {
    hide EndsPrimitive;
    e := p;
    if !AtEnd(js, p) {
      EndsPrimitiveIs(js[p]);
      if !IsTerminator(js[p]) && IsPrintable(js[p]) { e := PrimitiveStops(js, p + 1); }
    }
  }

  lemma {:induction false} PrimitiveFound(js: string, p: nat, e: nat)
    requires p <= |js|
    ensures PrimitiveEnd(js, p) == Found(e) <==> PrimitiveText(js, p, e)
  {
    hide EndsPrimitive, PrimitiveEnd;
    var e' := PrimitiveStops(js, p);
  }

  lemma {:induction false} PrimitiveInvalid(js: string, p: nat)
    requires p <= |js|
    ensures PrimitiveEnd(js, p) == Invalid <==> exists b :: PrimitiveSpoilt(js, p, b)
  {
    hide EndsPrimitive, PrimitiveEnd;
    var e := PrimitiveStops(js, p);
    if b :| PrimitiveSpoilt(js, p, b) {
      if PrimitiveText(js, p, e) { assert e <= b || b < e; }
    }
  }

  // ---------- lexemes ----------

  // Between p and q the text spells lexeme l.
  ghost predicate Reads(js: string, p: nat, l: Lexeme, q: nat) {
    && p < q && !Over(js, p)
    && match l
       case Open(kind) => q == p + 1 && ((js[p] == '{' && kind == Object) || (js[p] == '[' && kind == Array))
       case Close(kind) => q == p + 1 && ((js[p] == '}' && kind == Object) || (js[p] == ']' && kind == Array))
       case Colon => q == p + 1 && js[p] == ':'
       case Comma => q == p + 1 && js[p] == ','
       case Blank => q == p + 1 && Blank(js[p])
       case Leaf(kind, start, end) =>
         if js[p] == '\"' then
           && kind == String && start == p + 1 <= end < |js| && q == end + 1
           && js[end] == '\"' && Body(js, start, end)
         else
           kind == Primitive && start == p && end == q && js[p] != '{' && js[p] != '[' && PrimitiveText(js, p, q)
  }

  lemma {:induction false} SpeltString(js: string, p: nat, l: Lexeme, q: nat)
    requires !AtEnd(js, p) && js[p] == '\"'
    ensures Lex(js, p) == Lexed(l, q) <==> Reads(js, p, l, q)
  {
    hide EndsPrimitive, Blank, StringEnd, PrimitiveEnd, Body, PrimitiveText;
    assert !Blank('\"') by { EndsPrimitiveIs('\"'); }
    if l.Leaf? { StringFound(js, p + 1, l.end); }
    if StringEnd(js, p + 1).Found? { StringFound(js, p + 1, StringEnd(js, p + 1).at); }
  }

  lemma {:induction false} SpeltPrimitive(js: string, p: nat, l: Lexeme, q: nat)
    requires !AtEnd(js, p) && js[p] != '\"' && js[p] != '{' && js[p] != '[' && !IsTerminator(js[p])
    ensures Lex(js, p) == Lexed(l, q) <==> Reads(js, p, l, q)
  {
    hide EndsPrimitive, Blank, StringEnd, Body, PrimitiveText;
    EndsPrimitiveIs(js[p]);
    PrimitiveFound(js, p, q);
    if IsPrintable(js[p]) {
      assert PrimitiveEnd(js, p) == PrimitiveEnd(js, p + 1);
    } else {
      assert PrimitiveEnd(js, p) == Invalid;
    }
    hide PrimitiveEnd;
    if PrimitiveEnd(js, p + 1).Found? { PrimitiveFound(js, p, PrimitiveEnd(js, p + 1).at); }
  }

  lemma {:induction false} SpeltMark(js: string, p: nat, l: Lexeme, q: nat)
    requires !AtEnd(js, p) && (js[p] == '{' || js[p] == '[' || IsTerminator(js[p]))
    ensures Lex(js, p) == Lexed(l, q) <==> Reads(js, p, l, q)
  {
    hide EndsPrimitive, Blank, StringEnd, PrimitiveEnd, Body;
    EndsPrimitiveIs(js[p]);
    assert IsTerminator(js[p]) && p < q ==> !PrimitiveText(js, p, q);
    hide PrimitiveText;
  }

  // The lexer reads exactly what is spelt ...
  lemma {:induction false} LexReads(js: string, p: nat, l: Lexeme, q: nat)
    requires !AtEnd(js, p)
    ensures Lex(js, p) == Lexed(l, q) <==> Reads(js, p, l, q)
  {
    hide Lex, Reads;
    if js[p] == '\"' {
      SpeltString(js, p, l, q);
    } else if js[p] == '{' || js[p] == '[' || IsTerminator(js[p]) {
      SpeltMark(js, p, l, q);
    } else {
      SpeltPrimitive(js, p, l, q);
    }
  }

  // ... reports a string that is cut off ...
  ghost predicate StringCutOff(js: string, p: nat) {
    !Over(js, p) && js[p] == '\"' && exists t :: p + 1 <= t && Body(js, p + 1, t) && CutOff(js, t)
  }

  lemma {:induction false} LexPart(js: string, p: nat)
    requires !AtEnd(js, p)
    ensures Lex(js, p) == LexError(-3) <==> StringCutOff(js, p)
  {
    hide StringEnd, PrimitiveEnd, Body, CutOff;
    StringPartial(js, p + 1);
  }

  // ... and refuses the rest, which is a string with a bad escape or a character no
  // primitive can hold.
  ghost predicate Spoilt(js: string, p: nat) {
    && !Over(js, p)
    && if js[p] == '\"' then exists b :: p + 1 <= b && Body(js, p + 1, b) && BadEscape(js, b)
       else js[p] != '{' && js[p] != '[' && exists b :: PrimitiveSpoilt(js, p, b)
  }

  lemma {:induction false} LexInvalid(js: string, p: nat)
    requires !AtEnd(js, p)
    ensures Lex(js, p) == LexError(-2) <==> Spoilt(js, p)
  {
    hide StringEnd, Body, BadEscape, PrimitiveSpoilt;
    if js[p] == '\"' {
      StringInvalid(js, p + 1);
    } else {
      PrimitiveInvalid(js, p);
      if !IsTerminator(js[p]) && IsPrintable(js[p]) { assert PrimitiveEnd(js, p) == PrimitiveEnd(js, p + 1); }
    }
  }

  // ---------- whole texts ----------

  // The text from p on is a sequence of lexemes whose brackets are w.
  ghost predicate Spells(js: string, p: nat, w: seq<Bracket>)
    decreases |js| - p, 1
  {
    if Over(js, p) then w == []
    else exists l, q :: Reads(js, p, l, q) && SpellsOn(js, p, l, q, w)
  }

  ghost predicate SpellsOn(js: string, p: nat, l: Lexeme, q: nat, w: seq<Bracket>)
    requires p < q && !Over(js, p)
    decreases |js| - p, 0
  {
    match l
    case Open(kind) => w != [] && w[0] == Bracket(true, kind, p) && Spells(js, q, w[1..])
    case Close(kind) => w != [] && w[0] == Bracket(false, kind, p) && Spells(js, q, w[1..])
    case _ => Spells(js, q, w)
  }

  // What the acceptance theorems say through the lexer, said of the text.
  lemma {:induction false} SpellsIff(js: string, p: nat, w: seq<Bracket>)
    ensures Spells(js, p, w) <==> Lexes(js, p) && w == Brackets(js, p)
    decreases |js| - p
  {
    hide Lex, Body, PrimitiveText, Blank;
    if !AtEnd(js, p) {
      if Lex(js, p).Lexed? {
        var l, q := Lex(js, p).lexeme, Lex(js, p).next;
        LexReads(js, p, l, q);
        SpellsOnIff(js, p, l, q, w);
        if Spells(js, p, w) {
          var l', q' :| Reads(js, p, l', q') && SpellsOn(js, p, l', q', w);
          LexReads(js, p, l', q');
        }
      } else if Spells(js, p, w) {
        var l, q :| Reads(js, p, l, q) && SpellsOn(js, p, l, q, w);
        LexReads(js, p, l, q);
      }
    }
  }

  lemma {:induction false} SpellsOnIff(js: string, p: nat, l: Lexeme, q: nat, w: seq<Bracket>)
    requires !AtEnd(js, p) && Lex(js, p) == Lexed(l, q)
    ensures p < q && (SpellsOn(js, p, l, q, w) <==> Lexes(js, q) && w == Brackets(js, p))
    decreases |js| - p, 0
  {
    hide Lex;
    var rest := Brackets(js, q);
    assert Brackets(js, p) == BracketOf(l, p) + rest;
    if l.Open? || l.Close? {
      assert (BracketOf(l, p) + rest)[1..] == rest;
      if w != [] {
        SpellsIff(js, q, w[1..]);
        assert w == [w[0]] + w[1..];
      }
    } else {
      SpellsIff(js, q, w);
      assert [] + rest == rest;
    }
  }

  // A text jsmn has no quarrel with: lexemes whose brackets are balanced.
  ghost predicate Sound(js: string) {
    exists w :: Spells(js, 0, w) && Dyck(w)
  }

  lemma {:induction false} SoundIff(js: string)
    ensures Sound(js) <==> Lexes(js, 0) && Dyck(Brackets(js, 0))
  {
    hide Spells, Lexes, Brackets, Dyck;
    SpellsIff(js, 0, Brackets(js, 0));
    if w :| Spells(js, 0, w) && Dyck(w) { SpellsIff(js, 0, w); }
  }

  // Unless it runs out of tokens, a call on a fresh parser succeeds exactly on the texts
  // that spell lexemes whose brackets form a Dyck word; and with an array as long as the
  // text it does not run out.
  lemma {:induction false} AcceptsSound(js: string, cap: nat)
    ensures Run(js, FRESH, cap).0 >= 0 <==> Sound(js) && Run(js, FRESH, cap).0 != NOMEM
    ensures cap >= |js| ==> Run(js, FRESH, cap).0 != NOMEM
  {
    hide Run, Sound;
    SoundIff(js);
    TokensNeeded(js, FRESH, cap);
    if Run(js, FRESH, cap).0 != NOMEM { AcceptsDyck(js, cap); }
  }
}
