// jsmn_parse as JSMN_PARENT_LINKS builds it, in place over tokens that carry a parent.
// The parser struct and the loops that only move pos are those of Jsmn; with
// tokens == NULL the two builds do not differ.

module JsmnLinkedParser {
  import opened Jsmn
  import opened JsmnLexer
  import opened JsmnLinked
  import opened JsmnModel

  ghost predicate Fits(parser: Parser, tokens: array<Linked>)
    reads parser, tokens
  {
    parser.toknext <= tokens.Length && LValid(LAbs(parser, tokens))
  }

  ghost function LAbs(parser: Parser, tokens: array<Linked>): LState
    requires parser.toknext <= tokens.Length
    reads parser, tokens
  {
    LState(parser.pos, tokens[..parser.toknext], parser.toksuper)
  }

  // Tokens are only handed out, and the ones that are not stay as they were.
  twostate predicate TailKept(parser: Parser, tokens: array<Linked>)
    reads parser, tokens
  {
    && old(parser.toknext) <= parser.toknext <= tokens.Length
    && forall j :: parser.toknext <= j < tokens.Length ==> tokens[j] == old(tokens[j])
  }

  method AllocToken(parser: Parser, tokens: array<Linked>) returns (i: int)
    requires parser.toknext <= tokens.Length
    modifies parser`toknext, tokens
    ensures i == if old(parser.toknext) < tokens.Length then old(parser.toknext) else -1
    ensures i == -1 ==> parser.toknext == old(parser.toknext) && tokens[..] == old(tokens[..])
    ensures i != -1 ==>
      parser.toknext == i + 1 && tokens[i] == Linked(Token(old(tokens[i]).tok.kind, -1, -1, 0), -1)
    ensures forall j :: 0 <= j < tokens.Length && j != i ==> tokens[j] == old(tokens[j])
  {
    if parser.toknext >= tokens.Length { return -1; }
    i := parser.toknext;
    parser.toknext := parser.toknext + 1;
    tokens[i] := Linked(tokens[i].tok.(start := -1, end := -1, size := 0), -1);
  }

  // tokens[toksuper].size++
  method CountChild(parser: Parser, tokens: array<Linked>)
    requires parser.toknext <= tokens.Length && 0 <= parser.toksuper < parser.toknext
    modifies tokens
    ensures tokens[..] == LGrow(old(tokens[..]), parser.toksuper, 1)
  {
    var t := tokens[parser.toksuper];
    tokens[parser.toksuper] := t.(tok := t.tok.(size := t.tok.size + 1));
  }

  // case '{' and '['
  method OpenBracket(parser: Parser, kind: Kind, tokens: array<Linked>) returns (r: int)
    requires Fits(parser, tokens)
    modifies parser`toknext, parser`toksuper, tokens
    ensures Fits(parser, tokens)
    ensures match LApply(old(LAbs(parser, tokens)), Open(kind), parser.pos + 1, tokens.Length)
            case LGo(s) => r == 0 && LAbs(parser, tokens) == s.(pos := parser.pos)
            case LFail(code) => r == code && LAbs(parser, tokens) == old(LAbs(parser, tokens))
    ensures TailKept(parser, tokens)
  {
    var token := AllocToken(parser, tokens);
    if token == -1 { return NOMEM; }
    if parser.toksuper != -1 {
      CountChild(parser, tokens);
      tokens[token] := tokens[token].(parent := parser.toksuper);
    }
    tokens[token] := tokens[token].(tok := tokens[token].tok.(kind := kind, start := parser.pos));
    assert tokens[..parser.toknext] == LGrow(old(tokens[..parser.toknext]), parser.toksuper, 1) + [tokens[token]];
    parser.toksuper := parser.toknext - 1;
    return 0;
  }

  // Where jsmn_parse_string and jsmn_parse_primitive have found their end: the token, or
  // NOMEM, and pos is not this method's business.
  method PlaceLeaf(parser: Parser, kind: Kind, start: nat, end: nat, tokens: array<Linked>) returns (r: int)
    requires Fits(parser, tokens)
    modifies parser`toknext, tokens
    ensures if old(parser.toknext) >= tokens.Length
            then r == NOMEM && parser.toknext == old(parser.toknext) && tokens[..] == old(tokens[..])
            else r == 0 && parser.toknext == old(parser.toknext) + 1
                 && tokens[..] == old(tokens[..])[old(parser.toknext) :=
                                                    Linked(Token(kind, start, end, 0), parser.toksuper)]
  {
    var token := AllocToken(parser, tokens);
    if token == -1 { return NOMEM; }
    tokens[token] := Linked(Token(kind, start, end, 0), parser.toksuper);
    return 0;
  }

  // What a lexing function leaves when its leaf ends at `end` and pos at `last`.
  twostate predicate LeafRead(parser: Parser, tokens: array<Linked>, r: int, leaf: Token, last: nat)
    reads parser, tokens
  {
    if old(parser.toknext) >= tokens.Length then r == NOMEM && LeafRefused(parser, tokens)
    else
      && r == 0 && parser.pos == last && parser.toknext == old(parser.toknext) + 1
      && tokens[..] == old(tokens[..])[old(parser.toknext) := Linked(leaf, parser.toksuper)]
  }

  twostate predicate LeafRefused(parser: Parser, tokens: array<Linked>)
    reads parser, tokens
  {
    parser.pos == old(parser.pos) && parser.toknext == old(parser.toknext) && tokens[..] == old(tokens[..])
  }

  // jsmn_parse_primitive
  method ParsePrimitive(parser: Parser, js: string, tokens: array<Linked>) returns (r: int)
    requires Fits(parser, tokens) && parser.pos < |js|
    requires !IsTerminator(js[parser.pos]) && js[parser.pos] != '\0'
    modifies parser`pos, parser`toknext, tokens
    ensures match PrimitiveEnd(js, old(parser.pos))
            case Found(e) =>
              e > old(parser.pos) && LeafRead(parser, tokens, r, Token(Primitive, old(parser.pos), e, 0), e - 1)
            case _ => r == INVAL && LeafRefused(parser, tokens)
  {
    var start := parser.pos;
    r := parser.ScanPrimitive(js);
    if r < 0 { return r; }
    r := PlaceLeaf(parser, Primitive, start, parser.pos, tokens);
    parser.pos := if r < 0 then start else parser.pos - 1;
  }

  // jsmn_parse_string
  method ParseString(parser: Parser, js: string, tokens: array<Linked>) returns (r: int)
    requires Fits(parser, tokens) && parser.pos < |js|
    modifies parser`pos, parser`toknext, tokens
    ensures match StringEnd(js, old(parser.pos) + 1)
            case Found(e) => LeafRead(parser, tokens, r, Token(String, old(parser.pos) + 1, e, 0), e)
            case Invalid => r == INVAL && LeafRefused(parser, tokens)
            case Partial => r == PART && LeafRefused(parser, tokens)
  {
    var start := parser.pos;
    r := parser.ScanString(js);
    if r < 0 { return r; }
    r := PlaceLeaf(parser, String, start + 1, parser.pos, tokens);
    if r < 0 { parser.pos := start; }
  }

  // The string or primitive at pos, its token not yet counted.
  method LexLeaf(parser: Parser, js: string, tokens: array<Linked>) returns (r: int)
    requires Fits(parser, tokens) && !AtEnd(js, parser.pos)
    requires js[parser.pos] == '\"' || (Lex(js, parser.pos).Lexed? ==> Lex(js, parser.pos).lexeme.Leaf?)
    modifies parser`pos, parser`toknext, tokens
    ensures match Lex(js, old(parser.pos))
            case Lexed(l, q) => l.Leaf? && LeafRead(parser, tokens, r, Token(l.kind, l.start, l.end, 0), q - 1)
            case LexError(code) => r == code && LeafRefused(parser, tokens)
  {
    hide StringEnd, HexRun, LinksBelow, Walk;
    if js[parser.pos] == '\"' {
      r := ParseString(parser, js, tokens);
    } else {
      r := ParsePrimitive(parser, js, tokens);
    }
  }

  // A string or primitive at pos, counted under the current toksuper.
  method ReadLeaf(parser: Parser, js: string, tokens: array<Linked>) returns (r: int)
    requires Fits(parser, tokens) && !AtEnd(js, parser.pos)
    requires js[parser.pos] == '\"' || (Lex(js, parser.pos).Lexed? ==> Lex(js, parser.pos).lexeme.Leaf?)
    modifies parser`pos, parser`toknext, tokens
    ensures Fits(parser, tokens)
    ensures match LStep(js, old(LAbs(parser, tokens)), tokens.Length)
            case LGo(s) =>
              r == 0 && LAbs(parser, tokens) == s.(pos := parser.pos) && parser.pos + 1 == s.pos
              && parser.toknext == old(parser.toknext) + 1
            case LFail(code) => r == code && LAbs(parser, tokens) == old(LAbs(parser, tokens))
    ensures TailKept(parser, tokens)
  {
    hide Lex;
    r := LexLeaf(parser, js, tokens);
    if r < 0 { return r; }
    if parser.toksuper != -1 { CountChild(parser, tokens); }
    assert tokens[..parser.toknext]
        == LGrow(old(tokens[..parser.toknext]), parser.toksuper, 1) + [tokens[parser.toknext - 1]];
  }

  // case '}' and ']': up the parents to an unclosed token or the root.
  method CloseBracket(parser: Parser, kind: Kind, tokens: array<Linked>) returns (r: int)
    requires Fits(parser, tokens)
    modifies parser`toksuper, tokens
    ensures Fits(parser, tokens)
    ensures match LApply(old(LAbs(parser, tokens)), Close(kind), parser.pos + 1, tokens.Length)
            case LGo(s) => r == 0 && LAbs(parser, tokens) == s.(pos := parser.pos)
            case LFail(code) => r == code && LAbs(parser, tokens) == old(LAbs(parser, tokens))
    ensures TailKept(parser, tokens)
  {
    if parser.toknext < 1 { return INVAL; }
    ghost var toks := tokens[..parser.toknext];
    var k := parser.toknext - 1;
    while true
      invariant 0 <= k < parser.toknext && tokens[..] == old(tokens[..]) && parser.toksuper == old(parser.toksuper)
      invariant Walk(toks, parser.toknext - 1) == Walk(toks, k)
      decreases k
    {
      assert tokens[k] == toks[k];
      if tokens[k].tok.start != -1 && tokens[k].tok.end == -1 {
        if tokens[k].tok.kind != kind { return INVAL; }
        tokens[k] := tokens[k].(tok := tokens[k].tok.(end := parser.pos + 1));
        parser.toksuper := tokens[k].parent;
        assert tokens[..parser.toknext] == toks[k := tokens[k]];
        return 0;
      }
      if tokens[k].parent == -1 {
        if tokens[k].tok.kind != kind || parser.toksuper == -1 { return INVAL; }
        return 0;
      }
      k := tokens[k].parent;
    }
  }

  // case ','
  method NextMember(parser: Parser, tokens: array<Linked>)
    requires Fits(parser, tokens)
    modifies parser`toksuper
    ensures Fits(parser, tokens)
    ensures LGo(LAbs(parser, tokens).(pos := parser.pos + 1))
            == LApply(old(LAbs(parser, tokens)), Comma, parser.pos + 1, tokens.Length)
  {
    var i := parser.toksuper;
    if i != -1 && tokens[i].tok.kind != Array && tokens[i].tok.kind != Object {
      assert tokens[i] == tokens[..parser.toknext][i];
      parser.toksuper := tokens[i].parent;
    }
  }

  // One turn of the loop, up to the final pos++.
  method Turn(parser: Parser, js: string, tokens: array<Linked>, count: nat) returns (r: int, count': nat)
    requires Fits(parser, tokens) && !AtEnd(js, parser.pos) && count == parser.toknext
    modifies parser, tokens
    ensures Fits(parser, tokens)
    ensures match LStep(js, old(LAbs(parser, tokens)), tokens.Length)
            case LGo(s) => r == 0 && LAbs(parser, tokens).(pos := parser.pos + 1) == s && count' == parser.toknext
            case LFail(code) => r == code && LAbs(parser, tokens) == old(LAbs(parser, tokens))
    ensures TailKept(parser, tokens)
  {
    var c := js[parser.pos];
    r, count' := 0, count;
    if c == '{' || c == '[' {
      count' := count' + 1;
      r := OpenBracket(parser, if c == '{' then Object else Array, tokens);
    } else if c == '}' || c == ']' {
      r := CloseBracket(parser, if c == '}' then Object else Array, tokens);
    } else if c == '\t' || c == '\r' || c == '\n' || c == ' ' {
    } else if c == ':' {
      parser.toksuper := parser.toknext - 1;
    } else if c == ',' {
      NextMember(parser, tokens);
    } else {
      r := ReadLeaf(parser, js, tokens);
      if r >= 0 { count' := count' + 1; }
    }
  }

  // The final scan for a token left unclosed.
  method AnyOpen(parser: Parser, tokens: array<Linked>) returns (found: bool)
    requires Fits(parser, tokens)
    ensures var toks := tokens[..parser.toknext]; found <==> LastOpen(Toks(toks), |toks|) != -1
  {
    ghost var toks := Toks(tokens[..parser.toknext]);
    var i := parser.toknext - 1;
    while i >= 0
      invariant -1 <= i < parser.toknext
      invariant LastOpen(toks, parser.toknext) == LastOpen(toks, i + 1)
    {
      assert toks[i] == tokens[i].tok;
      if tokens[i].tok.start != -1 && tokens[i].tok.end == -1 { return true; }
      i := i - 1;
    }
    return false;
  }

  // jsmn_parse in token mode computes LRun, and leaves the unused tail of the array alone.
  method Parse(parser: Parser, js: string, tokens: array<Linked>) returns (r: int)
    requires Fits(parser, tokens)
    modifies parser, tokens
    ensures Fits(parser, tokens)
    ensures (r, LAbs(parser, tokens)) == LRun(js, old(LAbs(parser, tokens)), tokens.Length)
    ensures TailKept(parser, tokens)
  {
    hide LApply, Lex, LinksBelow;
    var count := parser.toknext;
    ghost var result := LRun(js, LAbs(parser, tokens), tokens.Length);
    while parser.pos < |js| && js[parser.pos] != '\0'
      invariant Fits(parser, tokens) && count == parser.toknext
      invariant LRun(js, LAbs(parser, tokens), tokens.Length) == result
      invariant TailKept(parser, tokens)
      decreases |js| - parser.pos
    {
      r, count := Turn(parser, js, tokens, count);
      if r < 0 { return r; }
      parser.pos := parser.pos + 1;
    }
    var found := AnyOpen(parser, tokens);
    if found { return PART; }
    return count;
  }
}
