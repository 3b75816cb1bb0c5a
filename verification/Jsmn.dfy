// jsmn_parser and its functions, in place over a caller's token array
// (cmd/alert_server/jsmn.h, default build).  `tokens == null` is the counting mode.

module Jsmn {
  import opened JsmnLexer
  import opened JsmnModel

  class Parser {
    var pos: nat
    var toknext: nat
    var toksuper: int

    // jsmn_init
    constructor ()
      ensures pos == 0 && toknext == 0 && toksuper == -1
    {
      pos, toknext, toksuper := 0, 0, -1;
    }

    // The tokens handed out so far lie in the array.
    ghost predicate Fits(tokens: array?<Token>)
      reads this
    {
      && -1 <= toksuper < toknext
      && (tokens != null ==> toknext <= tokens.Length)
    }

    ghost function Abs(tokens: array<Token>): State
      requires toknext <= tokens.Length
      reads this, tokens
    {
      State(pos, tokens[..toknext], toksuper)
    }

    // Tokens are only handed out, and the ones that are not stay as they were.
    twostate predicate TailKept(tokens: array<Token>)
      reads this, tokens
    {
      && old(toknext) <= toknext <= tokens.Length
      && forall j :: toknext <= j < tokens.Length ==> tokens[j] == old(tokens[j])
    }

    // jsmn_alloc_token: the index of a cleared token, or -1 for NULL.
    method AllocToken(tokens: array<Token>) returns (i: int)
      requires toknext <= tokens.Length
      modifies this`toknext, tokens
      ensures i == if old(toknext) < tokens.Length then old(toknext) else -1
      ensures i == -1 ==> toknext == old(toknext) && tokens[..] == old(tokens[..])
      ensures i != -1 ==> toknext == i + 1 && tokens[i] == Token(old(tokens[i]).kind, -1, -1, 0)
      ensures forall j :: 0 <= j < tokens.Length && j != i ==> tokens[j] == old(tokens[j])
    {
      if toknext >= tokens.Length { return -1; }
      i := toknext;
      toknext := toknext + 1;
      tokens[i] := tokens[i].(start := -1, end := -1);
      tokens[i] := tokens[i].(size := 0);
    }

    // What both lexing functions leave behind when the leaf ends at `end`, the next
    // position to look at being `last` + 1.
    twostate predicate LeafRead(tokens: array?<Token>, r: int, leaf: Token, last: nat)
      reads this, tokens
    {
      if tokens == null then r == 0 && pos == last && toknext == old(toknext)
      else if old(toknext) >= tokens.Length then
        r == NOMEM && pos == old(pos) && toknext == old(toknext) && tokens[..] == old(tokens[..])
      else
        r == 0 && pos == last && toknext == old(toknext) + 1
        && tokens[..] == old(tokens[..])[old(toknext) := leaf]
    }

    twostate predicate LeafRefused(tokens: array?<Token>)
      reads this, tokens
    {
      pos == old(pos) && toknext == old(toknext) && (tokens != null ==> tokens[..] == old(tokens[..]))
    }

    // The loop of jsmn_parse_primitive: 0 with pos on the terminator, or an error code
    // with pos back where it was.
    method ScanPrimitive(js: string) returns (r: int)
      requires pos < |js| && !IsTerminator(js[pos]) && js[pos] != '\0'
      modifies this`pos
      ensures match PrimitiveEnd(js, old(pos))
              case Found(e) => r == 0 && e > old(pos) && pos == e
              case _ => r == INVAL && pos == old(pos)
    {
      var start := pos;
      while pos < |js| && js[pos] != '\0'
        invariant start <= pos <= |js|
        invariant PrimitiveEnd(js, start) == PrimitiveEnd(js, pos)
      {
        if IsTerminator(js[pos]) { break; }
        if js[pos] as int < 32 || js[pos] as int >= 127 {
          pos := start;
          return INVAL;
        }
        pos := pos + 1;
      }
      return 0;
    }

    // jsmn_parse_primitive
    method ParsePrimitive(js: string, tokens: array?<Token>) returns (r: int)
      requires pos < |js| && !IsTerminator(js[pos]) && js[pos] != '\0'
      requires tokens != null ==> toknext <= tokens.Length
      modifies this`pos, this`toknext, tokens
      ensures match PrimitiveEnd(js, old(pos))
              case Found(e) => e > old(pos) && LeafRead(tokens, r, Token(Primitive, old(pos), e, 0), e - 1)
              case _ => r == INVAL && LeafRefused(tokens)
    {
      var start := pos;
      r := ScanPrimitive(js);
      if r < 0 { return r; }
      if tokens == null {
        pos := pos - 1;
        return 0;
      }
      var token := AllocToken(tokens);
      if token == -1 {
        pos := start;
        return NOMEM;
      }
      tokens[token] := Token(Primitive, start, pos, 0);
      pos := pos - 1;
      return 0;
    }

    // The four-digit loop of a \u escape; pos starts on the 'u' and ends on the last
    // character consumed.
    method SkipHex(js: string) returns (ok: bool)
      requires pos < |js| && js[pos] == 'u'
      modifies this`pos
      ensures ok == HexRun(js, old(pos) + 1, 4).Found?
      ensures ok ==> pos + 1 == HexRun(js, old(pos) + 1, 4).at
    {
      pos := pos + 1;
      var i := 0;
      while i < 4 && pos < |js| && js[pos] != '\0'
        invariant 0 <= i <= 4 && old(pos) < pos <= |js|
        invariant HexRun(js, old(pos) + 1, 4) == HexRun(js, pos, 4 - i)
      {
        if !IsHex(js[pos]) { return false; }
        pos := pos + 1;
        i := i + 1;
      }
      pos := pos - 1;
      return true;
    }

    // The scanning loop of jsmn_parse_string: 0 with pos on the closing quote, or an
    // error code with pos back where it was.
    method ScanString(js: string) returns (r: int)
      requires pos < |js|
      modifies this`pos
      ensures match StringEnd(js, old(pos) + 1)
              case Found(e) => r == 0 && pos == e
              case Invalid => r == INVAL && pos == old(pos)
              case Partial => r == PART && pos == old(pos)
    {
      var start := pos;
      pos := pos + 1;
      while pos < |js| && js[pos] != '\0'
        invariant start < pos
        invariant StringEnd(js, start + 1) == StringEnd(js, pos)
        decreases |js| - pos
      {
        var c := js[pos];
        if c == '\"' { return 0; }
        if c == '\\' && pos + 1 < |js| {
          pos := pos + 1;
          if js[pos] == 'u' {
            var ok := SkipHex(js);
            if !ok {
              pos := start;
              return INVAL;
            }
          } else if !IsSimpleEscape(js[pos]) {
            pos := start;
            return INVAL;
          }
        }
        pos := pos + 1;
      }
      pos := start;
      return PART;
    }

    // jsmn_parse_string
    method ParseString(js: string, tokens: array?<Token>) returns (r: int)
      requires pos < |js|
      requires tokens != null ==> toknext <= tokens.Length
      modifies this`pos, this`toknext, tokens
      ensures match StringEnd(js, old(pos) + 1)
              case Found(e) => LeafRead(tokens, r, Token(String, old(pos) + 1, e, 0), e)
              case Invalid => r == INVAL && LeafRefused(tokens)
              case Partial => r == PART && LeafRefused(tokens)
    {
      var start := pos;
      r := ScanString(js);
      if r < 0 || tokens == null { return r; }
      var token := AllocToken(tokens);
      if token == -1 {
        pos := start;
        return NOMEM;
      }
      tokens[token] := Token(String, start + 1, pos, 0);
      return 0;
    }

    // case '{' and '[' with tokens: 0, or NOMEM with nothing changed.
    method OpenBracket(kind: Kind, tokens: array<Token>) returns (r: int)
      requires Fits(tokens)
      modifies this`toknext, this`toksuper, tokens
      ensures Fits(tokens)
      ensures match Apply(old(Abs(tokens)), Open(kind), pos + 1, tokens.Length)
              case Go(s) => r == 0 && Abs(tokens) == s.(pos := pos) && toknext == old(toknext) + 1
              case Fail(code) => r == code && Abs(tokens) == old(Abs(tokens))
      ensures TailKept(tokens)
    {
      var token := AllocToken(tokens);
      if token == -1 { return NOMEM; }
      if toksuper != -1 {
        tokens[toksuper] := tokens[toksuper].(size := tokens[toksuper].size + 1);
      }
      tokens[token] := tokens[token].(kind := kind);
      tokens[token] := tokens[token].(start := pos);
      toksuper := toknext - 1;
      return 0;
    }

    // The backward scan for the last unclosed token below n.
    method ScanOpen(tokens: array<Token>, n: nat) returns (i: int)
      requires n <= toknext <= tokens.Length
      ensures i == LastOpen(tokens[..toknext], n)
    {
      i := n - 1;
      while i >= 0
        invariant -1 <= i < n
        invariant LastOpen(tokens[..toknext], n) == LastOpen(tokens[..toknext], i + 1)
      {
        if tokens[i].start != -1 && tokens[i].end == -1 { return i; }
        i := i - 1;
      }
    }

    // case '}' and ']' with tokens.
    method CloseBracket(kind: Kind, tokens: array<Token>) returns (r: int)
      requires Fits(tokens)
      modifies this`toksuper, tokens
      ensures Fits(tokens)
      ensures match Apply(old(Abs(tokens)), Close(kind), pos + 1, tokens.Length)
              case Go(s) => r == 0 && Abs(tokens) == s.(pos := pos)
              case Fail(code) => r == code && Abs(tokens) == old(Abs(tokens))
      ensures TailKept(tokens)
    {
      var i := ScanOpen(tokens, toknext);
      if i == -1 || tokens[i].kind != kind { return INVAL; }
      toksuper := -1;
      tokens[i] := tokens[i].(end := pos + 1);
      i := ScanOpen(tokens, i);
      if i >= 0 { toksuper := i; }
      return 0;
    }

    // case ',' with tokens: back from a key to the innermost open container.
    method NextMember(tokens: array<Token>)
      requires Fits(tokens)
      modifies this`toksuper
      ensures Fits(tokens)
      ensures Go(Abs(tokens).(pos := pos + 1)) == Apply(old(Abs(tokens)), Comma, pos + 1, tokens.Length)
    {
      if toksuper != -1 && tokens[toksuper].kind != Array && tokens[toksuper].kind != Object {
        var i := toknext - 1;
        while i >= 0
          invariant -1 <= i < toknext
          invariant LastOpenContainer(tokens[..toknext], toknext) == LastOpenContainer(tokens[..toknext], i + 1)
        {
          if tokens[i].kind == Array || tokens[i].kind == Object {
            if tokens[i].start != -1 && tokens[i].end == -1 {
              toksuper := i;
              return;
            }
          }
          i := i - 1;
        }
      }
    }

    // A string or primitive at pos, counted under the current toksuper.
    method ReadLeaf(js: string, tokens: array<Token>) returns (r: int)
      requires Fits(tokens) && !AtEnd(js, pos)
      requires js[pos] == '\"' || (Lex(js, pos).Lexed? ==> Lex(js, pos).lexeme.Leaf?)
      modifies this`pos, this`toknext, tokens
      ensures Fits(tokens)
      ensures match Step(js, old(Abs(tokens)), tokens.Length)
              case Go(s) => r == 0 && Abs(tokens) == s.(pos := pos) && pos + 1 == s.pos && toknext == old(toknext) + 1
              case Fail(code) => r == code && Abs(tokens) == old(Abs(tokens))
      ensures TailKept(tokens)
    {
      hide StringEnd, HexRun, LastOpen, LastOpenContainer;
      if js[pos] == '\"' {
        r := ParseString(js, tokens);
      } else {
        r := ParsePrimitive(js, tokens);
      }
      if r < 0 { return r; }
      if toksuper != -1 {
        tokens[toksuper] := tokens[toksuper].(size := tokens[toksuper].size + 1);
      }
    }

    // One turn of the loop in token mode, up to the final pos++.
    method Turn(js: string, tokens: array<Token>, count: nat) returns (r: int, count': nat)
      requires Fits(tokens) && !AtEnd(js, pos) && count == toknext
      modifies this, tokens
      ensures Fits(tokens)
      ensures match Step(js, old(Abs(tokens)), tokens.Length)
              case Go(s) => r == 0 && Abs(tokens).(pos := pos + 1) == s && count' == toknext
              case Fail(code) => r == code && Abs(tokens) == old(Abs(tokens))
      ensures TailKept(tokens)
    {
      var c := js[pos];
      r, count' := 0, count;
      if c == '{' || c == '[' {
        count' := count' + 1;
        r := OpenBracket(if c == '{' then Object else Array, tokens);
      } else if c == '}' || c == ']' {
        r := CloseBracket(if c == '}' then Object else Array, tokens);
      } else if c == '\t' || c == '\r' || c == '\n' || c == ' ' {
      } else if c == ':' {
        toksuper := toknext - 1;
      } else if c == ',' {
        NextMember(tokens);
      } else {
        r := ReadLeaf(js, tokens);
        if r >= 0 { count' := count' + 1; }
      }
    }

    // One turn of the loop in counting mode, up to the final pos++.
    method CountTurn(js: string, count: nat) returns (r: int, count': nat)
      requires !AtEnd(js, pos)
      modifies this`pos, this`toknext, this`toksuper
      ensures toknext == old(toknext)
      ensures match Lex(js, old(pos))
              case LexError(code) => r == code && pos == old(pos) && toksuper == old(toksuper)
              case Lexed(l, q) =>
                r == 0 && pos + 1 == q
                && toksuper == (if l.Colon? then toknext - 1 else old(toksuper))
                && count' == if l.Open? || l.Leaf? then count + 1 else count
    {
      var c := js[pos];
      r, count' := 0, count;
      if c == '{' || c == '[' {
        count' := count' + 1;
      } else if c == '\"' {
        r := ParseString(js, null);
        if r >= 0 { count' := count' + 1; }
      } else if c == ':' {
        toksuper := toknext - 1;
      } else if c != '}' && c != ']' && c != ',' && !IsBlank(c) {
        r := ParsePrimitive(js, null);
        if r >= 0 { count' := count' + 1; }
      }
    }

    // jsmn_parse.  Token mode computes Run and leaves the unused tail of the array
    // alone; counting mode computes CountRun and allocates nothing.
    method Parse(js: string, tokens: array?<Token>) returns (r: int)
      requires Fits(tokens)
      modifies this, tokens
      ensures tokens != null ==>
                Fits(tokens) && (r, Abs(tokens)) == Run(js, old(Abs(tokens)), tokens.Length)
                && TailKept(tokens)
      ensures tokens == null ==>
                (r, pos, toksuper) == CountRun(js, old(pos), old(toknext), old(toksuper), old(toknext))
                && toknext == old(toknext)
    {
      if tokens == null { r := CountAll(js); } else { r := TokenizeAll(js, tokens); }
    }

    method TokenizeAll(js: string, tokens: array<Token>) returns (r: int)
      requires Fits(tokens)
      modifies this, tokens
      ensures Fits(tokens) && (r, Abs(tokens)) == Run(js, old(Abs(tokens)), tokens.Length)
      ensures TailKept(tokens)
    {
      hide Apply, Lex;
      var count := toknext;
      ghost var result := Run(js, Abs(tokens), tokens.Length);
      while pos < |js| && js[pos] != '\0'
        invariant Fits(tokens) && count == toknext
        invariant Run(js, Abs(tokens), tokens.Length) == result
        invariant TailKept(tokens)
        decreases |js| - pos
      {
        r, count := Turn(js, tokens, count);
        if r < 0 { return r; }
        pos := pos + 1;
      }
      var i := ScanOpen(tokens, toknext);
      if i != -1 { return PART; }
      return count;
    }

    method CountAll(js: string) returns (r: int)
      modifies this
      ensures (r, pos, toksuper) == CountRun(js, old(pos), old(toknext), old(toksuper), old(toknext))
      ensures toknext == old(toknext)
    {
      var count := toknext;
      while pos < |js| && js[pos] != '\0'
        invariant toknext == old(toknext)
        invariant CountRun(js, old(pos), toknext, old(toksuper), toknext)
                  == CountRun(js, pos, toknext, toksuper, count)
        decreases |js| - pos
      {
        r, count := CountTurn(js, count);
        if r < 0 { return r; }
        pos := pos + 1;
      }
      return count;
    }
  }
}
