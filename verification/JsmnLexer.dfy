// The lexical half of jsmn (cmd/alert_server/jsmn.h): where a string or an unquoted
// primitive ends, and what the byte at a position starts.  None of it looks at the
// tokens, so the counting mode, the token mode and the parent-link build share it.

module JsmnLexer {

  // Return codes of jsmn.h.
  const NOMEM: int := -1
  const INVAL: int := -2
  const PART: int := -3

  datatype Kind = Undefined | Object | Array | String | Primitive

  // The parser stops at the end of the buffer or at a NUL, whichever comes first.
  predicate AtEnd(js: string, p: nat) {
    p >= |js| || js[p] == '\0'
  }

  predicate IsBlank(c: char) {
    c == '\t' || c == '\r' || c == '\n' || c == ' '
  }

  // What ends a primitive in the non-strict build.
  predicate IsTerminator(c: char) {
    c == ':' || IsBlank(c) || c == ',' || c == ']' || c == '}'
  }

  predicate IsPrintable(c: char) {
    32 <= c as int < 127
  }

  predicate IsHex(c: char) {
    48 <= c as int <= 57 || 65 <= c as int <= 70 || 97 <= c as int <= 102
  }

  predicate IsSimpleEscape(c: char) {
    c == '\"' || c == '/' || c == '\\' || c == 'b' || c == 'f' || c == 'r' || c == 'n' || c == 't'
  }

  datatype Scan = Found(at: nat) | Invalid | Partial

  // From p, skip at most n hexadecimal digits; stop early at the end of the input.
  function HexRun(js: string, p: nat, n: nat): (r: Scan)
    ensures r.Found? && p <= |js| ==> p <= r.at <= |js| && r.at <= p + n
    ensures !r.Partial?
    decreases n
  {
    if n == 0 || AtEnd(js, p) then Found(p)
    else if IsHex(js[p]) then HexRun(js, p + 1, n - 1)
    else Invalid
  }

  // The closing quote of a string whose body starts at p.
  function StringEnd(js: string, p: nat): (r: Scan)
    ensures r.Found? ==> p <= r.at < |js| && js[r.at] == '\"'
    decreases |js| - p
  {
    if AtEnd(js, p) then Partial
    else if js[p] == '\"' then Found(p)
    else if js[p] == '\\' && p + 1 < |js| then
      if IsSimpleEscape(js[p + 1]) then StringEnd(js, p + 2)
      else if js[p + 1] == 'u' then
        var h := HexRun(js, p + 2, 4);
        if h.Found? then StringEnd(js, h.at) else Invalid
      else Invalid
    else StringEnd(js, p + 1)
  }

  // The position just after a primitive that is being read at p.
  function PrimitiveEnd(js: string, p: nat): (r: Scan)
    ensures r.Found? && p <= |js| ==> p <= r.at <= |js|
    ensures !r.Partial?
    decreases |js| - p
  {
    if AtEnd(js, p) || IsTerminator(js[p]) then Found(p)
    else if !IsPrintable(js[p]) then Invalid
    else PrimitiveEnd(js, p + 1)
  }

  datatype Lexeme =
    | Open(kind: Kind)
    | Close(kind: Kind)
    | Leaf(kind: Kind, start: nat, end: nat)
    | Colon
    | Comma
    | Blank

  datatype Lexed = Lexed(lexeme: Lexeme, next: nat) | LexError(code: int)

  // What the byte at p starts, and where reading goes on after it.
  function Lex(js: string, p: nat): (r: Lexed)
    requires !AtEnd(js, p)
    ensures r.Lexed? ==> p < r.next <= |js|
    ensures r.LexError? ==> r.code == INVAL || r.code == PART
    ensures r.Lexed? && r.lexeme.Leaf? ==> p <= r.lexeme.start <= r.lexeme.end <= r.next
    ensures r.Lexed? && r.lexeme.Leaf? ==> r.lexeme.start < r.next
    ensures r.Lexed? && r.lexeme.Leaf? && r.lexeme.kind == String ==> r.lexeme.end < r.next
    ensures r.Lexed? && (r.lexeme.Open? || r.lexeme.Close?) ==>
              r.next == p + 1 && (r.lexeme.kind == Object || r.lexeme.kind == Array)
    ensures r.Lexed? && r.lexeme.Leaf? ==> r.lexeme.kind == String || r.lexeme.kind == Primitive
  {
    var c := js[p];
    if c == '{' then Lexed(Open(Object), p + 1)
    else if c == '[' then Lexed(Open(Array), p + 1)
    else if c == '}' then Lexed(Close(Object), p + 1)
    else if c == ']' then Lexed(Close(Array), p + 1)
    else if c == '\"' then
      match StringEnd(js, p + 1)
      case Found(e) => Lexed(Leaf(String, p + 1, e), e + 1)
      case Invalid => LexError(INVAL)
      case Partial => LexError(PART)
    else if IsBlank(c) then Lexed(Blank, p + 1)
    else if c == ':' then Lexed(Colon, p + 1)
    else if c == ',' then Lexed(Comma, p + 1)
    else if !IsPrintable(c) then LexError(INVAL)
    else
      match PrimitiveEnd(js, p + 1)
      case Found(e) => Lexed(Leaf(Primitive, p, e), e)
      case _ => LexError(INVAL)
  }
}
