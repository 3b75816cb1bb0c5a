// JSON texts of RFC 8259, sections 2 to 7, as concrete syntax trees that keep every
// byte of legal whitespace, and the values they stand for.

module Json {

  datatype Value =
    | Literal(name: string)
    | Number(minus: bool, whole: string, frac: string, exp: string)
    | Str(body: string)
    | Arr(pad: string, items: Items)
    | Obj(pad: string, members: Members)

  datatype Items =
    | NoItems
    | Item(lead: string, value: Value, trail: string, rest: Items)

  datatype Members =
    | NoMembers
    | Member(lead: string, key: string, gap: string, gap': string, value: Value, trail: string, rest: Members)

  // ---------- the printed text ----------

  function ScalarText(v: Value): string
    requires v.Literal? || v.Number?
  {
    if v.Literal? then v.name else (if v.minus then "-" else "") + v.whole + v.frac + v.exp
  }

  function Quoted(body: string): string {
    "\"" + (body + "\"")
  }

  function Text(v: Value): string
    decreases v, 0
  {
    match v
    case Literal(_) | Number(_, _, _, _) => ScalarText(v)
    case Str(body) => Quoted(body)
    case Arr(pad, items) => "[" + (pad + (ItemsText(items) + "]"))
    case Obj(pad, members) => "{" + (pad + (MembersText(members) + "}"))
  }

  function ItemsText(items: Items): string
    decreases items, 0
  {
    match items
    case NoItems => ""
    case Item(lead, value, trail, rest) => lead + (Text(value) + (trail + ItemsTail(rest)))
  }

  function ItemsTail(rest: Items): string
    decreases rest, 1
  {
    if rest.NoItems? then "" else "," + ItemsText(rest)
  }

  function MembersText(m: Members): string
    decreases m, 1
  {
    if m.NoMembers? then "" else m.lead + (Quoted(m.key) + (m.gap + FromColon(m)))
  }

  function FromColon(m: Members): string
    requires m.Member?
    decreases m, 0
  {
    ":" + (m.gap' + (Text(m.value) + (m.trail + MembersTail(m.rest))))
  }

  function MembersTail(rest: Members): string
    decreases rest, 2
  {
    if rest.NoMembers? then "" else "," + MembersText(rest)
  }

  // ---------- section 2: whitespace; 3: literals; 6: numbers; 7: strings ----------

  predicate IsWs(c: char) {
    c as int == 0x20 || c as int == 0x09 || c as int == 0x0A || c as int == 0x0D
  }

  predicate Ws(s: string) {
    forall i :: 0 <= i < |s| ==> IsWs(s[i])
  }

  predicate Digits(s: string) {
    |s| >= 1 && forall i :: 0 <= i < |s| ==> '0' <= s[i] <= '9'
  }

  predicate IntPart(s: string) {
    Digits(s) && (s[0] == '0' ==> |s| == 1)
  }

  predicate FracPart(s: string) {
    s == "" || (s[0] == '.' && Digits(s[1..]))
  }

  predicate ExpPart(s: string) {
    s == ""
    || ((s[0] == 'e' || s[0] == 'E')
        && (Digits(s[1..]) || (|s| >= 2 && (s[1] == '+' || s[1] == '-') && Digits(s[2..]))))
  }

  predicate IsHexDigit(c: char) {
    '0' <= c <= '9' || 'a' <= c <= 'f' || 'A' <= c <= 'F'
  }

  predicate IsUnescaped(c: char) {
    0x20 <= c as int <= 0x21 || 0x23 <= c as int <= 0x5B || 0x5D <= c as int <= 0x10FFFF
  }

  predicate IsEscapeLetter(c: char) {
    c == '\"' || c == '\\' || c == '/' || c == 'b' || c == 'f' || c == 'n' || c == 'r' || c == 't'
  }

  predicate StringBody(s: string) {
    if s == "" then true
    else if s[0] != '\\' then IsUnescaped(s[0]) && StringBody(s[1..])
    else if |s| >= 2 && IsEscapeLetter(s[1]) then StringBody(s[2..])
    else |s| >= 6 && s[1] == 'u' && IsHexDigit(s[2]) && IsHexDigit(s[3]) && IsHexDigit(s[4]) && IsHexDigit(s[5])
         && StringBody(s[6..])
  }

  predicate Legal(v: Value) {
    match v
    case Literal(name) => name == "true" || name == "false" || name == "null"
    case Number(_, whole, frac, exp) => IntPart(whole) && FracPart(frac) && ExpPart(exp)
    case Str(body) => StringBody(body)
    case Arr(pad, items) => Ws(pad) && LegalItems(items)
    case Obj(pad, members) => Ws(pad) && LegalMembers(members)
  }

  predicate LegalItems(items: Items) {
    match items
    case NoItems => true
    case Item(lead, value, trail, rest) => Ws(lead) && Legal(value) && Ws(trail) && LegalItems(rest)
  }

  predicate LegalMembers(members: Members) {
    match members
    case NoMembers => true
    case Member(lead, key, gap, gap', value, trail, rest) =>
      Ws(lead) && StringBody(key) && Ws(gap) && Ws(gap') && Legal(value) && Ws(trail) && LegalMembers(rest)
  }

  // JSON-text = ws value ws
  datatype Document = Document(before: string, value: Value, after: string)

  function DocumentText(d: Document): string {
    d.before + (Text(d.value) + d.after)
  }

  predicate LegalDocument(d: Document) {
    Ws(d.before) && Legal(d.value) && Ws(d.after)
  }

  function ItemCount(items: Items): nat {
    if items.NoItems? then 0 else 1 + ItemCount(items.rest)
  }

  function MemberCount(members: Members): nat {
    if members.NoMembers? then 0 else 1 + MemberCount(members.rest)
  }

  // ---------- the value, without its whitespace ----------

  datatype Tree =
    | Scalar(text: string)
    | Chars(text: string)
    | List(elements: seq<Tree>)
    | Table(pairs: seq<(string, Tree)>)

  function TreeOf(v: Value): Tree {
    match v
    case Literal(_) | Number(_, _, _, _) => Scalar(ScalarText(v))
    case Str(body) => Chars(body)
    case Arr(_, items) => List(TreesOf(items))
    case Obj(_, members) => Table(PairsOf(members))
  }

  function TreesOf(items: Items): seq<Tree> {
    if items.NoItems? then [] else [TreeOf(items.value)] + TreesOf(items.rest)
  }

  function PairsOf(members: Members): seq<(string, Tree)> {
    if members.NoMembers? then [] else [(members.key, TreeOf(members.value))] + PairsOf(members.rest)
  }
}
