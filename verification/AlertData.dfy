// client_alert_data (cmd/alert_server/clients.c): tokenize an alert, walk its key/value
// pairs comparing them in place under temporary NULs, and say what it reports.

module AlertData {
  import opened Json
  import opened JsonLayout
  import opened JsmnLexer
  import opened JsmnModel
  import opened JsmnInvariants
  import opened JsmnAcceptance
  import opened JsmnGrammar
  import opened JsmnModes
  import opened JsmnRoundTrip
  import Jsmn

  const MAX_TOKENS: nat := 64

  // The verdict so far and the camera address.
  datatype Alert = Alert(r: int, ip: int)

  // What one pair does.  hex stands for strtol(value, NULL, 16) stored in an address.
  function Note(a: Alert, name: string, value: string, hex: string -> int): Alert {
    if name == "Address" then (if hex(value) != 0 then a.(ip := hex(value)) else a)
    else if name == "Type" then (if value == "Alarm" && a.r == 0 then a.(r := 1) else a)
    else if name == "Event" then (if value == "MotionDetect" then a.(r := 2) else a)
    else a
  }

  // A pair starts at a string with one child that has none itself.
  predicate IsPair(toks: seq<Token>, i: nat) {
    i + 1 < |toks| && toks[i].kind == String && toks[i].size == 1 && toks[i + 1].size == 0
  }

  function WalkTokens(js: string, toks: seq<Token>, i: nat, a: Alert, hex: string -> int): Alert
    decreases |toks| - i
  {
    if i >= |toks| then a
    else if IsPair(toks, i) then
      WalkTokens(js, toks, i + 2, Note(a, Slice(js, toks[i]), Slice(js, toks[i + 1]), hex), hex)
    else WalkTokens(js, toks, i + 1, a, hex)
  }

  function Verdict(js: string, ip: int, hex: string -> int): Alert {
    var (cnt, s) := Run(js, FRESH, MAX_TOKENS);
    if cnt <= 0 || |s.toks| == 0 || s.toks[0].kind != Object || s.toks[0].size == 0 then Alert(-1, ip)
    else WalkTokens(js, s.toks, 1, Alert(0, ip), hex)
  }

  // The C string at p: up to the first NUL.
  function CString(s: string, p: nat): string
    decreases |s| - p
  {
    if AtEnd(s, p) then "" else [s[p]] + CString(s, p + 1)
  }

  lemma {:induction false} CStringIsSlice(s: string, p: nat, e: nat)
    requires p <= e < |s| && s[e] == '\0' && forall k :: p <= k < e ==> s[k] != '\0'
    ensures CString(s, p) == s[p..e]
    decreases e - p
  {
    if p < e {
      CStringIsSlice(s, p + 1, e);
      assert s[p..e] == [s[p]] + s[p + 1..e];
    }
  }

  // What the walk relies on, true of the tokens of any successful call.
  ghost predicate Readable(js: string, toks: seq<Token>) {
    && (forall i :: 0 <= i < |toks| ==> 0 <= toks[i].start <= toks[i].end <= |js|)
    && (forall i :: 0 <= i < |toks| && toks[i].kind == String && toks[i].size == 1 ==>
          i + 1 < |toks| && toks[i].end < toks[i + 1].start)
    && (forall i, k {:trigger toks[i], js[k]} :: 0 <= i < |toks| && toks[i].start <= k < toks[i].end ==> js[k] != '\0')
  }

  lemma {:induction false} SuccessIsReadable(js: string, cap: nat)
    requires Run(js, FRESH, cap).0 >= 0
    ensures Run(js, FRESH, cap).0 == |Run(js, FRESH, cap).1.toks| && Readable(js, Run(js, FRESH, cap).1.toks)
  {
    hide Run, NestedOrAfter;
    var s := Run(js, FRESH, cap).1;
    RunKeepsShape(js, FRESH, cap);
    RunReadsNoNul(js, FRESH, cap);
    SuccessClosesAll(js, FRESH, cap);
    forall i | 0 <= i < |s.toks| ensures 0 <= s.toks[i].start <= s.toks[i].end <= s.pos <= |js| {
      assert TokenFits(s.toks[i], s.pos) && !IsOpen(s.toks[i]);
    }
    forall i | 0 <= i < |s.toks| && s.toks[i].kind == String && s.toks[i].size == 1
      ensures i + 1 < |s.toks| && s.toks[i].end < s.toks[i + 1].start
    {
      LeafChildrenFollow(js, cap, i);
      StringBefore(s.toks, s.pos, i);
    }
  }

  lemma {:induction false} StringBefore(toks: seq<Token>, pos: nat, i: nat)
    requires Shape(toks, pos) && i + 1 < |toks| && toks[i].kind == String
    ensures toks[i].end < toks[i + 1].start
  {
    assert NestedOrAfter(toks[i], toks[i + 1]);
  }

  lemma {:induction false} PairReadable(js: string, toks: seq<Token>, i: nat)
    requires Readable(js, toks) && i < |toks| && toks[i].kind == String && toks[i].size == 1
    ensures i + 1 < |toks| && 0 <= toks[i].start <= toks[i].end < toks[i + 1].start <= toks[i + 1].end <= |js|
    ensures forall k :: toks[i].start <= k < toks[i].end || toks[i + 1].start <= k < toks[i + 1].end ==> js[k] != '\0'
  {
  }

  class Client {
    var data: array<char>  // pk_data, with its terminator
    var dataSize: nat      // alert_header.data_size
    var cameraIp: int

    // The buffer client_thread hands over: data_size bytes and a NUL.
    ghost predicate Valid()
      reads this, data
    {
      data.Length == dataSize + 1 && data[dataSize] == '\0'
    }

    ghost function Text(): string
      reads this, data
      requires Valid()
    {
      data[..dataSize]
    }

    constructor (data: array<char>, dataSize: nat, ip: int)
      requires data.Length == dataSize + 1 && data[dataSize] == '\0'
      ensures Valid() && this.data == data && this.dataSize == dataSize && cameraIp == ip
    {
      this.data := data;
      this.dataSize := dataSize;
      cameraIp := ip;
    }

    // Compare one pair in place: NULs over the ends of both tokens, and back.
    method ReadPair(name: Token, value: Token, a: Alert, hex: string -> int) returns (a': Alert)
      requires Valid()
      requires 0 <= name.start <= name.end < value.start <= value.end <= dataSize
      requires forall k :: name.start <= k < name.end || value.start <= k < value.end ==> data[k] != '\0'
      modifies data
      ensures data[..] == old(data[..])
      ensures a' == Note(a, Slice(Text(), name), Slice(Text(), value), hex)
    {
      var n, v := data[name.end], data[value.end];
      data[name.end] := '\0';
      data[value.end] := '\0';
      ghost var patched := data[..];
      CStringIsSlice(patched, name.start, name.end);
      CStringIsSlice(patched, value.start, value.end);
      var nameText, valueText := CString(data[..], name.start), CString(data[..], value.start);
      assert nameText == old(data[..dataSize])[name.start..name.end];
      assert valueText == old(data[..dataSize])[value.start..value.end];
      a' := a;
      if nameText == "Address" {
        var address := hex(valueText);
        if address != 0 { a' := a.(ip := address); }
      } else if nameText == "Type" {
        if valueText == "Alarm" && a.r == 0 { a' := a.(r := 1); }
      } else if nameText == "Event" {
        if valueText == "MotionDetect" { a' := a.(r := 2); }
      }
      data[name.end] := n;
      data[value.end] := v;
      assert data[..] == old(data[..]);
    }

    // The walk over the tokens after the root object.
    method ReadPairs(t: array<Token>, cnt: nat, hex: string -> int, a0: Alert) returns (a: Alert)
      requires Valid() && cnt <= t.Length && Readable(Text(), t[..cnt])
      modifies data
      ensures data[..] == old(data[..])
      ensures a == WalkTokens(old(Text()), t[..cnt], 1, a0, hex)
    {
      hide Note, Slice, Readable;
      ghost var js, toks := Text(), t[..cnt];
      a := a0;
      var i := 1;
      while i < cnt
        invariant 1 <= i && t[..cnt] == toks
        invariant data[..] == old(data[..])
        invariant WalkTokens(js, toks, 1, a0, hex) == WalkTokens(js, toks, i, a, hex)
      {
        assert toks[i] == t[i];
        if t[i].kind == String && t[i].size == 1 { PairReadable(js, toks, i); }
        if t[i].kind != String || t[i].size != 1 || t[i + 1].size != 0 {
          i := i + 1;
          continue;
        }
        assert toks[i + 1] == t[i + 1];
        a := ReadPair(t[i], t[i + 1], a, hex);
        i := i + 2;
      }
    }

    // client_alert_data
    method AlertData(hex: string -> int) returns (r: int)
      requires Valid()
      modifies this`cameraIp, data
      ensures Valid() && data[..] == old(data[..])
      ensures Alert(r, cameraIp) == Verdict(old(Text()), old(cameraIp), hex)
    {
      hide Run, WalkTokens, Readable;
      var p := new Jsmn.Parser();
      var t := new Token[MAX_TOKENS];
      ghost var js := Text();
      assert p.Abs(t) == FRESH;
      var cnt := p.Parse(data[..dataSize], t);
      assert (cnt, p.Abs(t)) == Run(js, FRESH, MAX_TOKENS);
      if cnt <= 0 { return -1; }
      SuccessIsReadable(js, MAX_TOKENS);
      assert t[..cnt] == Run(js, FRESH, MAX_TOKENS).1.toks;
      if t[0].kind != Object || t[0].size == 0 { return -1; }
      var a := ReadPairs(t, cnt, hex, Alert(0, cameraIp));
      cameraIp := a.ip;
      r := a.r;
    }
  }

  // ---------- what the verdict means for any text ----------

  // Tokens i and i + 1 are a string with one child and a child without, reading key and text.
  predicate PairReads(js: string, toks: seq<Token>, i: nat, key: string, text: string) {
    && 1 <= i && i + 1 < |toks| && toks[i].kind == String && toks[i].size == 1 && toks[i + 1].size == 0
    && Spans(js, toks[i], key) && Spans(js, toks[i + 1], text)
  }

  predicate Spans(js: string, t: Token, text: string) {
    0 <= t.start <= t.end <= |js| && js[t.start..t.end] == text
  }

  // From token i on, some pair reads key and text.
  predicate HasPairFrom(js: string, toks: seq<Token>, i: nat, key: string, text: string) {
    exists j :: i <= j < |toks| && PairReads(js, toks, j, key, text)
  }

  // Pair i names an address that is not 0.
  predicate AddressAt(js: string, toks: seq<Token>, i: nat, hex: string -> int) {
    && i + 1 < |toks| && 0 <= toks[i + 1].start <= toks[i + 1].end <= |js|
    && PairReads(js, toks, i, "Address", js[toks[i + 1].start..toks[i + 1].end])
    && hex(js[toks[i + 1].start..toks[i + 1].end]) != 0
  }

  // ip is the last address named from token i on, or the given one.
  predicate LastAddressFrom(js: string, toks: seq<Token>, i: nat, given: int, ip: int, hex: string -> int) {
    || ((forall j :: i <= j < |toks| ==> !AddressAt(js, toks, j, hex)) && ip == given)
    || exists j :: i <= j < |toks| && LastAt(js, toks, j, hex) && ip == hex(js[toks[j + 1].start..toks[j + 1].end])
  }

  predicate LastAt(js: string, toks: seq<Token>, i: nat, hex: string -> int) {
    AddressAt(js, toks, i, hex) && forall j :: i < j < |toks| ==> !AddressAt(js, toks, j, hex)
  }

  lemma {:induction false} NoPairAt(js: string, toks: seq<Token>, i: nat)
    requires i < |toks| && !IsPair(toks, i)
    ensures forall key, text :: !PairReads(js, toks, i, key, text)
  {
  }

  lemma {:induction false} HasPairSteps(js: string, toks: seq<Token>, i: nat, key: string, text: string)
    requires i < |toks|
    ensures HasPairFrom(js, toks, i, key, text)
            <==> PairReads(js, toks, i, key, text) || HasPairFrom(js, toks, i + 1, key, text)
  {
    hide PairReads;
    if j :| i <= j < |toks| && PairReads(js, toks, j, key, text) { assert j == i || i + 1 <= j; }
  }

  // Over a pair the walk takes two tokens, the second of which starts none.
  lemma {:induction false} PairStep(js: string, toks: seq<Token>, i: nat, key: string, text: string)
    requires 1 <= i && IsPair(toks, i) && Readable(js, toks)
    ensures HasPairFrom(js, toks, i, key, text)
            <==> (Slice(js, toks[i]) == key && Slice(js, toks[i + 1]) == text)
                 || HasPairFrom(js, toks, i + 2, key, text)
  {
    hide HasPairFrom;
    HasPairSteps(js, toks, i, key, text);
    HasPairSteps(js, toks, i + 1, key, text);
    assert !IsPair(toks, i + 1);
  }

  lemma {:induction false} WalkRanks(js: string, toks: seq<Token>, i: nat, a: Alert, hex: string -> int)
    requires 1 <= i && Readable(js, toks) && 0 <= a.r <= 2
    ensures WalkTokens(js, toks, i, a, hex).r
            == Ranked(a.r, HasPairFrom(js, toks, i, "Event", "MotionDetect"), HasPairFrom(js, toks, i, "Type", "Alarm"))
    decreases |toks| - i
  {
    hide HasPairFrom, Readable, Slice;
    if i >= |toks| {
      NoPairFrom(js, toks, i);
    } else if IsPair(toks, i) {
      PairStep(js, toks, i, "Event", "MotionDetect");
      PairStep(js, toks, i, "Type", "Alarm");
      assert "Address" != "Type" && "Address" != "Event" && "Type" != "Event";
      WalkRanks(js, toks, i + 2, Note(a, Slice(js, toks[i]), Slice(js, toks[i + 1]), hex), hex);
    } else {
      NoPairAt(js, toks, i);
      HasPairSteps(js, toks, i, "Event", "MotionDetect");
      HasPairSteps(js, toks, i, "Type", "Alarm");
      WalkRanks(js, toks, i + 1, a, hex);
    }
  }

  lemma {:induction false} NoPairFrom(js: string, toks: seq<Token>, i: nat)
    requires i >= |toks|
    ensures forall key, text :: !HasPairFrom(js, toks, i, key, text)
  {
  }

  lemma {:induction false} AddressStep(js: string, toks: seq<Token>, i: nat, given: int, ip: int, hex: string -> int)
    requires i < |toks|
    requires LastAddressFrom(js, toks, i + 1,
                             if AddressAt(js, toks, i, hex) then hex(js[toks[i + 1].start..toks[i + 1].end]) else given,
                             ip, hex)
    ensures LastAddressFrom(js, toks, i, given, ip, hex)
  {
    hide AddressAt;
    if forall j :: i + 1 <= j < |toks| ==> !AddressAt(js, toks, j, hex) {
      if AddressAt(js, toks, i, hex) { assert LastAt(js, toks, i, hex); }
    }
  }

  lemma {:induction false} AddressIs(js: string, toks: seq<Token>, i: nat, hex: string -> int)
    requires 1 <= i < |toks| && Readable(js, toks)
    ensures AddressAt(js, toks, i, hex)
            <==> IsPair(toks, i) && Slice(js, toks[i]) == "Address" && hex(Slice(js, toks[i + 1])) != 0
    ensures IsPair(toks, i) ==> Slice(js, toks[i + 1]) == js[toks[i + 1].start..toks[i + 1].end]
  {
  }

  lemma {:induction false} WalkAddress(js: string, toks: seq<Token>, i: nat, a: Alert, hex: string -> int)
    requires 1 <= i && Readable(js, toks)
    ensures LastAddressFrom(js, toks, i, a.ip, WalkTokens(js, toks, i, a, hex).ip, hex)
    decreases |toks| - i
  {
    hide LastAddressFrom, Readable, Slice, AddressAt;
    if i >= |toks| {
      NoAddress(js, toks, i, a.ip, hex);
    } else {
      var ip := WalkTokens(js, toks, i, a, hex).ip;
      AddressIs(js, toks, i, hex);
      if IsPair(toks, i) {
        var a' := Note(a, Slice(js, toks[i]), Slice(js, toks[i + 1]), hex);
        assert a'.ip == if AddressAt(js, toks, i, hex) then hex(Slice(js, toks[i + 1])) else a.ip;
        WalkAddress(js, toks, i + 2, a', hex);
        AddressIs(js, toks, i + 1, hex);
        AddressStep(js, toks, i + 1, a'.ip, ip, hex);
      } else {
        WalkAddress(js, toks, i + 1, a, hex);
      }
      AddressStep(js, toks, i, a.ip, ip, hex);
    }
  }

  lemma {:induction false} NoAddress(js: string, toks: seq<Token>, i: nat, ip: int, hex: string -> int)
    requires i >= |toks|
    ensures LastAddressFrom(js, toks, i, ip, ip, hex)
  {
  }

  // The tokens a text takes when there are enough.
  function AllTokens(js: string): seq<Token> {
    Run(js, FRESH, |js|).1.toks
  }

  // The texts client_alert_data reports on: balanced lexemes that take at most 64 tokens,
  // the first of them an object with something in it.
  ghost predicate Reported(js: string) {
    var toks := AllTokens(js);
    Sound(js) && 1 <= |toks| <= 64 && toks[0].kind == Object && toks[0].size != 0
  }

  lemma {:induction false} ReportedIff(js: string)
    ensures var (cnt, s) := Run(js, FRESH, MAX_TOKENS);
            Reported(js) <==> cnt > 0 && |s.toks| > 0 && s.toks[0].kind == Object && s.toks[0].size != 0
    ensures Reported(js) ==> Run(js, FRESH, MAX_TOKENS).1.toks == AllTokens(js)
  {
    hide Run, Sound;
    AcceptsSound(js, MAX_TOKENS);
    AcceptsSound(js, |js|);
    NomemIffTooFew(js, MAX_TOKENS);
    var large := if |js| > MAX_TOKENS then |js| else MAX_TOKENS;
    if Run(js, FRESH, MAX_TOKENS).0 != NOMEM { MoreTokensChangeNothing(js, FRESH, MAX_TOKENS, large); }
    if Run(js, FRESH, |js|).0 != NOMEM { MoreTokensChangeNothing(js, FRESH, |js|, large); }
    if Run(js, FRESH, MAX_TOKENS).0 >= 0 { SuccessClosesAll(js, FRESH, MAX_TOKENS); }
    if Run(js, FRESH, |js|).0 >= 0 { SuccessClosesAll(js, FRESH, |js|); }
  }

  // What the verdict is, for every buffer.
  lemma {:induction false} VerdictOfText(js: string, ip: int, hex: string -> int)
    ensures var v := Verdict(js, ip, hex);
            if !Reported(js) then v == Alert(-1, ip)
            else
              && v.r == (if HasPairFrom(js, AllTokens(js), 1, "Event", "MotionDetect") then 2
                         else if HasPairFrom(js, AllTokens(js), 1, "Type", "Alarm") then 1 else 0)
              && LastAddressFrom(js, AllTokens(js), 1, ip, v.ip, hex)
  {
    hide Run, Reported, AllTokens, HasPairFrom, LastAddressFrom, WalkTokens, Readable;
    ReportedIff(js);
    if Reported(js) {
      SuccessIsReadable(js, MAX_TOKENS);
      WalkRanks(js, AllTokens(js), 1, Alert(0, ip), hex);
      WalkAddress(js, AllTokens(js), 1, Alert(0, ip), hex);
    }
  }

  // ---------- what the verdict means for an RFC 8259 text ----------

  // Some table of the value, at any depth, pairs this key with this string.
  predicate HasPair(t: Tree, key: string, text: string) {
    match t
    case Scalar(_) | Chars(_) => false
    case List(l) => exists i :: 0 <= i < |l| && HasPair(l[i], key, text)
    case Table(l) =>
      exists i :: 0 <= i < |l| && ((l[i].0 == key && l[i].1 == Chars(text)) || HasPair(l[i].1, key, text))
  }

  predicate ItemsHavePair(l: Items, key: string, text: string) {
    l.Item? && (HasPair(TreeOf(l.value), key, text) || ItemsHavePair(l.rest, key, text))
  }

  predicate MembersHavePair(m: Members, key: string, text: string) {
    m.Member? && ((m.key == key && m.value == Str(text)) || HasPair(TreeOf(m.value), key, text)
                  || MembersHavePair(m.rest, key, text))
  }

  lemma {:induction false} ItemsPair(l: Items, key: string, text: string)
    ensures ItemsHavePair(l, key, text) <==> HasPair(List(TreesOf(l)), key, text)
    decreases l
  {
    if l.Item? {
      ItemsPair(l.rest, key, text);
      var all, rest := TreesOf(l), TreesOf(l.rest);
      assert all == [TreeOf(l.value)] + rest;
      if i :| 0 <= i < |all| && HasPair(all[i], key, text) {
        if i > 0 { assert rest[i - 1] == all[i]; }
      }
      if HasPair(TreeOf(l.value), key, text) { assert HasPair(all[0], key, text); }
      if i :| 0 <= i < |rest| && HasPair(rest[i], key, text) { assert HasPair(all[i + 1], key, text); }
    }
  }

  lemma {:induction false} MembersPair(m: Members, key: string, text: string)
    ensures MembersHavePair(m, key, text) <==> HasPair(Table(PairsOf(m)), key, text)
    decreases m
  {
    if m.Member? {
      MembersPair(m.rest, key, text);
      var all, rest := PairsOf(m), PairsOf(m.rest);
      assert all == [(m.key, TreeOf(m.value))] + rest;
      if i :| 0 <= i < |all| && ((all[i].0 == key && all[i].1 == Chars(text)) || HasPair(all[i].1, key, text)) {
        if i > 0 { assert rest[i - 1] == all[i]; }
      }
      if (m.key == key && m.value == Str(text)) || HasPair(TreeOf(m.value), key, text) {
        assert all[0] == (m.key, TreeOf(m.value));
      }
      if i :| 0 <= i < |rest| && ((rest[i].0 == key && rest[i].1 == Chars(text)) || HasPair(rest[i].1, key, text)) {
        assert all[i + 1] == rest[i];
      }
    }
  }

  // A value whose token has no children, and the text of its token.
  predicate IsBare(v: Value) {
    IsScalar(v) || (v.Arr? && v.items.NoItems?) || (v.Obj? && v.members.NoMembers?)
  }

  function HeadText(v: Value): string {
    if v.Str? then v.body else Json.Text(v)
  }

  // The walk over a value's tokens, on the value itself.
  function Notes(a: Alert, v: Value, hex: string -> int): Alert
    decreases v, 0
  {
    match v
    case Arr(_, items) => NoteItems(a, items, hex)
    case Obj(_, members) => NoteMembers(a, members, hex)
    case _ => a
  }

  function NoteItems(a: Alert, l: Items, hex: string -> int): Alert
    decreases l, 1
  {
    if l.NoItems? then a else NoteItems(Notes(a, l.value, hex), l.rest, hex)
  }

  function NoteMember(a: Alert, m: Members, hex: string -> int): Alert
    requires m.Member?
    decreases m, 0
  {
    if IsBare(m.value) then Note(a, m.key, HeadText(m.value), hex) else Notes(a, m.value, hex)
  }

  function NoteMembers(a: Alert, m: Members, hex: string -> int): Alert
    decreases m, 1
  {
    if m.NoMembers? then a else NoteMembers(NoteMember(a, m, hex), m.rest, hex)
  }

  lemma {:induction false} HeadOf(v: Value, p: nat)
    ensures var head := Layout(v, p)[0];
            && (head.size == 0 <==> IsBare(v)) && (IsBare(v) ==> |Layout(v, p)| == 1)
            && (head.kind == String <==> v.Str?)
            && (v.Arr? ==> Layout(v, p) == [head] + ItemsLayout(v.items, p + 1 + |v.pad|))
            && (v.Obj? ==> Layout(v, p) == [head] + MembersLayout(v.members, p + 1 + |v.pad|))
  {
    hide Json.Text;
  }

  lemma {:induction false} HeadSlice(js: string, v: Value, p: nat)
    requires Has(js, p, Json.Text(v))
    ensures Slice(js, Layout(v, p)[0]) == HeadText(v)
  {
    if v.Str? { QuotedBody(js, p, v.body); }
    hide Json.Text;
  }

  lemma {:induction false} HoldsHead(toks: seq<Token>, i: nat, part: seq<Token>)
    requires Holds(toks, i, part) && part != []
    ensures i < |toks| && toks[i] == part[0]
  {
    assert toks[i..i + |part|][0] == toks[i];
  }

  lemma {:induction false} WalkValue(js: string, toks: seq<Token>, i: nat, v: Value, p: nat,
                          a: Alert, hex: string -> int)
    requires Has(js, p, Json.Text(v)) && Holds(toks, i, Layout(v, p))
    ensures WalkTokens(js, toks, i, a, hex) == WalkTokens(js, toks, i + |Layout(v, p)|, Notes(a, v, hex), hex)
    decreases v, 0
  {
    hide Has, Holds, Json.Text, Layout, ItemsLayout, MembersLayout, NoteItems, NoteMembers;
    HeadOf(v, p);
    HoldsHead(toks, i, Layout(v, p));
    var head := Layout(v, p)[0];
    match v
    case Arr(pad, items) =>
      ArrPieces(js, p, v);
      HeadHolds(toks, i, head, ItemsLayout(items, p + 1 + |pad|));
      WalkItems(js, toks, i + 1, items, p + 1 + |pad|, a, hex);
    case Obj(pad, members) =>
      ObjPieces(js, p, v);
      HeadHolds(toks, i, head, MembersLayout(members, p + 1 + |pad|));
      WalkMembers(js, toks, i + 1, members, p + 1 + |pad|, a, hex);
    case Literal(_) | Number(_, _, _, _) | Str(_) =>
  }

  lemma {:induction false} WalkItems(js: string, toks: seq<Token>, i: nat, l: Items, p: nat,
                          a: Alert, hex: string -> int)
    requires Has(js, p, ItemsText(l)) && Holds(toks, i, ItemsLayout(l, p))
    ensures WalkTokens(js, toks, i, a, hex) == WalkTokens(js, toks, i + |ItemsLayout(l, p)|, NoteItems(a, l, hex), hex)
    decreases l, 0
  {
    hide Has, Holds, Json.Text, ItemsText, Layout, Notes, WalkTokens;
    if l.Item? {
      var q := p + |l.lead|;
      ItemPieces(js, p, l);
      ItemHolds(toks, i, l, p);
      WalkValue(js, toks, i, l.value, q, a, hex);
      if l.rest.Item? {
        WalkItems(js, toks, i + |Layout(l.value, q)|, l.rest, q + |Json.Text(l.value)| + |l.trail| + 1,
                  Notes(a, l.value, hex), hex);
      }
    }
  }

  lemma {:induction false} WalkMember(js: string, toks: seq<Token>, i: nat, m: Members, p: nat,
                          a: Alert, hex: string -> int)
    requires m.Member? && Has(js, p, MembersText(m)) && Holds(toks, i, MembersLayout(m, p))
    ensures WalkTokens(js, toks, i, a, hex)
            == WalkTokens(js, toks, i + 1 + |Layout(m.value, ValueStart(m, p))|, NoteMember(a, m, hex), hex)
    decreases m, 0
  {
    hide Has, Holds, Json.Text, MembersText, Layout, MembersLayout, Notes, Note;
    var q := ValueStart(m, p);
    MemberPieces(js, p, m);
    MemberHolds(toks, i, m, p);
    QuotedBody(js, p + |m.lead|, m.key);
    KeySlice(js, toks[i], m.key);
    HeadOf(m.value, q);
    HeadSlice(js, m.value, q);
    HoldsHead(toks, i + 1, Layout(m.value, q));
    hide Slice;
    if !IsBare(m.value) {
      assert WalkTokens(js, toks, i, a, hex) == WalkTokens(js, toks, i + 1, a, hex);
      WalkValue(js, toks, i + 1, m.value, q, a, hex);
    }
  }

  lemma {:induction false} KeySlice(js: string, t: Token, key: string)
    requires t.start >= 0 && Has(js, t.start, key) && t.end == t.start + |key|
    ensures Slice(js, t) == key
  {
  }

  lemma {:induction false} WalkMembers(js: string, toks: seq<Token>, i: nat, m: Members, p: nat,
                          a: Alert, hex: string -> int)
    requires Has(js, p, MembersText(m)) && Holds(toks, i, MembersLayout(m, p))
    ensures WalkTokens(js, toks, i, a, hex)
            == WalkTokens(js, toks, i + |MembersLayout(m, p)|, NoteMembers(a, m, hex), hex)
    decreases m, 1
  {
    hide Has, Holds, Json.Text, MembersText, Layout, NoteMember, WalkTokens;
    if m.Member? {
      var q := ValueStart(m, p);
      MemberPieces(js, p, m);
      MemberHolds(toks, i, m, p);
      WalkMember(js, toks, i, m, p, a, hex);
      if m.rest.Member? {
        WalkMembers(js, toks, i + 1 + |Layout(m.value, q)|, m.rest, q + |Json.Text(m.value)| + |m.trail| + 1,
                    NoteMember(a, m, hex), hex);
      }
    }
  }

  // ---------- what the notes add up to ----------

  // MotionDetect outranks Alarm, and neither is ever taken back.
  function Ranked(r: int, motion: bool, alarm: bool): int {
    if r == 2 || motion then 2 else if r == 1 || alarm then 1 else r
  }

  predicate Motion(t: Tree) { HasPair(t, "Event", "MotionDetect") }
  predicate Alarm(t: Tree) { HasPair(t, "Type", "Alarm") }

  lemma {:induction false} BareText(v: Value, text: string)
    requires Legal(v) && IsBare(v) && (text == "Alarm" || text == "MotionDetect")
    ensures HeadText(v) == text <==> v == Str(text)
    ensures !Motion(TreeOf(v)) && !Alarm(TreeOf(v))
  {
    match v
    case Number(minus, whole, _, _) =>
      assert HeadText(v)[0] == if minus then '-' else whole[0];
      assert HeadText(v)[0] != text[0];
    case Literal(_) => assert HeadText(v)[0] != text[0];
    case Str(_) =>
    case Arr(_, _) => assert HeadText(v)[0] == '[';
    case Obj(_, _) => assert HeadText(v)[0] == '{';
  }

  lemma {:induction false} NotesRank(a: Alert, v: Value, hex: string -> int)
    requires Legal(v) && 0 <= a.r <= 2
    ensures Notes(a, v, hex).r == Ranked(a.r, Motion(TreeOf(v)), Alarm(TreeOf(v)))
    decreases v, 0
  {
    match v
    case Arr(_, items) =>
      hide HasPair;
      NoteItemsRank(a, items, hex);
      ItemsPair(items, "Event", "MotionDetect");
      ItemsPair(items, "Type", "Alarm");
    case Obj(_, members) =>
      hide HasPair;
      NoteMembersRank(a, members, hex);
      MembersPair(members, "Event", "MotionDetect");
      MembersPair(members, "Type", "Alarm");
    case _ =>
  }

  lemma {:induction false} NoteItemsRank(a: Alert, l: Items, hex: string -> int)
    requires LegalItems(l) && 0 <= a.r <= 2
    ensures NoteItems(a, l, hex).r
            == Ranked(a.r, ItemsHavePair(l, "Event", "MotionDetect"), ItemsHavePair(l, "Type", "Alarm"))
    decreases l, 1
  {
    hide HasPair, Notes, TreeOf, Legal;
    if l.Item? {
      ItemUnfolds(l, 0);
      NotesRank(a, l.value, hex);
      NoteItemsRank(Notes(a, l.value, hex), l.rest, hex);
    }
  }

  lemma {:induction false} NoteMemberRank(a: Alert, m: Members, hex: string -> int)
    requires m.Member? && Legal(m.value) && 0 <= a.r <= 2
    ensures NoteMember(a, m, hex).r
            == Ranked(a.r,
                      (m.key == "Event" && m.value == Str("MotionDetect")) || Motion(TreeOf(m.value)),
                      (m.key == "Type" && m.value == Str("Alarm")) || Alarm(TreeOf(m.value)))
    decreases m, 0
  {
    hide HasPair, TreeOf, Legal, Notes, HeadText;
    if IsBare(m.value) {
      BareText(m.value, "Alarm");
      BareText(m.value, "MotionDetect");
      assert "Address" != "Type" && "Address" != "Event" && "Type" != "Event";
    } else {
      NotesRank(a, m.value, hex);
      assert IsBare(Str("MotionDetect")) && IsBare(Str("Alarm"));
    }
  }

  lemma {:induction false} NoteMembersRank(a: Alert, m: Members, hex: string -> int)
    requires LegalMembers(m) && 0 <= a.r <= 2
    ensures NoteMembers(a, m, hex).r
            == Ranked(a.r, MembersHavePair(m, "Event", "MotionDetect"), MembersHavePair(m, "Type", "Alarm"))
    decreases m, 1
  {
    hide HasPair, NoteMember, TreeOf, Legal;
    if m.Member? {
      MemberUnfolds(m, 0);
      NoteMemberRank(a, m, hex);
      NoteMembersRank(NoteMember(a, m, hex), m.rest, hex);
    }
  }

  // ---------- which address is left ----------

  // The leaf pairs of a value in document order: the key and the text of its value.
  function LeafPairs(v: Value): seq<(string, string)>
    decreases v, 0
  {
    match v
    case Arr(_, items) => ItemsLeafPairs(items)
    case Obj(_, members) => MembersLeafPairs(members)
    case _ => []
  }

  function ItemsLeafPairs(l: Items): seq<(string, string)>
    decreases l, 1
  {
    if l.NoItems? then [] else LeafPairs(l.value) + ItemsLeafPairs(l.rest)
  }

  function MemberLeafPairs(m: Members): seq<(string, string)>
    requires m.Member?
    decreases m, 0
  {
    if IsBare(m.value) then [(m.key, HeadText(m.value))] else LeafPairs(m.value)
  }

  function MembersLeafPairs(m: Members): seq<(string, string)>
    decreases m, 1
  {
    if m.NoMembers? then [] else MemberLeafPairs(m) + MembersLeafPairs(m.rest)
  }

  function NoteAll(a: Alert, pairs: seq<(string, string)>, hex: string -> int): Alert
    decreases |pairs|
  {
    if pairs == [] then a else NoteAll(Note(a, pairs[0].0, pairs[0].1, hex), pairs[1..], hex)
  }

  lemma {:induction false} NoteAllConcat(a: Alert, u: seq<(string, string)>,
                              v: seq<(string, string)>, hex: string -> int)
    ensures NoteAll(a, u + v, hex) == NoteAll(NoteAll(a, u, hex), v, hex)
    decreases |u|
  {
    hide Note;
    if u == [] {
      assert u + v == v;
    } else {
      assert (u + v)[1..] == u[1..] + v;
      NoteAllConcat(Note(a, u[0].0, u[0].1, hex), u[1..], v, hex);
    }
  }

  lemma {:induction false} NotesOfPairs(a: Alert, v: Value, hex: string -> int)
    ensures Notes(a, v, hex) == NoteAll(a, LeafPairs(v), hex)
    decreases v, 0
  {
    hide Note;
    match v
    case Arr(_, items) => NoteItemsOfPairs(a, items, hex);
    case Obj(_, members) => NoteMembersOfPairs(a, members, hex);
    case _ =>
  }

  lemma {:induction false} NoteItemsOfPairs(a: Alert, l: Items, hex: string -> int)
    ensures NoteItems(a, l, hex) == NoteAll(a, ItemsLeafPairs(l), hex)
    decreases l, 1
  {
    hide Note, Notes, LeafPairs;
    if l.Item? {
      NotesOfPairs(a, l.value, hex);
      NoteItemsOfPairs(Notes(a, l.value, hex), l.rest, hex);
      NoteAllConcat(a, LeafPairs(l.value), ItemsLeafPairs(l.rest), hex);
    }
  }

  lemma {:induction false} NoteMemberOfPairs(a: Alert, m: Members, hex: string -> int)
    requires m.Member?
    ensures NoteMember(a, m, hex) == NoteAll(a, MemberLeafPairs(m), hex)
    decreases m, 0
  {
    hide Note, Notes, LeafPairs, HeadText;
    if IsBare(m.value) {
      var pair := (m.key, HeadText(m.value));
      assert [pair][1..] == [];
    } else {
      NotesOfPairs(a, m.value, hex);
    }
  }

  lemma {:induction false} NoteMembersOfPairs(a: Alert, m: Members, hex: string -> int)
    ensures NoteMembers(a, m, hex) == NoteAll(a, MembersLeafPairs(m), hex)
    decreases m, 1
  {
    hide Note, NoteMember, MemberLeafPairs;
    if m.Member? {
      NoteMemberOfPairs(a, m, hex);
      NoteMembersOfPairs(NoteMember(a, m, hex), m.rest, hex);
      NoteAllConcat(a, MemberLeafPairs(m), MembersLeafPairs(m.rest), hex);
    }
  }

  predicate NamesAddress(pair: (string, string), hex: string -> int) {
    pair.0 == "Address" && hex(pair.1) != 0
  }

  // Pair k is the last that names an address.
  predicate LastNaming(pairs: seq<(string, string)>, k: nat, hex: string -> int)
    requires k < |pairs|
  {
    NamesAddress(pairs[k], hex) && forall j :: k < j < |pairs| ==> !NamesAddress(pairs[j], hex)
  }

  // ip is the address of the last pair that names one, or the given one.
  predicate LastAddress(pairs: seq<(string, string)>, given: int, ip: int, hex: string -> int) {
    || (exists k :: 0 <= k < |pairs| && LastNaming(pairs, k, hex) && ip == hex(pairs[k].1))
    || ((forall k :: 0 <= k < |pairs| ==> !NamesAddress(pairs[k], hex)) && ip == given)
  }

  lemma {:induction false} NoteAllAddress(a: Alert, pairs: seq<(string, string)>, hex: string -> int)
    ensures LastAddress(pairs, a.ip, NoteAll(a, pairs, hex).ip, hex)
    decreases |pairs|
  {
    if pairs != [] {
      var a', rest := Note(a, pairs[0].0, pairs[0].1, hex), pairs[1..];
      NoteAllAddress(a', rest, hex);
      assert a'.ip == if NamesAddress(pairs[0], hex) then hex(pairs[0].1) else a.ip;
      hide Note, NamesAddress;
      if k :| 0 <= k < |rest| && LastNaming(rest, k, hex) && NoteAll(a', rest, hex).ip == hex(rest[k].1) {
        assert forall j :: k + 1 < j < |pairs| ==> pairs[j] == rest[j - 1];
        assert LastNaming(pairs, k + 1, hex);
      } else {
        assert forall j :: 0 < j < |pairs| ==> pairs[j] == rest[j - 1];
        if NamesAddress(pairs[0], hex) { assert LastNaming(pairs, 0, hex); }
      }
    }
  }

  // For every RFC 8259 text: -1 unless it is an object with a member and at most 64
  // nodes; then 2 iff some object in it, at any depth, pairs Event with MotionDetect,
  // else 1 iff some pairs Type with Alarm, else 0.  The camera address is then that of
  // the last leaf pair named Address whose text is not 0 to strtol, else as before.
  lemma {:induction false} VerdictOfDocument(js: string, d: Document, ip: int, hex: string -> int)
    requires LegalDocument(d) && Has(js, 0, DocumentText(d)) && AtEnd(js, |DocumentText(d)|)
    ensures var t := TreeOf(d.value);
            Verdict(js, ip, hex).r
            == if !t.Table? || t.pairs == [] || |Layout(d.value, |d.before|)| > MAX_TOKENS then -1
               else if Motion(t) then 2 else if Alarm(t) then 1 else 0
    ensures var v := Verdict(js, ip, hex);
            if v.r == -1 then v.ip == ip else LastAddress(LeafPairs(d.value), ip, v.ip, hex)
  {
    hide Has, DocumentText, LegalDocument, Layout, Run, HasPair, Holds, AtEnd, WalkTokens, Legal, Json.Text,
         LeafPairs, Notes, NoteAll, LastAddress;
    var p := |d.before|;
    var toks := Layout(d.value, p);
    RoundTripNomem(js, d, MAX_TOKENS);
    HeadOf(d.value, p);
    if |toks| <= MAX_TOKENS {
      RoundTrip(js, d, MAX_TOKENS);
      DocumentPieces(js, d);
      RootKind(d.value, p);
      if d.value.Obj? && d.value.members.Member? {
        WalkRoot(js, d.value, p, ip, hex);
        NotesRank(Alert(0, ip), d.value, hex);
        NotesOfPairs(Alert(0, ip), d.value, hex);
        NoteAllAddress(Alert(0, ip), LeafPairs(d.value), hex);
      }
    }
  }

  lemma {:induction false} RootKind(v: Value, p: nat)
    ensures Layout(v, p)[0].kind == Object <==> v.Obj?
    ensures TreeOf(v).Table? <==> v.Obj?
    ensures v.Obj? ==> (TreeOf(v).pairs == [] <==> v.members.NoMembers?)
  {
  }

  lemma {:induction false} WalkRoot(js: string, v: Value, p: nat, ip: int, hex: string -> int)
    requires v.Obj? && Has(js, p, Json.Text(v))
    ensures WalkTokens(js, Layout(v, p), 1, Alert(0, ip), hex) == Notes(Alert(0, ip), v, hex)
  {
    hide Has, Json.Text, MembersText, MembersLayout;
    var toks, q := Layout(v, p), p + 1 + |v.pad|;
    HeadOf(v, p);
    ObjPieces(js, p, v);
    assert toks[1..1 + |MembersLayout(v.members, q)|] == MembersLayout(v.members, q);
    hide Layout;
    WalkMembers(js, toks, 1, v.members, q, Alert(0, ip), hex);
  }
}
