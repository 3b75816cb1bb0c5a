// straddslashes and straddslashesdup (cmd/alert_server/str.c): a backslash before every
// backslash and every quote of a C string.

module Escape {

  predicate NeedsSlash(c: char, quot: char) {
    c == '\\' || c == quot
  }

  // What the loop writes for s, without the terminator.
  function Escaped(s: string, quot: char): string {
    if s == "" then "" else Piece(s[0], quot) + Escaped(s[1..], quot)
  }

  function Piece(c: char, quot: char): string {
    if NeedsSlash(c, quot) then ['\\', c] else [c]
  }

  // The terminator takes the same path as every other character: when the quote is NUL
  // it gets a backslash too.
  function EscapedZ(s: string, quot: char): string {
    Escaped(s, quot) + Piece('\0', quot)
  }

  function Unescaped(t: string): string {
    if t == "" then ""
    else if t[0] == '\\' && |t| >= 2 then [t[1]] + Unescaped(t[2..])
    else [t[0]] + Unescaped(t[1..])
  }

  // ---------- the loop ----------

  lemma {:induction false} EscapedStep(s: string, k: nat, quot: char)
    requires k < |s|
    ensures Escaped(s[..k + 1], quot)
            == Escaped(s[..k], quot) + Piece(s[k], quot)
    decreases k
  {
    if k == 0 {
      assert s[..1] == [s[0]] && s[..1][1..] == "" && s[..0] == "";
    } else {
      EscapedStep(s[1..], k - 1, quot);
      assert s[..k + 1][1..] == s[1..][..k] && s[..k][1..] == s[1..][..k - 1];
    }
  }

  lemma {:induction false} EscapedConcat(a: string, b: string, quot: char)
    ensures Escaped(a + b, quot) == Escaped(a, quot) + Escaped(b, quot)
    decreases |a|
  {
    if a == "" {
      assert a + b == b;
    } else {
      hide Piece;
      EscapedConcat(a[1..], b, quot);
      assert (a + b)[0] == a[0] && (a + b)[1..] == a[1..] + b;
      assert Escaped(a + b, quot) == Piece(a[0], quot) + (Escaped(a[1..], quot) + Escaped(b, quot));
    }
  }

  // The bytes of a C string, its terminator last.
  function ByteAt(s: string, p: nat): char {
    if p < |s| then s[p] else '\0'
  }

  // What has been written after p turns of the loop.
  function Written(s: string, p: nat, quot: char): string {
    if p <= |s| then Escaped(s[..p], quot) else EscapedZ(s, quot)
  }

  lemma {:induction false} WrittenStep(s: string, p: nat, quot: char)
    requires p <= |s|
    ensures Written(s, p + 1, quot) == Written(s, p, quot) + Piece(ByteAt(s, p), quot)
    ensures |Written(s, p + 1, quot)| <= |EscapedZ(s, quot)|
  {
    hide Piece;
    if p < |s| {
      EscapedStep(s, p, quot);
      EscapedConcat(s[..p + 1], s[p + 1..], quot);
      hide Escaped;
      assert s[..p + 1] + s[p + 1..] == s;
    } else {
      assert s[..p] == s;
    }
  }

  // src holds the string s and its NUL; dst must have room for what is written.
  method Straddslashes(dst: array<char>, src: array<char>, quot: char, ghost s: string)
    requires src != dst && |s| < src.Length && src[..|s|] == s && src[|s|] == '\0' && '\0' !in s
    requires |EscapedZ(s, quot)| <= dst.Length
    modifies dst
    ensures dst[..|EscapedZ(s, quot)|] == EscapedZ(s, quot)
    ensures forall k :: |EscapedZ(s, quot)| <= k < dst.Length ==> dst[k] == old(dst[k])
  {
    var seek, p := 0, 0;
    var done := false;
    assert forall k :: 0 <= k <= |s| ==> src[k] == ByteAt(s, k);
    assert Written(s, 0, quot) == "" by { assert s[..0] == ""; }
    hide Escaped, EscapedZ, Written;
    while !done
      invariant 0 <= p <= |s| + 1 && (done <==> p == |s| + 1)
      invariant 0 <= seek <= dst.Length && dst[..seek] == Written(s, p, quot)
      invariant forall k :: seek <= k < dst.Length ==> dst[k] == old(dst[k])
      decreases |s| + 1 - p
    {
      assert src[p] == ByteAt(s, p);
      WrittenStep(s, p, quot);
      ghost var before := dst[..seek];
      if src[p] == '\\' || src[p] == quot {
        dst[seek] := '\\';
        seek := seek + 1;
      }
      dst[seek] := src[p];
      done := src[p] == '\0';
      seek := seek + 1;
      assert dst[..seek] == before + Piece(src[p], quot);
      p := p + 1;
    }
    WrittenAll(s, quot);
  }

  lemma {:induction false} WrittenAll(s: string, quot: char)
    ensures Written(s, |s| + 1, quot) == EscapedZ(s, quot)
  {
  }

  // ---------- what the escaping is for ----------

  // Unescaping gives the original back, whatever the quote.
  lemma {:induction false} UnescapeInverts(s: string, quot: char)
    ensures Unescaped(Escaped(s, quot)) == s
  {
    if s != "" {
      UnescapeInverts(s[1..], quot);
      var t := Escaped(s, quot);
      if NeedsSlash(s[0], quot) {
        assert t == ['\\', s[0]] + Escaped(s[1..], quot);
        assert t[2..] == Escaped(s[1..], quot);
      } else {
        assert t == [s[0]] + Escaped(s[1..], quot);
        assert t[1..] == Escaped(s[1..], quot);
      }
    }
  }

  lemma {:induction false} EscapedInjective(a: string, b: string, quot: char)
    requires Escaped(a, quot) == Escaped(b, quot)
    ensures a == b
  {
    UnescapeInverts(a, quot);
    UnescapeInverts(b, quot);
  }

  // How many backslashes in a row end just before k.
  function SlashRun(t: string, k: nat): (n: nat)
    requires k <= |t|
    ensures n <= k
  {
    if k > 0 && t[k - 1] == '\\' then 1 + SlashRun(t, k - 1) else 0
  }

  lemma {:induction false} SlashRunPrefix(t: string, u: string, k: nat)
    requires k <= |t|
    ensures SlashRun(t + u, k) == SlashRun(t, k)
    decreases k
  {
    if k > 0 && t[k - 1] == '\\' { SlashRunPrefix(t, u, k - 1); }
  }

  ghost predicate QuotesEscaped(t: string, quot: char) {
    && SlashRun(t, |t|) % 2 == 0
    && forall k :: 0 <= k < |t| && t[k] == quot ==> SlashRun(t, k) % 2 == 1
  }

  lemma {:induction false} QuotesEscapedSnoc(t: string, c: char, quot: char)
    requires QuotesEscaped(t, quot) && quot != '\\'
    ensures QuotesEscaped(t + Piece(c, quot), quot)
  {
    var piece := Piece(c, quot);
    var u := t + piece;
    SlashRunPrefix(t, piece, |t|);
    assert SlashRun(u, |t|) % 2 == 0;
    if |piece| == 2 {
      assert u[|t|] == '\\' && u[|t| + 1] == c;
      assert SlashRun(u, |t| + 1) == SlashRun(u, |t|) + 1;
    } else {
      assert u[|t|] == c;
    }
    forall k | 0 <= k < |u| && u[k] == quot ensures SlashRun(u, k) % 2 == 1 {
      if k < |t| { SlashRunPrefix(t, piece, k); }
    }
  }

  // Every quote in the output ends an odd run of backslashes, and the output does not
  // end in one, so neither does it free a quote written after it.
  lemma {:induction false} EveryQuoteEscaped(s: string, quot: char)
    requires quot != '\\'
    ensures QuotesEscaped(Escaped(s, quot), quot)
    decreases |s|
  {
    if s != "" {
      var n := |s| - 1;
      EveryQuoteEscaped(s[..n], quot);
      EscapedStep(s, n, quot);
      QuotesEscapedSnoc(Escaped(s[..n], quot), s[n], quot);
      assert s[..n + 1] == s;
    }
  }

  // Where a reader that honours backslashes takes the literal to end.
  function LiteralEnd(t: string, p: nat, quot: char): nat
    decreases |t| - p
  {
    if p >= |t| then p
    else if t[p] == '\\' then LiteralEnd(t, p + 2, quot)
    else if t[p] == quot then p
    else LiteralEnd(t, p + 1, quot)
  }

  // Between two quotes, as client_dbsync puts it into its statement, the escaped text is
  // the whole literal, whatever follows.
  lemma {:induction false} LiteralIsWhole(before: string, s: string, quot: char, after: string)
    requires quot != '\\'
    ensures LiteralEnd(before + Escaped(s, quot) + [quot] + after, |before|, quot) == |before| + |Escaped(s, quot)|
    decreases |s|
  {
    if s != "" {
      var piece := Piece(s[0], quot);
      LiteralIsWhole(before + piece, s[1..], quot, after);
      assert Escaped(s, quot) == piece + Escaped(s[1..], quot);
      assert before + Escaped(s, quot) + [quot] + after == before + piece + Escaped(s[1..], quot) + [quot] + after;
    }
  }

  // ---------- nothing else is escaped ----------

  // Every backslash stands before a backslash or a quote, and no quote without one.
  predicate Tight(t: string, quot: char) {
    if t == "" then true
    else if t[0] == '\\' then |t| >= 2 && (t[1] == '\\' || t[1] == quot) && Tight(t[2..], quot)
    else t[0] != quot && Tight(t[1..], quot)
  }

  // The escaped text is the one tight text that unescapes to s.
  lemma {:induction false} EscapedIff(s: string, quot: char, t: string)
    ensures t == Escaped(s, quot) <==> Tight(t, quot) && Unescaped(t) == s
  {
    EscapedTight(s, quot);
    UnescapeInverts(s, quot);
    if Tight(t, quot) { TightIsEscaped(t, quot); }
  }

  lemma {:induction false} EscapedTight(s: string, quot: char)
    ensures Tight(Escaped(s, quot), quot)
    decreases |s|
  {
    if s != "" {
      EscapedTight(s[1..], quot);
      var t, rest := Escaped(s, quot), Escaped(s[1..], quot);
      if s[0] == '\\' || s[0] == quot {
        assert t == ['\\', s[0]] + rest;
        assert t[2..] == rest;
      } else {
        assert t == [s[0]] + rest;
        assert t[1..] == rest;
      }
    }
  }

  lemma {:induction false} TightIsEscaped(t: string, quot: char)
    requires Tight(t, quot)
    ensures Escaped(Unescaped(t), quot) == t
    decreases |t|
  {
    if t != "" {
      var u := Unescaped(t);
      if t[0] == '\\' {
        TightIsEscaped(t[2..], quot);
        assert u == [t[1]] + Unescaped(t[2..]);
        assert u[1..] == Unescaped(t[2..]);
        assert t == ['\\', t[1]] + t[2..];
      } else {
        TightIsEscaped(t[1..], quot);
        assert u == [t[0]] + Unescaped(t[1..]);
        assert u[1..] == Unescaped(t[1..]);
        assert t == [t[0]] + t[1..];
      }
    }
  }

  // How many characters of s are a backslash or the quote.
  function Specials(s: string, quot: char): nat {
    if s == "" then 0 else (if s[0] == '\\' || s[0] == quot then 1 else 0) + Specials(s[1..], quot)
  }

  // Each of them costs one backslash and nothing else does.
  lemma {:induction false} EscapedCount(s: string, quot: char)
    ensures |Escaped(s, quot)| == |s| + Specials(s, quot)
    ensures (forall k :: 0 <= k < |s| ==> s[k] != '\\' && s[k] != quot) ==> Escaped(s, quot) == s
    decreases |s|
  {
    if s != "" {
      EscapedCount(s[1..], quot);
      assert s == [s[0]] + s[1..];
      assert forall k :: 0 <= k < |s| - 1 ==> s[1..][k] == s[k + 1];
    }
  }

  // The terminator that follows is a NUL alone, unless the quote is NUL.
  lemma {:induction false} EscapedEnds(s: string, quot: char)
    ensures EscapedZ(s, quot) == Escaped(s, quot) + (if quot == '\0' then "\\\0" else "\0")
  {
  }

  lemma {:induction false} EscapedLength(s: string, quot: char)
    ensures |s| <= |Escaped(s, quot)| <= 2 * |s|
  {
    if s != "" { EscapedLength(s[1..], quot); }
  }

  lemma {:induction false} AllEscaped(n: nat) returns (s: string)
    ensures |s| == n && '\0' !in s && |Escaped(s, '\0')| == 2 * n
  {
    if n == 0 {
      s := "";
    } else {
      var t := AllEscaped(n - 1);
      s := ['\\'] + t;
      assert s[1..] == t;
    }
  }

  // The buffer of straddslashesdup, 2 * strlen + 1 bytes, is enough for every string
  // exactly when the quote is not NUL.
  lemma {:induction false} BufferFitsIffQuoteNotNul(quot: char)
    ensures (forall s: string :: '\0' !in s ==> |EscapedZ(s, quot)| <= 2 * |s| + 1) <==> quot != '\0'
  {
    if quot == '\0' {
      var s := AllEscaped(3);
      assert |EscapedZ(s, quot)| > 2 * |s| + 1;
    } else {
      forall s: string ensures |EscapedZ(s, quot)| <= 2 * |s| + 1 {
        EscapedLength(s, quot);
      }
    }
  }

  // With a NUL quote the terminator is escaped too, and only a string of nothing but
  // backslashes leaves no room for that.
  ghost predicate Fits(s: string, quot: char) {
    quot != '\0' || exists k :: 0 <= k < |s| && s[k] != '\\'
  }

  lemma {:induction false} NulLength(s: string)
    requires '\0' !in s
    ensures |Escaped(s, '\0')| <= 2 * |s|
    ensures |Escaped(s, '\0')| < 2 * |s| <==> Fits(s, '\0')
    decreases |s|
  {
    if s != "" {
      NulLength(s[1..]);
      assert Fits(s[1..], '\0') || s[0] != '\\' ==> Fits(s, '\0') by {
        if k :| 0 <= k < |s[1..]| && s[1..][k] != '\\' { assert s[k + 1] != '\\'; }
      }
      if k :| 0 <= k < |s| && s[k] != '\\' { assert k > 0 ==> s[1..][k - 1] != '\\'; }
      assert s[0] in s && forall c :: c in s[1..] ==> c in s;
    }
  }

  lemma {:induction false} FitsIff(s: string, quot: char)
    requires '\0' !in s
    ensures |EscapedZ(s, quot)| <= 2 * |s| + 1 <==> Fits(s, quot)
  {
    EscapedLength(s, quot);
    if quot == '\0' { NulLength(s); }
  }

  method Strlen(src: array<char>, ghost s: string) returns (len: nat)
    requires |s| < src.Length && src[..|s|] == s && src[|s|] == '\0' && '\0' !in s
    ensures len == |s|
  {
    len := 0;
    while src[len] != '\0'
      invariant 0 <= len <= |s|
      decreases |s| - len
    {
      len := len + 1;
    }
  }

  // straddslashesdup; a failed malloc is `noMemory`.
  method Straddslashesdup(src: array<char>, quot: char, noMemory: bool, ghost s: string) returns (dst: array?<char>)
    requires |s| < src.Length && src[..|s|] == s && src[|s|] == '\0' && '\0' !in s
    requires Fits(s, quot)
    ensures dst == null <==> noMemory
    ensures dst != null ==>
      && fresh(dst) && dst.Length == 2 * |s| + 1
      && |EscapedZ(s, quot)| <= dst.Length && dst[..|EscapedZ(s, quot)|] == EscapedZ(s, quot)
  {
    if noMemory { return null; }
    var len := Strlen(src, s);
    dst := new char[len * 2 + 1];
    FitsIff(s, quot);
    Straddslashes(dst, src, quot, s);
  }
}
