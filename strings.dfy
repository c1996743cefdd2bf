/**
  The parts of Go's `strings` package that the scanner relies on, over
  `string` = `seq<char>` (one `char` per Unicode code point).
 */
module Strings {

  /** strings.HasPrefix */
  predicate HasPrefix(s: string, p: string) {
    |p| <= |s| && s[..|p|] == p
  }

  /** Index of the first record starting with `prefix`, or -1. */
  function FirstPrefixed(records: seq<string>, prefix: string): (i: int)
    ensures -1 <= i < |records|
    ensures 0 <= i ==> HasPrefix(records[i], prefix)
    ensures forall j :: 0 <= j < |records| && (i < 0 || j < i) ==> !HasPrefix(records[j], prefix)
    decreases |records|
  {
    if |records| == 0 then -1
    else if HasPrefix(records[0], prefix) then 0
    else
      var j := FirstPrefixed(records[1..], prefix);
      if j < 0 then -1 else j + 1
  }

  /** An occurrence of `sub` at offset `i` of `s`. */
  predicate OccursAt(s: string, sub: string, i: int) {
    0 <= i && i + |sub| <= |s| && s[i..i + |sub|] == sub
  }

  /** strings.Contains: `sub` occurs at some offset of `s`. */
  predicate Contains(s: string, sub: string) {
    exists i :: 0 <= i <= |s| && OccursAt(s, sub, i)
  }

  lemma ContainsOccurs(s: string, sub: string)
    ensures Contains(s, sub) <==> exists i :: OccursAt(s, sub, i)
  {
  }

  lemma OccursContains(s: string, sub: string, i: int)
    requires OccursAt(s, sub, i)
    ensures Contains(s, sub)
  {
  }

  /** A one-character needle is contained exactly when the character occurs. */
  lemma ContainsChar(s: string, c: char)
    ensures Contains(s, [c]) <==> c in s
  {
    if c in s {
      var i :| 0 <= i < |s| && s[i] == c;
      assert s[i..i + 1] == [c];
      assert OccursAt(s, [c], i);
    }
    if Contains(s, [c]) {
      var i :| 0 <= i <= |s| && OccursAt(s, [c], i);
      assert s[i..i + 1][0] == s[i];
    }
  }

  /** A string contains everything that occurs in one of its parts. */
  lemma {:induction false} ContainsInConcat(a: string, b: string, sub: string)
    ensures Contains(a, sub) ==> Contains(a + b, sub)
    ensures Contains(b, sub) ==> Contains(a + b, sub)
  {
    ContainsOccurs(a, sub);
    ContainsOccurs(b, sub);
    ContainsOccurs(a + b, sub);
    if Contains(a, sub) {
      var i :| OccursAt(a, sub, i);
      assert (a + b)[i..i + |sub|] == a[i..i + |sub|];
      assert OccursAt(a + b, sub, i);
    }
    if Contains(b, sub) {
      var i :| OccursAt(b, sub, i);
      assert (a + b)[|a| + i..|a| + i + |sub|] == b[i..i + |sub|];
      assert OccursAt(a + b, sub, |a| + i);
    }
  }

  /** strings.TrimPrefix */
  function TrimPrefix(s: string, p: string): (r: string)
    ensures HasPrefix(s, p) ==> s == p + r
    ensures !HasPrefix(s, p) ==> r == s
  {
    if HasPrefix(s, p) then s[|p|..] else s
  }

  /** strings.IndexByte for a single character: the first offset of `c`, or -1. */
  function IndexOf(s: string, c: char): (i: int)
    ensures -1 <= i < |s|
    ensures i == -1 <==> c !in s
    ensures 0 <= i ==> s[i] == c && c !in s[..i]
    decreases |s|
  {
    if |s| == 0 then -1
    else if s[0] == c then 0
    else
      var j := IndexOf(s[1..], c);
      if j < 0 then -1 else j + 1
  }

  /** strings.Join */
  function Join(xs: seq<string>, sep: string): string
    decreases |xs|
  {
    if |xs| == 0 then ""
    else if |xs| == 1 then xs[0]
    else xs[0] + sep + Join(xs[1..], sep)
  }

  /**
    strings.Split with a one-character separator: the pieces between
    separators, so the empty string gives one empty piece.
   */
  function Split(s: string, c: char): (parts: seq<string>)
    ensures |parts| >= 1
    decreases |s|
  {
    if |s| == 0 then [""]
    else
      var rest := Split(s[1..], c);
      if s[0] == c then [""] + rest else [[s[0]] + rest[0]] + rest[1..]
  }

  /** The parts hold no separator, and there is more than one exactly when the string holds one. */
  lemma {:induction false} SplitParts(s: string, c: char)
    ensures var parts := Split(s, c);
      (|parts| == 1 <==> c !in s) && forall i :: 0 <= i < |parts| ==> c !in parts[i]
    decreases |s|
  {
    if |s| > 0 {
      var rest := Split(s[1..], c);
      SplitParts(s[1..], c);
      assert s == [s[0]] + s[1..];
      if s[0] != c {
        var parts := [[s[0]] + rest[0]] + rest[1..];
        forall i | 0 <= i < |parts|
          ensures c !in parts[i]
        {
          if i > 0 {
            assert parts[i] == rest[i];
          }
        }
      }
    }
  }

  /** Joining the parts with the separator gives back the string. */
  lemma {:induction false} SplitJoin(s: string, c: char)
    ensures Join(Split(s, c), [c]) == s
    decreases |s|
  {
    if |s| > 0 {
      var rest := Split(s[1..], c);
      SplitJoin(s[1..], c);
      if s[0] == c {
        assert ([""] + rest)[1..] == rest;
      } else {
        var parts := [[s[0]] + rest[0]] + rest[1..];
        if |rest| > 1 {
          assert parts[1..] == rest[1..];
          assert Join(rest, [c]) == rest[0] + [c] + Join(rest[1..], [c]);
        }
      }
    }
  }

  /** strings.Split yields one part more than there are separators. */
  lemma {:induction false} SplitCount(s: string, c: char)
    ensures |Split(s, c)| == CountChar(s, c) + 1
    decreases |s|
  {
    if |s| > 0 {
      SplitCount(s[1..], c);
    }
  }

  /** The last part is empty exactly when the string is empty or ends with the separator. */
  lemma {:induction false} SplitLast(s: string, c: char)
    ensures var parts := Split(s, c); parts[|parts| - 1] == "" <==> |s| == 0 || s[|s| - 1] == c
    decreases |s|
  {
    if |s| > 0 {
      var t := s[1..];
      var rest := Split(t, c);
      var parts := Split(s, c);
      if |t| == 0 {
        assert rest == [""];
      } else {
        assert s[|s| - 1] == t[|t| - 1];
        SplitLast(t, c);
        if s[0] == c || |rest| > 1 {
          assert parts[|parts| - 1] == rest[|rest| - 1];
        } else {
          SplitParts(t, c);
          assert t[|t| - 1] in t;
          assert parts == [[s[0]] + rest[0]];
        }
      }
    }
  }

  /** Characters removed from both ends by strings.Trim with a cut predicate. */
  function TrimLeftBy(s: string, cut: char -> bool): (r: string)
    ensures |r| <= |s| && r == s[|s| - |r|..]
    ensures |r| > 0 ==> !cut(r[0])
    decreases |s|
  {
    if |s| > 0 && cut(s[0]) then TrimLeftBy(s[1..], cut) else s
  }

  function TrimRightBy(s: string, cut: char -> bool): (r: string)
    ensures |r| <= |s| && r == s[..|r|]
    ensures |r| > 0 ==> !cut(r[|r| - 1])
    decreases |s|
  {
    if |s| > 0 && cut(s[|s| - 1]) then TrimRightBy(s[..|s| - 1], cut) else s
  }

  /** strings.Trim / strings.TrimFunc: strip cut characters at both ends. */
  function TrimBy(s: string, cut: char -> bool): string {
    TrimRightBy(TrimLeftBy(s, cut), cut)
  }

  /** After strings.Trim neither end is a cut character. */
  lemma TrimByEnds(s: string, cut: char -> bool)
    ensures var r := TrimBy(s, cut); |r| > 0 ==> !cut(r[0]) && !cut(r[|r| - 1])
  {
    var l := TrimLeftBy(s, cut);
    var r := TrimRightBy(l, cut);
    if |r| > 0 {
      assert r[0] == l[0];
    }
  }

  /** unicode.IsSpace: the Unicode White_Space property. */
  predicate IsSpace(c: char) {
    ('\t' <= c <= '\r') || c == ' ' || c == '\U{85}' || c == '\U{A0}' || c == '\U{1680}'
    || ('\U{2000}' <= c <= '\U{200A}') || c == '\U{2028}' || c == '\U{2029}' || c == '\U{202F}'
    || c == '\U{205F}' || c == '\U{3000}'
  }

  /** strings.TrimSpace */
  function TrimSpace(s: string): string {
    TrimBy(s, IsSpace)
  }

  /** strings.TrimSpace changes a string exactly when it starts or ends with a space. */
  lemma TrimSpaceChanges(s: string)
    ensures TrimSpace(s) != s <==> |s| > 0 && (IsSpace(s[0]) || IsSpace(s[|s| - 1]))
  {
    var l := TrimLeftBy(s, IsSpace);
    var r := TrimRightBy(l, IsSpace);
    if |s| > 0 && IsSpace(s[0]) {
      assert TrimLeftBy(s, IsSpace) == TrimLeftBy(s[1..], IsSpace);
      assert |r| < |s|;
    } else if |s| > 0 && IsSpace(s[|s| - 1]) {
      assert l == s;
      assert |r| < |s|;
    }
  }

  /** strings.TrimLeft(s, cutset) */
  function TrimLeftSet(s: string, cutset: set<char>): (r: string)
    ensures |r| > 0 ==> r[0] !in cutset
    decreases |s|
  {
    if |s| > 0 && s[0] in cutset then TrimLeftSet(s[1..], cutset) else s
  }

  /** strings.TrimRight(s, cutset) */
  function TrimRightSet(s: string, cutset: set<char>): (r: string)
    ensures |r| <= |s| && (|r| > 0 ==> r[0] == s[0] && r[|r| - 1] !in cutset)
    decreases |s|
  {
    if |s| > 0 && s[|s| - 1] in cutset then TrimRightSet(s[..|s| - 1], cutset) else s
  }

  /** strings.Trim(s, cutset): neither end of the result is in the cutset. */
  function TrimSet(s: string, cutset: set<char>): (r: string)
    ensures |r| > 0 ==> r[0] !in cutset && r[|r| - 1] !in cutset
  {
    TrimRightSet(TrimLeftSet(s, cutset), cutset)
  }

  /** Length of the longest prefix of `s` with no cut character. */
  function SpanNot(s: string, cut: char -> bool): (k: nat)
    ensures k <= |s|
    ensures forall i :: 0 <= i < k ==> !cut(s[i])
    ensures k < |s| ==> cut(s[k])
    decreases |s|
  {
    if |s| == 0 || cut(s[0]) then 0 else 1 + SpanNot(s[1..], cut)
  }

  /** A non-empty word with no cut character. */
  predicate WordBy(w: string, cut: char -> bool) {
    |w| > 0 && forall j :: 0 <= j < |w| ==> !cut(w[j])
  }

  /** strings.FieldsFunc: the maximal runs of characters that are not cut, in order. */
  function FieldsBy(s: string, cut: char -> bool): (fs: seq<string>)
    ensures forall i :: 0 <= i < |fs| ==> WordBy(fs[i], cut)
    decreases |s|
  {
    if |s| == 0 then []
    else if cut(s[0]) then FieldsBy(s[1..], cut)
    else
      var k := SpanNot(s, cut);
      assert WordBy(s[..k], cut);
      [s[..k]] + FieldsBy(s[k..], cut)
  }

  /** A non-empty word without white space. */
  predicate IsWord(w: string) {
    WordBy(w, IsSpace)
  }

  /** strings.Fields: the maximal runs of non-space characters, in order. */
  function Fields(s: string): (fs: seq<string>)
    ensures forall i :: 0 <= i < |fs| ==> IsWord(fs[i])
  {
    FieldsBy(s, IsSpace)
  }

  /**
    An occurrence of a word (no cut character in it) in `s` lies inside one of
    the fields of `s`; the lemma returns that field's index and the offset in it.
   */
  lemma {:induction false} FieldsKeepWord(s: string, cut: char -> bool, w: string, p: int) returns (k: nat, i: int)
    requires WordBy(w, cut) && OccursAt(s, w, p)
    ensures k < |FieldsBy(s, cut)| && OccursAt(FieldsBy(s, cut)[k], w, i)
    decreases |s|
  {
    assert s[p] == w[0] by { assert s[p..p + |w|][0] == s[p]; }
    if cut(s[0]) {
      assert p > 0;
      assert s[1..][p - 1..p - 1 + |w|] == s[p..p + |w|];
      k, i := FieldsKeepWord(s[1..], cut, w, p - 1);
    } else {
      var n := SpanNot(s, cut);
      if p < n {
        assert s[..n][p..p + |w|] == s[p..p + |w|];
        k, i := 0, p;
      } else {
        assert s[n..][p - n..p - n + |w|] == s[p..p + |w|];
        var k', i' := FieldsKeepWord(s[n..], cut, w, p - n);
        k, i := k' + 1, i';
      }
    }
  }

  /** strings.ReplaceAll where the old text is the single character `c`. */
  function ReplaceChar(s: string, c: char, rep: string): (r: string)
    ensures c !in rep ==> c !in r
    ensures forall x :: x in r ==> (x in s && x != c) || x in rep
    decreases |s|
  {
    if |s| == 0 then ""
    else (if s[0] == c then rep else [s[0]]) + ReplaceChar(s[1..], c, rep)
  }

  /** strings.Count with a one-character needle. */
  function CountChar(s: string, c: char): (n: nat)
    decreases |s|
  {
    if |s| == 0 then 0 else (if s[0] == c then 1 else 0) + CountChar(s[1..], c)
  }

  /** The count is the multiplicity of the character in the string. */
  lemma {:induction false} CountCharMultiset(s: string, c: char)
    ensures CountChar(s, c) == multiset(s)[c]
    decreases |s|
  {
    if |s| > 0 {
      CountCharMultiset(s[1..], c);
      assert s == [s[0]] + s[1..];
    }
  }

  /**
    One character of strings.ToUpper. ASCII letters and the two non-ASCII
    letters whose upper case is ASCII (dotless i, long s) are mapped; every
    other character is kept.
   */
  function UpperChar(c: char): (u: char)
    ensures 'a' <= c <= 'z' ==> u as int == c as int - 32
    ensures c == '\U{131}' ==> u == 'I'
    ensures c == '\U{17F}' ==> u == 'S'
  {
    if 'a' <= c <= 'z' then (c as int - 32) as char
    else if c == '\U{131}' then 'I'
    else if c == '\U{17F}' then 'S'
    else c
  }

  /** strings.ToUpper */
  function ToUpper(s: string): (r: string)
    ensures |r| == |s|
    ensures forall i :: 0 <= i < |s| ==> r[i] == UpperChar(s[i])
  {
    seq(|s|, i requires 0 <= i < |s| => UpperChar(s[i]))
  }

  /** Decimal text of a natural number (the %d verb). */
  function NatToString(n: nat): (r: string)
    ensures |r| >= 1
    ensures forall i :: 0 <= i < |r| ==> '0' <= r[i] <= '9'
    decreases n
  {
    var d := [('0' as int + n % 10) as char];
    if n < 10 then d else NatToString(n / 10) + d
  }

  /** Decimal text of an integer (the %d / %v verbs). */
  function IntToString(n: int): string {
    if n < 0 then "-" + NatToString(-n) else NatToString(n)
  }

}
