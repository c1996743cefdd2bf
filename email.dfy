/**
  The address pattern both advisors compile as `emailRegex`, written as a
  predicate: a non-empty local part over a fixed set of ASCII characters,
  one '@', and a dot-separated host whose labels are 1 to 63 characters of
  ASCII letters, digits and '-', starting and ending with a letter or digit.
 */
module Email {
  import opened Strings

  predicate IsAlnum(c: char) {
    'a' <= c <= 'z' || 'A' <= c <= 'Z' || '0' <= c <= '9'
  }

  /** The class `[a-zA-Z0-9.!#$%&'*+\/=?^_`{|}~-]` of the local part. */
  predicate IsLocalChar(c: char) {
    IsAlnum(c) || c in {'.', '!', '#', '$', '%', '&', '\'', '*', '+', '/', '=', '?', '^', '_', '`', '{', '|', '}', '~', '-'}
  }

  /** `[a-zA-Z0-9](?:[a-zA-Z0-9-]{0,61}[a-zA-Z0-9])?` */
  predicate IsLabel(l: string) {
    1 <= |l| <= 63 && IsAlnum(l[0]) && IsAlnum(l[|l| - 1])
    && forall i :: 0 <= i < |l| ==> IsAlnum(l[i]) || l[i] == '-'
  }

  /** A label, then any number of '.' and a label: every piece between dots is a label. */
  predicate IsHost(h: string) {
    var labels := Split(h, '.');
    forall i :: 0 <= i < |labels| ==> IsLabel(labels[i])
  }

  /**
    The whole pattern, anchored at both ends. Neither part's characters
    include '@', so a match splits at the first '@'.
   */
  predicate MatchesEmail(s: string) {
    var at := IndexOf(s, '@');
    1 <= at && (forall i :: 0 <= i < at ==> IsLocalChar(s[i])) && IsHost(s[at + 1..])
  }

  /**
    validateEmail: its length guard asks for a length both below 3 and above
    254, which no string has, so it answers exactly the pattern.
   */
  function ValidateEmail(email: string): (ok: bool)
    ensures ok <==> MatchesEmail(email)
  {
    if |email| < 3 && |email| > 254 then false else MatchesEmail(email)
  }

  /** The shortest match is three characters long, as in "a@b". */
  lemma MatchMinLength(s: string)
    requires MatchesEmail(s)
    ensures |s| >= 3
  {
    var at := IndexOf(s, '@');
    var h := s[at + 1..];
    if |h| == 0 {
      assert Split(h, '.') == [""];
      assert !IsLabel(Split(h, '.')[0]);
    }
  }

  /** An address has exactly one '@'. */
  lemma {:induction false} MatchOneAt(s: string)
    requires MatchesEmail(s)
    ensures CountChar(s, '@') == 1
  {
    var at := IndexOf(s, '@');
    var h := s[at + 1..];
    SplitParts(h, '.');
    var labels := Split(h, '.');
    assert '@' !in h by {
      if '@' in h {
        var k :| 0 <= k < |h| && h[k] == '@';
        SplitJoin(h, '.');
        AtInJoin(labels, k);
      }
    }
    assert s == s[..at] + [s[at]] + h;
    CountCharMultiset(s, '@');
    CountCharMultiset(h, '@');
    CountCharMultiset(s[..at], '@');
  }

  /** No label holds '@', so neither does their dot-join. */
  lemma {:induction false} AtInJoin(labels: seq<string>, k: int)
    requires forall i :: 0 <= i < |labels| ==> IsLabel(labels[i])
    requires 0 <= k < |Join(labels, ".")|
    ensures Join(labels, ".")[k] != '@'
    decreases |labels|
  {
    if |labels| == 1 {
      assert labels[0][k] == Join(labels, ".")[k];
    } else if |labels| > 1 {
      var rest := Join(labels[1..], ".");
      assert Join(labels, ".") == labels[0] + "." + rest;
      if k < |labels[0]| {
        assert labels[0][k] == Join(labels, ".")[k];
      } else if k > |labels[0]| {
        assert Join(labels, ".")[k] == rest[k - |labels[0]| - 1];
        AtInJoin(labels[1..], k - |labels[0]| - 1);
      }
    }
  }

}
