/**
 Method and topic names: the recogniser written by hand accepts exactly the
 language of the published pattern, up to the length bound.
 */
module MethodNames {

  const MAX_NAME_CHARS: nat := 128

  // ---------------------------------------------------------------------
  // The source: the recogniser

  predicate Lowercase(c: char) {
    'a' <= c <= 'z'
  }

  predicate Digit(c: char) {
    '0' <= c <= '9'
  }

  predicate SegmentChar(c: char) {
    Lowercase(c) || Digit(c) || c == '-'
  }

  predicate IsValidSegment(s: string) {
    s != "" && Lowercase(s[0]) && s[|s| - 1] != '-' && forall i :: 0 <= i < |s| ==> SegmentChar(s[i])
  }

  /** The pieces between the dots: one more than there are dots. */
  function Split(name: string): (segments: seq<string>)
    ensures segments != []
  {
    if name == "" then [""]
    else
      var rest := Split(name[1..]);
      if name[0] == '.' then [""] + rest else [[name[0]] + rest[0]] + rest[1..]
  }

  method IsValidMethodName(name: string) returns (ok: bool)
    ensures ok <==> |name| <= MAX_NAME_CHARS && Matches(Pattern(), name)
  {
    PatternSplits(name);
    if |name| > MAX_NAME_CHARS {
      return false;
    }
    var segments := Split(name);
    var count := 1;
    if !IsValidSegment(segments[0]) {
      return false;
    }
    while count < |segments|
      invariant 1 <= count <= |segments|
      invariant forall i :: 0 <= i < count ==> IsValidSegment(segments[i])
    {
      if !IsValidSegment(segments[count]) {
        return false;
      }
      count := count + 1;
    }
    return count >= 2;
  }

  // ---------------------------------------------------------------------
  // The reference: regular expressions

  datatype CharClass = Letter | LetterOrDigit | LetterDigitOrDash | Dot

  predicate InClass(k: CharClass, c: char) {
    match k
    case Letter => Lowercase(c)
    case LetterOrDigit => Lowercase(c) || Digit(c)
    case LetterDigitOrDash => Lowercase(c) || Digit(c) || c == '-'
    case Dot => c == '.'
  }

  datatype Regex =
    | Nothing
    | One(k: CharClass)
    | Then(first: Regex, second: Regex)
    | Maybe(inner: Regex)
    | Star(inner: Regex)

  /** A string belongs to the language of an expression. */
  predicate Matches(r: Regex, s: string)
    decreases r, |s|
  {
    match r
    case Nothing => s == ""
    case One(k) => |s| == 1 && InClass(k, s[0])
    case Then(a, b) => exists n :: 0 <= n <= |s| && Matches(a, s[..n]) && Matches(b, s[n..])
    case Maybe(a) => s == "" || Matches(a, s)
    case Star(a) => s == "" || exists n :: 0 < n <= |s| && Matches(a, s[..n]) && Matches(Star(a), s[n..])
  }

  /** `[a-z](?:[a-z0-9-]*[a-z0-9])?` */
  function Segment(): Regex {
    Then(One(Letter), Maybe(Tail()))
  }

  function Tail(): Regex {
    Then(Star(One(LetterDigitOrDash)), One(LetterOrDigit))
  }

  /** `\.` and a segment. */
  function Dotted(): Regex {
    Then(One(Dot), Segment())
  }

  /** `^segment(?:\.segment)+$`, one or more being one and then any number. */
  function Pattern(): Regex {
    Then(Segment(), Then(Dotted(), Star(Dotted())))
  }

  // ---------------------------------------------------------------------
  // Segments

  lemma {:induction false} StarOfClass(k: CharClass, s: string)
    ensures Matches(Star(One(k)), s) <==> forall i :: 0 <= i < |s| ==> InClass(k, s[i])
    decreases |s|
  {
    hide InClass;
    if s != "" {
      StarOfClass(k, s[1..]);
      assert s == [s[0]] + s[1..];
      assert Matches(One(k), s[..1]) <==> InClass(k, s[0]);
      if Matches(Star(One(k)), s) {
        var n :| 0 < n <= |s| && Matches(One(k), s[..n]) && Matches(Star(One(k)), s[n..]);
        assert n == 1;
      }
    }
  }

  lemma TailShape(t: string)
    ensures Matches(Tail(), t) <==>
            t != "" && InClass(LetterOrDigit, t[|t| - 1]) && forall i :: 0 <= i < |t| - 1 ==> InClass(LetterDigitOrDash, t[i])
  {
    hide InClass;
    var star, one := Star(One(LetterDigitOrDash)), One(LetterOrDigit);
    if t != "" {
      var m := |t| - 1;
      StarOfClass(LetterDigitOrDash, t[..m]);
      assert t[m..] == [t[m]];
      assert forall i :: 0 <= i < m ==> t[..m][i] == t[i];
      if Matches(Tail(), t) {
        var n :| 0 <= n <= |t| && Matches(star, t[..n]) && Matches(one, t[n..]);
        assert n == m;
      }
    }
  }

  /** A segment of the pattern is what the recogniser calls a valid segment. */
  lemma SegmentShape(s: string)
    ensures Matches(Segment(), s) <==> IsValidSegment(s)
  {
    if s != "" {
      var t := s[1..];
      TailShape(t);
      assert Matches(Segment(), s) <==> Lowercase(s[0]) && (t == "" || Matches(Tail(), t)) by {
        FirstLetter(s);
      }
      hide Matches;
      assert forall i :: 0 <= i < |t| ==> t[i] == s[i + 1];
      assert IsValidSegment(s) ==> forall i :: 0 <= i < |t| ==> SegmentChar(t[i]);
      if Lowercase(s[0]) && (t == "" || Matches(Tail(), t)) {
        forall i | 0 <= i < |s|
          ensures SegmentChar(s[i])
        {
          if i > 0 {
            assert s[i] == t[i - 1];
          }
        }
      }
    }
  }

  lemma FirstLetter(s: string)
    requires s != ""
    ensures Matches(Segment(), s) <==> Lowercase(s[0]) && Matches(Maybe(Tail()), s[1..])
  {
    hide Lowercase;
    assert Matches(One(Letter), s[..1]) <==> Lowercase(s[0]);
    if Matches(Segment(), s) {
      var n :| 0 <= n <= |s| && Matches(One(Letter), s[..n]) && Matches(Maybe(Tail()), s[n..]);
      assert n == 1;
    }
  }

  // ---------------------------------------------------------------------
  // Dots

  predicate AllValid(segments: seq<string>) {
    forall i :: 0 <= i < |segments| ==> IsValidSegment(segments[i])
  }

  /** Where the first dot is, or the length, and what that makes of the split. */
  lemma {:induction false} FirstDot(name: string) returns (n: nat)
    ensures n <= |name| && '.' !in name[..n]
    ensures n < |name| ==> name[n] == '.' && Split(name) == [name[..n]] + Split(name[n + 1..])
    ensures n == |name| ==> Split(name) == [name]
  {
    if name == "" || name[0] == '.' {
      n := 0;
    } else {
      var m := FirstDot(name[1..]);
      n := m + 1;
      assert name[..n] == [name[0]] + name[1..][..m];
      if n < |name| {
        assert name[n + 1..] == name[1..][m + 1..];
      } else {
        assert name == [name[0]] + name[1..];
      }
    }
  }

  lemma NoDotInSegment(s: string)
    requires IsValidSegment(s)
    ensures '.' !in s
  {
  }

  /** After a segment with no dot in it, a dot is the first one. */
  lemma SplitAt(name: string, n: nat)
    requires n <= |name| && '.' !in name[..n] && (n < |name| ==> name[n] == '.')
    ensures n < |name| ==> Split(name) == [name[..n]] + Split(name[n + 1..])
    ensures n == |name| ==> Split(name) == [name]
  {
    var m := FirstDot(name);
    hide Split;
    assert forall i :: 0 <= i < n ==> name[..n][i] == name[i];
    assert forall i :: 0 <= i < m ==> name[..m][i] == name[i];
    assert m == n;
  }

  /** Dotted segments, read as a split. */
  predicate DottedAll(s: string) {
    s == "" || (s[0] == '.' && AllValid(Split(s[1..])))
  }

  lemma DottedShape(s: string)
    ensures Matches(Dotted(), s) <==> s != "" && s[0] == '.' && IsValidSegment(s[1..])
  {
    hide IsValidSegment;
    if s != "" {
      SegmentShape(s[1..]);
      assert Matches(One(Dot), s[..1]) <==> s[0] == '.';
      if Matches(Dotted(), s) {
        var n :| 0 <= n <= |s| && Matches(One(Dot), s[..n]) && Matches(Segment(), s[n..]);
        assert n == 1;
      }
    }
  }

  /** One dotted segment and more of them is a longer split. */
  lemma DottedSplit(s: string, n: nat)
    requires 0 < n <= |s| && s[0] == '.' && IsValidSegment(s[1..n]) && DottedAll(s[n..])
    ensures DottedAll(s)
  {
    var t := s[1..];
    assert t[..n - 1] == s[1..n];
    NoDotInSegment(s[1..n]);
    assert n < |s| ==> t[n - 1] == s[n..][0] && t[n..] == s[n..][1..];
    SplitAt(t, n - 1);
    hide Split, IsValidSegment;
    assert n < |s| ==> AllValid(Split(t[n..]));
  }

  /** A split of valid segments begins with a dotted one. */
  lemma SplitDotted(s: string) returns (n: nat)
    requires s != "" && DottedAll(s)
    ensures 0 < n <= |s| && IsValidSegment(s[1..n]) && DottedAll(s[n..])
  {
    var t := s[1..];
    var m := FirstDot(t);
    n := m + 1;
    assert t[..m] == s[1..n];
    hide Split, IsValidSegment;
    var all := Split(t);
    assert IsValidSegment(all[0]);
    if m < |t| {
      var rest := Split(t[m + 1..]);
      assert s[n..][1..] == t[m + 1..] && s[n] == t[m];
      forall i | 0 <= i < |rest|
        ensures IsValidSegment(rest[i])
      {
        assert rest[i] == all[i + 1];
      }
    } else {
      assert t[..m] == t;
    }
  }

  lemma {:induction false} StarShape(s: string)
    ensures Matches(Star(Dotted()), s) <==> DottedAll(s)
    decreases |s|
  {
    hide Split, IsValidSegment, DottedAll, Dotted;
    if s == "" {
      NoneDotted();
    } else {
      if Matches(Star(Dotted()), s) {
        var n :| 0 < n <= |s| && Matches(Dotted(), s[..n]) && Matches(Star(Dotted()), s[n..]);
        DottedShape(s[..n]);
        assert s[..n][1..] == s[1..n];
        StarShape(s[n..]);
        DottedSplit(s, n);
      }
      if DottedAll(s) {
        var n := SplitDotted(s);
        FirstIsDot(s);
        DottedShape(s[..n]);
        assert s[..n][1..] == s[1..n];
        StarShape(s[n..]);
      }
    }
  }

  lemma NoneDotted()
    ensures DottedAll("")
  {
  }

  lemma FirstIsDot(s: string)
    requires s != "" && DottedAll(s)
    ensures s[0] == '.'
  {
  }

  lemma PlusShape(s: string)
    ensures Matches(Then(Dotted(), Star(Dotted())), s) <==> s != "" && DottedAll(s)
  {
    StarShape(s);
    DottedShape("");
    hide DottedAll, Dotted;
    if Matches(Then(Dotted(), Star(Dotted())), s) {
      var n :| 0 <= n <= |s| && Matches(Dotted(), s[..n]) && Matches(Star(Dotted()), s[n..]);
      assert s[..0] == "";
    }
  }

  /** A name is in the pattern's language just when it has two segments or more and every one is valid. */
  lemma PatternSplits(name: string)
    ensures Matches(Pattern(), name) <==> |Split(name)| >= 2 && AllValid(Split(name))
  {
    var plus := Then(Dotted(), Star(Dotted()));
    var m := FirstDot(name);
    hide Split, IsValidSegment, Dotted, Segment;
    if Matches(Pattern(), name) {
      var n :| 0 <= n <= |name| && Matches(Segment(), name[..n]) && Matches(plus, name[n..]);
      SegmentShape(name[..n]);
      PlusShape(name[n..]);
      NoDotInSegment(name[..n]);
      assert name[n] == '.' && name[n..][1..] == name[n + 1..];
      SplitAt(name, n);
    }
    if |Split(name)| >= 2 && AllValid(Split(name)) {
      var all, rest := Split(name), Split(name[m + 1..]);
      assert IsValidSegment(all[0]);
      SegmentShape(name[..m]);
      forall i | 0 <= i < |rest|
        ensures IsValidSegment(rest[i])
      {
        assert rest[i] == all[i + 1];
      }
      assert name[m..][0] == '.' && name[m..][1..] == name[m + 1..];
      PlusShape(name[m..]);
    }
  }
}
