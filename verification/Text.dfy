/** The text operations the domain types rely on. Lower-casing is never defined
    here: whatever needs it takes the lower-casing function as a parameter, so
    its results hold for every such function. */
module Text {
  /** The Unicode White_Space property, which is what trimming removes. */
  predicate IsWhitespace(c: char) {
    var n := c as int;
    || 0x9 <= n <= 0xD || n == 0x20 || n == 0x85 || n == 0xA0 || n == 0x1680
    || 0x2000 <= n <= 0x200A || n == 0x2028 || n == 0x2029 || n == 0x202F
    || n == 0x205F || n == 0x3000
  }

  function TrimStart(s: string): string {
    if |s| > 0 && IsWhitespace(s[0]) then TrimStart(s[1..]) else s
  }

  function TrimEnd(s: string): string {
    if |s| > 0 && IsWhitespace(s[|s| - 1]) then TrimEnd(s[..|s| - 1]) else s
  }

  function Trim(s: string): string {
    TrimEnd(TrimStart(s))
  }

  /** Neither end is whitespace: exactly the strings trimming leaves alone. */
  predicate IsTrimmed(s: string) {
    |s| > 0 ==> !IsWhitespace(s[0]) && !IsWhitespace(s[|s| - 1])
  }

  lemma {:induction false} TrimStartStops(s: string)
    ensures |TrimStart(s)| > 0 ==> !IsWhitespace(TrimStart(s)[0])
  {
    if |s| > 0 && IsWhitespace(s[0]) {
      TrimStartStops(s[1..]);
    }
  }

  lemma {:induction false} TrimEndStops(s: string)
    ensures |TrimEnd(s)| > 0 ==> !IsWhitespace(TrimEnd(s)[|TrimEnd(s)| - 1])
    ensures |TrimEnd(s)| > 0 ==> |s| > 0 && TrimEnd(s)[0] == s[0]
  {
    if |s| > 0 && IsWhitespace(s[|s| - 1]) {
      TrimEndStops(s[..|s| - 1]);
    }
  }

  lemma TrimIsTrimmed(s: string)
    ensures IsTrimmed(Trim(s))
  {
    TrimStartStops(s);
    TrimEndStops(TrimStart(s));
  }

  lemma TrimmedIsFixed(s: string)
    requires IsTrimmed(s)
    ensures Trim(s) == s
  {
  }

  predicate OccursAt(text: string, part: string, i: int) {
    0 <= i <= |text| - |part| && text[i..i + |part|] == part
  }

  predicate Contains(text: string, part: string) {
    exists i :: 0 <= i <= |text| && OccursAt(text, part, i)
  }

  lemma ContainsItself(s: string)
    ensures Contains(s, s)
  {
    assert OccursAt(s, s, 0);
  }

  /** Strict order on strings by code point, which is also their order as UTF-8. */
  predicate LexLess(a: string, b: string) {
    |b| > 0 && (|a| == 0 || a[0] < b[0] || (a[0] == b[0] && LexLess(a[1..], b[1..])))
  }

  lemma {:induction false} LexTotal(a: string, b: string)
    ensures a == b || LexLess(a, b) || LexLess(b, a)
  {
    if |a| > 0 && |b| > 0 && a[0] == b[0] {
      LexTotal(a[1..], b[1..]);
      assert a == [a[0]] + a[1..] && b == [b[0]] + b[1..];
    }
  }

  lemma {:induction false} LexTransitive(a: string, b: string, c: string)
    requires LexLess(a, b) && LexLess(b, c)
    ensures LexLess(a, c)
  {
    if |a| > 0 && a[0] == b[0] && b[0] == c[0] {
      LexTransitive(a[1..], b[1..], c[1..]);
    }
  }

  predicate IsBlank(s: string) {
    forall i :: 0 <= i < |s| ==> IsWhitespace(s[i])
  }

  lemma {:induction false} TrimStartSplits(s: string) returns (before: string)
    ensures s == before + TrimStart(s) && IsBlank(before)
  {
    if |s| > 0 && IsWhitespace(s[0]) {
      var rest := TrimStartSplits(s[1..]);
      before := [s[0]] + rest;
      assert s == [s[0]] + s[1..];
    } else {
      before := [];
    }
  }

  lemma {:induction false} TrimEndSplits(s: string) returns (after: string)
    ensures s == TrimEnd(s) + after && IsBlank(after)
  {
    if |s| > 0 && IsWhitespace(s[|s| - 1]) {
      var rest := TrimEndSplits(s[..|s| - 1]);
      after := rest + [s[|s| - 1]];
      assert s == s[..|s| - 1] + [s[|s| - 1]];
    } else {
      after := [];
    }
  }

  /** Trimming takes white space off both ends and nothing else: there is one way to do that. */
  lemma TrimIff(s: string, t: string)
    ensures t == Trim(s) <==>
            IsTrimmed(t) && exists before, after :: IsBlank(before) && IsBlank(after) && s == before + t + after
  {
    var before := TrimStartSplits(s);
    var after := TrimEndSplits(TrimStart(s));
    TrimIsTrimmed(s);
    assert s == before + Trim(s) + after;
    if IsTrimmed(t) {
      if b, a :| IsBlank(b) && IsBlank(a) && s == b + t + a {
        OneTrimming(before, Trim(s), after, b, t, a);
      }
    }
  }

  lemma OneTrimming(before: string, t: string, after: string, b: string, u: string, a: string)
    requires before + t + after == b + u + a && IsTrimmed(t) && IsTrimmed(u)
    requires IsBlank(before) && IsBlank(after) && IsBlank(b) && IsBlank(a)
    ensures t == u
  {
    var s := before + t + after;
    if |t| > 0 {
      InkAt(before, t, after);
      BlankElsewhere(b, u, a, |before|);
      BlankElsewhere(b, u, a, |before| + |t| - 1);
    }
    if |u| > 0 {
      InkAt(b, u, a);
      BlankElsewhere(before, t, after, |b|);
      BlankElsewhere(before, t, after, |b| + |u| - 1);
    }
    assert t == s[|before|..|before| + |t|];
    assert u == s[|b|..|b| + |u|];
  }

  lemma InkAt(before: string, t: string, after: string)
    requires |t| > 0 && IsTrimmed(t)
    ensures !IsWhitespace((before + t + after)[|before|])
    ensures !IsWhitespace((before + t + after)[|before| + |t| - 1])
  {
  }

  lemma BlankElsewhere(before: string, t: string, after: string, k: nat)
    requires IsBlank(before) && IsBlank(after) && k < |before + t + after|
    requires !IsWhitespace((before + t + after)[k])
    ensures |before| <= k < |before| + |t|
  {
  }

  lemma BlankIff(s: string)
    ensures IsBlank(s) <==> |Trim(s)| == 0
  {
    if IsBlank(s) {
      assert IsBlank(s) && IsBlank("") && s == s + "" + "";
      TrimIff(s, "");
    } else if |Trim(s)| == 0 {
      var before := TrimStartSplits(s);
      var after := TrimEndSplits(TrimStart(s));
    }
  }

  /** A string contains another exactly when it reads: something, the other, something. */
  lemma ContainsIff(text: string, part: string)
    ensures Contains(text, part) <==> exists before, after :: text == before + part + after
  {
    if i :| 0 <= i <= |text| && OccursAt(text, part, i) {
      assert text == text[..i] + part + text[i + |part|..];
    }
    if before, after :| text == before + part + after {
      assert text[|before|..|before| + |part|] == part;
      assert OccursAt(text, part, |before|);
    }
  }

  /** `b` comes later: it goes on where `a` ends, or has the larger code point where they first differ. */
  ghost predicate ComesBefore(a: string, b: string, k: nat) {
    && k <= |a| && k < |b|
    && a[..k] == b[..k]
    && (k < |a| ==> a[k] < b[k])
  }

  lemma FirstDifference(a: string, b: string, k: nat)
    requires ComesBefore(a, b, k)
    ensures k > 0 ==> |a| > 0 && a[0] == b[0]
  {
    if k > 0 {
      assert a[..k][0] == b[..k][0];
    }
  }

  lemma {:induction false} LexLessIff(a: string, b: string)
    ensures LexLess(a, b) <==> exists k: nat :: ComesBefore(a, b, k)
  {
    if |a| > 0 && |b| > 0 && a[0] == b[0] {
      LexLessIff(a[1..], b[1..]);
      assert a == [a[0]] + a[1..] && b == [b[0]] + b[1..];
      if k: nat :| ComesBefore(a[1..], b[1..], k) {
        assert a[..k + 1] == [a[0]] + a[1..][..k] && b[..k + 1] == [b[0]] + b[1..][..k];
        assert ComesBefore(a, b, k + 1);
      }
      if k: nat :| ComesBefore(a, b, k) {
        assert k > 0;
        assert a[1..][..k - 1] == a[..k][1..] && b[1..][..k - 1] == b[..k][1..];
        assert ComesBefore(a[1..], b[1..], k - 1);
      }
    } else {
      if LexLess(a, b) {
        assert ComesBefore(a, b, 0);
      }
      if k: nat :| ComesBefore(a, b, k) {
        FirstDifference(a, b, k);
      }
    }
  }
}
