/** String operations the source takes from the JavaScript runtime:
    `toLowerCase`, `includes`, literal global replacement and number-to-text. */
module Text {

  /** Lower-cases one character; only the ASCII letters A-Z are mapped. */
  function LowerChar(c: char): char
  {
    if 'A' <= c <= 'Z' then (c as int + 32) as char else c
  }

  function ToLower(s: string): (r: string)
    ensures |r| == |s|
    ensures forall i :: 0 <= i < |s| ==> r[i] == LowerChar(s[i])
  {
    if s == [] then [] else [LowerChar(s[0])] + ToLower(s[1..])
  }

  predicate IsLower(s: string)
  {
    forall i :: 0 <= i < |s| ==> !('A' <= s[i] <= 'Z')
  }

  predicate StartsWith(s: string, p: string)
  {
    |p| <= |s| && s[..|p|] == p
  }

  /** `s.includes(t)`: t occurs somewhere in s (the empty string always does). */
  predicate Contains(s: string, t: string)
    decreases |s|
  {
    StartsWith(s, t) || (|s| > 0 && Contains(s[1..], t))
  }

  /** t occurs in s at position i. */
  predicate OccursAt(s: string, t: string, i: int)
  {
    0 <= i <= |s| - |t| && s[i..i + |t|] == t
  }

  /** `includes` agrees with the positional reading: some window of s equals t. */
  lemma {:induction false} ContainsAt(s: string, t: string)
    ensures Contains(s, t) <==> exists i :: OccursAt(s, t, i)
    decreases |s|
  {
    if Contains(s, t) {
      if StartsWith(s, t) {
        assert OccursAt(s, t, 0);
      } else {
        ContainsAt(s[1..], t);
        var i :| OccursAt(s[1..], t, i);
        assert s[i + 1..i + 1 + |t|] == s[1..][i..i + |t|];
        assert OccursAt(s, t, i + 1);
      }
    }
    if exists i :: OccursAt(s, t, i) {
      var i :| OccursAt(s, t, i);
      if i == 0 {
        assert StartsWith(s, t);
      } else {
        assert s[1..][i - 1..i - 1 + |t|] == s[i..i + |t|];
        assert OccursAt(s[1..], t, i - 1);
        ContainsAt(s[1..], t);
      }
    }
  }

  /** An occurrence of an all-lower-case needle survives lower-casing the haystack,
      so a case-insensitive search finds whatever a case-sensitive one finds. */
  lemma {:induction false} ContainsLowered(s: string, t: string)
    requires IsLower(t)
    requires Contains(s, t)
    ensures Contains(ToLower(s), t)
    decreases |s|
  {
    if StartsWith(s, t) {
      var ls := ToLower(s);
      forall i | 0 <= i < |t| ensures ls[i] == t[i] {
        assert s[i] == t[i];
      }
      assert ls[..|t|] == t;
    } else {
      ContainsLowered(s[1..], t);
      assert ToLower(s)[1..] == ToLower(s[1..]);
    }
  }

  /** Literal `s.replace(new RegExp(from, 'g'), to)` for a pattern without regular-expression
      meta-characters: leftmost, non-overlapping occurrences, scanned left to right. */
  function ReplaceAll(s: string, from: string, to: string): string
    requires from != []
    decreases |s|
  {
    if |s| < |from| then s
    else if StartsWith(s, from) then to + ReplaceAll(s[|from|..], from, to)
    else [s[0]] + ReplaceAll(s[1..], from, to)
  }

  /** Number of occurrences `ReplaceAll` rewrites. */
  function Occurrences(s: string, from: string): nat
    requires from != []
    decreases |s|
  {
    if |s| < |from| then 0
    else if StartsWith(s, from) then 1 + Occurrences(s[|from|..], from)
    else Occurrences(s[1..], from)
  }

  /** A pattern that does not occur leaves the text untouched. */
  lemma {:induction false} ReplaceAllAbsent(s: string, from: string, to: string)
    requires from != []
    requires !Contains(s, from)
    ensures ReplaceAll(s, from, to) == s
    decreases |s|
  {
    if |s| >= |from| {
      ReplaceAllAbsent(s[1..], from, to);
      assert [s[0]] + s[1..] == s;
    }
  }

  /** The scan finds an occurrence exactly when the pattern occurs. */
  lemma {:induction false} OccurrencesPositive(s: string, from: string)
    requires from != []
    ensures Occurrences(s, from) > 0 <==> Contains(s, from)
    decreases |s|
  {
    if |s| < |from| {
      if Contains(s, from) {
        ContainsAt(s, from);
      }
    } else if !StartsWith(s, from) {
      OccurrencesPositive(s[1..], from);
    }
  }

  /** Every rewritten occurrence trades |from| characters for |to|. */
  lemma {:induction false} ReplaceAllLength(s: string, from: string, to: string)
    requires from != []
    ensures |ReplaceAll(s, from, to)| == |s| + Occurrences(s, from) * (|to| - |from|)
    decreases |s|
  {
    if |s| < |from| {
    } else if StartsWith(s, from) {
      var rest := s[|from|..];
      ReplaceAllLength(rest, from, to);
      assert ReplaceAll(s, from, to) == to + ReplaceAll(rest, from, to);
      assert Occurrences(s, from) == Occurrences(rest, from) + 1;
      MulSucc(Occurrences(rest, from), |to| - |from|);
    } else {
      ReplaceAllLength(s[1..], from, to);
      assert ReplaceAll(s, from, to) == [s[0]] + ReplaceAll(s[1..], from, to);
      assert Occurrences(s, from) == Occurrences(s[1..], from);
    }
  }

  /** One more occurrence adds one more length difference. */
  lemma MulSucc(k: int, d: int)
    ensures (k + 1) * d == k * d + d
  {
  }

  /** Replacing a pattern by itself is the identity. */
  lemma {:induction false} ReplaceAllSelf(s: string, from: string)
    requires from != []
    ensures ReplaceAll(s, from, from) == s
    decreases |s|
  {
    if |s| < |from| {
    } else if StartsWith(s, from) {
      ReplaceAllSelf(s[|from|..], from);
      assert s[..|from|] + s[|from|..] == s;
    } else {
      ReplaceAllSelf(s[1..], from);
      assert [s[0]] + s[1..] == s;
    }
  }

  function DigitChar(d: nat): char
    requires d < 10
  {
    ('0' as int + d) as char
  }

  predicate IsDigit(c: char)
  {
    '0' <= c <= '9'
  }

  /** Decimal rendering of a natural number, as a template literal `${n}` prints it. */
  function NatToString(n: nat): (r: string)
    ensures |r| > 0
    ensures forall i :: 0 <= i < |r| ==> IsDigit(r[i])
    ensures n > 0 ==> r[0] != '0'
    decreases n
  {
    if n < 10 then [DigitChar(n)] else NatToString(n / 10) + [DigitChar(n % 10)]
  }

  /** Reads a string of decimal digits back as a number. */
  function ParseDigits(s: string): nat
    requires forall i :: 0 <= i < |s| ==> IsDigit(s[i])
    decreases |s|
  {
    if s == [] then 0
    else
      var last := s[|s| - 1];
      assert IsDigit(last);
      10 * ParseDigits(s[..|s| - 1]) + (last as int - '0' as int)
  }

  /** The rendered count reads back as the same number. */
  lemma {:induction false} NatToStringRoundTrip(n: nat)
    ensures ParseDigits(NatToString(n)) == n
    decreases n
  {
    if n >= 10 {
      NatToStringRoundTrip(n / 10);
      var s := NatToString(n);
      assert s[..|s| - 1] == NatToString(n / 10);
    }
  }
}
