/** The JavaScript string operations the application relies on:
    `trim`, `toLowerCase`, `includes`, `indexOf`, `Number#toString` on
    non-negative integers and `padStart`. Strings are sequences of
    characters. */
module JsText {
  import opened Seqs

  /** The characters JavaScript's `\s` and `String.prototype.trim` treat as
      white space (WhiteSpace and LineTerminator of ECMA-262). */
  predicate IsJsSpace(c: char)
  {
    || c == ' ' || c == '\t' || c == '\n' || c == '\r'
    || c == '\U{000B}' || c == '\U{000C}' || c == '\U{00A0}' || c == '\U{1680}'
    || ('\U{2000}' <= c <= '\U{200A}')
    || c == '\U{2028}' || c == '\U{2029}' || c == '\U{202F}' || c == '\U{205F}'
    || c == '\U{3000}' || c == '\U{FEFF}'
  }

  predicate AllSpace(s: string)
  {
    forall i :: 0 <= i < |s| ==> IsJsSpace(s[i])
  }

  /** The end of the run of white space in `s` starting at `from`. */
  function SkipSpace(s: string, from: nat): (r: nat)
    requires from <= |s|
    ensures from <= r <= |s|
    ensures AllSpace(s[from..r])
    ensures r == |s| || !IsJsSpace(s[r])
    decreases |s| - from
  {
    if from < |s| && IsJsSpace(s[from]) then
      var r := SkipSpace(s, from + 1);
      var run := s[from..r];
      assert AllSpace(run) by {
        forall i | 0 < i < |run| ensures IsJsSpace(run[i]) {
          assert run[i] == s[from + 1..r][i - 1];
        }
      }
      r
    else from
  }

  /** The start of the run of white space in `s` ending at `to`. */
  function SpaceBefore(s: string, to: nat): (r: nat)
    requires to <= |s|
    ensures r <= to
    ensures AllSpace(s[r..to])
    ensures r == 0 || !IsJsSpace(s[r - 1])
  {
    if to > 0 && IsJsSpace(s[to - 1]) then
      var r := SpaceBefore(s, to - 1);
      var run := s[r..to];
      assert AllSpace(run) by {
        forall i | 0 <= i < |run| - 1 ensures IsJsSpace(run[i]) {
          assert run[i] == s[r..to - 1][i];
        }
      }
      r
    else to
  }

  /** `s` with its leading white space removed. */
  function TrimStart(s: string): (r: string)
    ensures |r| <= |s| && r == s[|s| - |r|..]
    ensures AllSpace(s[..|s| - |r|])
    ensures r == [] || !IsJsSpace(r[0])
  {
    var k := SkipSpace(s, 0);
    assert s[..k] == s[0..k];
    s[k..]
  }

  /** `s` with its trailing white space removed. */
  function TrimEnd(s: string): (r: string)
    ensures |r| <= |s| && r == s[..|r|]
    ensures AllSpace(s[|r|..])
    ensures r == [] || !IsJsSpace(r[|r| - 1])
  {
    var k := SpaceBefore(s, |s|);
    assert s[k..] == s[k..|s|];
    s[..k]
  }

  /** `s.trim()`. */
  function Trim(s: string): string
  {
    TrimEnd(TrimStart(s))
  }

  /** `r` is `s` with white space, and only white space, cut from both ends. */
  ghost predicate IsTrimOf(r: string, s: string)
  {
    && (r == [] || (!IsJsSpace(r[0]) && !IsJsSpace(r[|r| - 1])))
    && exists lead, trail :: s == lead + r + trail && AllSpace(lead) && AllSpace(trail)
  }

  /** `trim` removes exactly the white space at both ends. */
  lemma TrimSpec(s: string)
    ensures IsTrimOf(Trim(s), s)
  {
    TrimmedBetween(s, TrimStart(s), Trim(s));
  }

  /** Cutting leading white space from `s`, giving `t`, and then trailing
      white space from `t`, giving `r`, cuts white space from both ends. */
  lemma TrimmedBetween(s: string, t: string, r: string)
    requires |t| <= |s| && t == s[|s| - |t|..] && AllSpace(s[..|s| - |t|])
    requires t == [] || !IsJsSpace(t[0])
    requires |r| <= |t| && r == t[..|r|] && AllSpace(t[|r|..])
    requires r == [] || !IsJsSpace(r[|r| - 1])
    ensures IsTrimOf(r, s)
  {
    var lead, trail := s[..|s| - |t|], t[|r|..];
    assert t == r + trail;
    assert s == lead + t;
    assert s == lead + r + trail;
  }

  /** A string is blank exactly when trimming leaves nothing. */
  lemma TrimEmptyIffBlank(s: string)
    ensures Trim(s) == [] <==> AllSpace(s)
  {
    var t := TrimStart(s);
    if Trim(s) == [] {
      assert AllSpace(t[0..]);
      assert s == s[..|s| - |t|] + t;
    }
  }

  /** A run of white space ending where one is known to end starts the
      run found by `SkipSpace`: the end of the run is unique. */
  lemma {:induction false} SkipSpaceUnique(s: string, from: nat, k: nat)
    requires from <= k <= |s| && AllSpace(s[from..k])
    requires k == |s| || !IsJsSpace(s[k])
    ensures SkipSpace(s, from) == k
    decreases k - from
  {
    if from < k {
      var run, rest := s[from..k], s[from + 1..k];
      assert IsJsSpace(run[0]);
      assert AllSpace(rest) by {
        forall i | 0 <= i < |rest| ensures IsJsSpace(rest[i]) {
          assert rest[i] == run[i + 1];
        }
      }
      SkipSpaceUnique(s, from + 1, k);
    }
  }

  /** Leading white space makes no difference to the trimmed text. */
  lemma TrimSkipsLeadingSpace(s: string, n: nat)
    requires n <= |s| && AllSpace(s[..n])
    ensures Trim(s[n..]) == Trim(s)
  {
    var tail := s[n..];
    var j := SkipSpace(tail, 0);
    var run := s[0..n + j];
    assert AllSpace(run) by {
      forall i | 0 <= i < |run| ensures IsJsSpace(run[i]) {
        if i < n {
          assert run[i] == s[..n][i];
        } else {
          assert run[i] == tail[0..j][i - n];
        }
      }
    }
    if n + j < |s| {
      assert s[n + j] == tail[j];
    }
    SkipSpaceUnique(s, 0, n + j);
    assert tail[j..] == s[n + j..];
  }

  /** `c.toLowerCase()` for one character; only A to Z are mapped. */
  function LowerChar(c: char): char
  {
    if 'A' <= c <= 'Z' then (c as int + 32) as char else c
  }

  /** `s.toLowerCase()`, character by character. */
  function ToLower(s: string): (r: string)
    ensures |r| == |s|
    ensures forall i :: 0 <= i < |s| ==> r[i] == LowerChar(s[i])
  {
    seq(|s|, i requires 0 <= i < |s| => LowerChar(s[i]))
  }

  /** Lower-casing twice is lower-casing once. */
  lemma ToLowerIdempotent(s: string)
    ensures ToLower(ToLower(s)) == ToLower(s)
  {
  }

  /** `t` occurs in `s` starting at position `i`. */
  predicate OccursAt(s: string, t: string, i: int)
  {
    0 <= i && i + |t| <= |s| && s[i..i + |t|] == t
  }

  /** `s.indexOf(t, from)` for `from <= |s|`: the first position at or after
      `from` where `t` occurs. */
  function IndexOf(s: string, t: string, from: nat): (r: Option<nat>)
    requires from <= |s|
    ensures r.Some? ==> from <= r.value && OccursAt(s, t, r.value)
    ensures forall j :: from <= j && (r.None? || j < r.value) ==> !OccursAt(s, t, j)
    decreases |s| - from
  {
    if OccursAt(s, t, from) then Some(from)
    else if from == |s| then None
    else IndexOf(s, t, from + 1)
  }

  /** `indexOf` finds a given occurrence when nothing occurs between
      `from` and it. */
  lemma {:induction false} IndexOfFinds(s: string, t: string, from: nat, at: nat)
    requires from <= at && OccursAt(s, t, at)
    requires forall j :: from <= j < at ==> !OccursAt(s, t, j)
    ensures IndexOf(s, t, from) == Some(at)
    decreases at - from
  {
    if from < at {
      IndexOfFinds(s, t, from + 1, at);
    }
  }

  /** `s.includes(t)`. */
  predicate Includes(s: string, t: string)
  {
    IndexOf(s, t, 0).Some?
  }

  /** `includes` holds exactly when the text occurs somewhere. */
  lemma IncludesSpec(s: string, t: string)
    ensures Includes(s, t) <==> exists i :: OccursAt(s, t, i)
  {
  }

  predicate IsDigit(c: char)
  {
    '0' <= c <= '9'
  }

  function DigitChar(d: nat): char
    requires d < 10
  {
    ('0' as int + d) as char
  }

  /** `n.toString()` for a non-negative integer: decimal digits with no
      leading zero. */
  function NatToString(n: nat): (r: string)
    ensures |r| >= 1
    ensures forall i :: 0 <= i < |r| ==> IsDigit(r[i])
    ensures |r| > 1 ==> r[0] != '0'
  {
    if n < 10 then [DigitChar(n)] else NatToString(n / 10) + [DigitChar(n % 10)]
  }

  /** The value of a string of decimal digits (leading zeros allowed). */
  function ParseNat(s: string): nat
  {
    if s == [] then 0
    else ParseNat(s[..|s| - 1]) * 10 + (if IsDigit(s[|s| - 1]) then s[|s| - 1] as int - '0' as int else 0)
  }

  /** Reading back the decimal form of `n` gives `n`. */
  lemma {:induction false} ParseNatToString(n: nat)
    ensures ParseNat(NatToString(n)) == n
  {
    var r := NatToString(n);
    if n >= 10 {
      ParseNatToString(n / 10);
      assert r[..|r| - 1] == NatToString(n / 10);
    }
  }

  /** Distinct numbers have distinct decimal forms. */
  lemma NatToStringInjective(m: nat, n: nat)
    requires NatToString(m) == NatToString(n)
    ensures m == n
  {
    ParseNatToString(m);
    ParseNatToString(n);
  }

  /** A leading zero does not change the value of a digit string. */
  lemma {:induction false} ParseNatLeadingZero(s: string)
    ensures ParseNat(['0'] + s) == ParseNat(s)
  {
    if s != [] {
      ParseNatLeadingZero(s[..|s| - 1]);
      assert (['0'] + s)[..|s|] == ['0'] + s[..|s| - 1];
    }
  }

  /** `s.padStart(width, fill)` with a one-character fill string. */
  function PadStart(s: string, width: nat, fill: char): (r: string)
    ensures |r| == if |s| < width then width else |s|
    ensures r[|r| - |s|..] == s
    ensures forall i :: 0 <= i < |r| - |s| ==> r[i] == fill
  {
    if |s| < width then seq(width - |s|, _ => fill) + s else s
  }
}
