/** Option, the one wrapper the model needs. */
module Wrappers {
  datatype Option<+T> = None | Some(value: T)
}

/** The Python `str` built-ins the scripts use, on `seq<char>`.
    Case mapping is ASCII-only; whitespace is the set `str.isspace` accepts. */
module Text {
  import opened Wrappers

  const Whitespace: set<char> := {
    ' ', '\t', '\n', '\r', '\U{B}', '\U{C}', '\U{1C}', '\U{1D}', '\U{1E}', '\U{1F}',
    '\U{85}', '\U{A0}', '\U{1680}', '\U{2000}', '\U{2001}', '\U{2002}', '\U{2003}',
    '\U{2004}', '\U{2005}', '\U{2006}', '\U{2007}', '\U{2008}', '\U{2009}', '\U{200A}',
    '\U{2028}', '\U{2029}', '\U{202F}', '\U{205F}', '\U{3000}'
  }

  predicate IsSpace(c: char) { c in Whitespace }

  function UpperChar(c: char): char { if 'a' <= c <= 'z' then (c as int - 32) as char else c }
  function LowerChar(c: char): char { if 'A' <= c <= 'Z' then (c as int + 32) as char else c }

  /** `s.upper()` */
  function Upper(s: string): (r: string)
    ensures |r| == |s| && forall i :: 0 <= i < |s| ==> r[i] == UpperChar(s[i])
  {
    if |s| == 0 then [] else Upper(s[..|s| - 1]) + [UpperChar(s[|s| - 1])]
  }

  /** `s.lower()` */
  function Lower(s: string): (r: string)
    ensures |r| == |s| && forall i :: 0 <= i < |s| ==> r[i] == LowerChar(s[i])
  {
    if |s| == 0 then [] else Lower(s[..|s| - 1]) + [LowerChar(s[|s| - 1])]
  }

  lemma UpperAppend(a: string, b: string)
    ensures Upper(a + b) == Upper(a) + Upper(b)
  {
    assert forall i :: 0 <= i < |a + b| ==> Upper(a + b)[i] == (Upper(a) + Upper(b))[i];
  }

  /** `s.startswith(p)` */
  predicate StartsWith(s: string, p: string) { p <= s }

  /** `s.endswith(p)` */
  predicate EndsWith(s: string, p: string) { |p| <= |s| && s[|s| - |p|..] == p }

  /** `t` occurs in `s` at position `i`. */
  predicate MatchAt(s: string, t: string, i: int) {
    0 <= i && i + |t| <= |s| && s[i..i + |t|] == t
  }

  /** First occurrence of `t` in `s` at or after `from` (`s.find(t, from)`, None for -1). */
  function FindFrom(s: string, t: string, from: nat): (r: Option<nat>)
    ensures r.Some? ==> from <= r.value && MatchAt(s, t, r.value)
    ensures r.Some? ==> forall j :: from <= j < r.value ==> !MatchAt(s, t, j)
    ensures r.None? ==> forall j :: from <= j ==> !MatchAt(s, t, j)
    decreases |s| - from
  {
    if from + |t| > |s| then None
    else if s[from..from + |t|] == t then Some(from)
    else FindFrom(s, t, from + 1)
  }

  /** `s.find(t)` */
  function Find(s: string, t: string): Option<nat> { FindFrom(s, t, 0) }

  /** `t in s` */
  predicate Contains(s: string, t: string) { Find(s, t).Some? }

  lemma ContainsIff(s: string, t: string)
    ensures Contains(s, t) <==> exists i :: MatchAt(s, t, i)
  {
    if Contains(s, t) {
      assert MatchAt(s, t, Find(s, t).value);
    }
  }

  /** `t in a + t + b` */
  lemma ContainsMiddle(a: string, t: string, b: string)
    ensures Contains(a + t + b, t)
  {
    var s := a + t + b;
    assert s[|a|..|a| + |t|] == t;
    assert MatchAt(s, t, |a|);
    ContainsIff(s, t);
  }

  /** An occurrence in a part is an occurrence in the whole. */
  lemma ContainsInfix(a: string, m: string, b: string, t: string)
    requires Contains(m, t)
    ensures Contains(a + m + b, t)
  {
    var i := Find(m, t).value;
    var s := a + m + b;
    assert s[|a| + i..|a| + i + |t|] == m[i..i + |t|];
    assert MatchAt(s, t, |a| + i);
    ContainsIff(s, t);
  }

  /** Last occurrence of `t` in `s[..upto]` (`s.rfind(t)` for upto == |s|). */
  function RFindUpto(s: string, t: string, upto: nat): (r: Option<nat>)
    requires upto <= |s|
    ensures r.Some? ==> r.value + |t| <= upto && MatchAt(s, t, r.value)
    ensures r.Some? ==> forall j :: r.value < j && j + |t| <= upto ==> !MatchAt(s, t, j)
    ensures r.None? ==> forall j :: 0 <= j && j + |t| <= upto ==> !MatchAt(s, t, j)
  {
    if upto < |t| then None
    else if s[upto - |t|..upto] == t then Some(upto - |t|)
    else RFindUpto(s, t, upto - 1)
  }

  function RFind(s: string, t: string): Option<nat> { RFindUpto(s, t, |s|) }

  /** `s.count(t)`: non-overlapping occurrences, scanning left to right. */
  function Count(s: string, t: string): nat
    decreases |s|
  {
    if |t| == 0 then |s| + 1
    else if |s| < |t| then 0
    else if s[..|t|] == t then 1 + Count(s[|t|..], t)
    else Count(s[1..], t)
  }

  lemma {:induction false} CountZeroIffAbsent(s: string, t: string)
    requires |t| > 0
    ensures Count(s, t) == 0 <==> !Contains(s, t)
    decreases |s|
  {
    if |s| < |t| {
      assert forall j :: 0 <= j ==> !MatchAt(s, t, j);
    } else if s[..|t|] == t {
      assert MatchAt(s, t, 0);
    } else {
      CountZeroIffAbsent(s[1..], t);
      ContainsShift(s, t);
    }
  }

  /** Without a match at position 0, `t` occurs in `s` iff it occurs in `s[1..]`. */
  lemma ContainsShift(s: string, t: string)
    requires |s| > 0 && !MatchAt(s, t, 0)
    ensures Contains(s, t) <==> Contains(s[1..], t)
  {
    if Contains(s, t) {
      var i := Find(s, t).value;
      assert s[1..][i - 1..i - 1 + |t|] == s[i..i + |t|];
      assert MatchAt(s[1..], t, i - 1);
      ContainsIff(s[1..], t);
    }
    if Contains(s[1..], t) {
      var i := Find(s[1..], t).value;
      assert s[1..][i..i + |t|] == s[i + 1..i + 1 + |t|];
      assert MatchAt(s, t, i + 1);
      ContainsIff(s, t);
    }
  }

  /** `s.replace(pat, rep)`: every non-overlapping occurrence, left to right. */
  function Replace(s: string, pat: string, rep: string): string
    decreases |s|
  {
    if |pat| == 0 then
      if |s| == 0 then rep else rep + [s[0]] + Replace(s[1..], pat, rep)
    else if |s| < |pat| then s
    else if s[..|pat|] == pat then rep + Replace(s[|pat|..], pat, rep)
    else [s[0]] + Replace(s[1..], pat, rep)
  }

  lemma {:induction false} ReplaceSame(s: string, t: string)
    requires |t| > 0
    ensures Replace(s, t, t) == s
    decreases |s|
  {
    if |s| < |t| {
    } else if s[..|t|] == t {
      ReplaceSame(s[|t|..], t);
      assert s == s[..|t|] + s[|t|..];
    } else {
      ReplaceSame(s[1..], t);
      assert s == [s[0]] + s[1..];
    }
  }

  lemma {:induction false} ReplaceAbsent(s: string, pat: string, rep: string)
    requires |pat| > 0 && !Contains(s, pat)
    ensures Replace(s, pat, rep) == s
    decreases |s|
  {
    if |s| >= |pat| {
      assert !MatchAt(s, pat, 0);
      ContainsShift(s, pat);
      ReplaceAbsent(s[1..], pat, rep);
      assert s == [s[0]] + s[1..];
    }
  }

  /** Removing every ``` fence leaves no fence: the text between two removed fences
      never joins into a new one. */
  lemma {:induction false} ReplaceFenceClears(s: string)
    ensures !Contains(Replace(s, "```", ""), "```")
    decreases |s|
  {
    var f := "```";
    if |s| < 3 {
      ContainsIff(s, f);
    } else if s[..3] == f {
      ReplaceFenceClears(s[3..]);
      assert Replace(s, f, "") == "" + Replace(s[3..], f, "") == Replace(s[3..], f, "");
    } else {
      var x := s[1..];
      var tail := Replace(x, f, "");
      ReplaceFenceClears(x);
      var r := [s[0]] + tail;
      assert Replace(s, f, "") == r;
      assert !MatchAt(r, f, 0) by {
        if s[0] == '`' && |tail| >= 2 {
          ReplaceKeepsHead(x);
          if x[0] == '`' {
            assert x[1] != '`';
            if |x| >= 3 {
              ReplaceKeepsHead(x[1..]);
            }
            assert tail[1] != '`';
          }
        }
      }
      ContainsShift(r, f);
      assert r[1..] == tail;
    }
  }

  /** An occurrence at the head is replaced, and the rest is replaced after it. */
  lemma ReplaceAtHead(pat: string, rest: string, rep: string)
    requires |pat| > 0
    ensures Replace(pat + rest, pat, rep) == rep + Replace(rest, pat, rep)
  {
    assert (pat + rest)[..|pat|] == pat && (pat + rest)[|pat|..] == rest;
  }

  /** A closing fence after text without backticks is removed and nothing else. */
  lemma {:induction false} ReplaceTrailingFence(b: string)
    requires '`' !in b
    ensures Replace(b + "```", "```", "") == b
    decreases |b|
  {
    var f := "```";
    if |b| == 0 {
      assert b + f == f;
    } else {
      assert (b + f)[0] == b[0] && b[0] in b;
      assert (b + f)[1..] == b[1..] + f;
      assert forall c :: c in b[1..] ==> c in b;
      ReplaceTrailingFence(b[1..]);
      assert b == [b[0]] + b[1..];
    }
  }

  /** Text without backticks followed by a closing fence holds no opening "```sql". */
  lemma NoOpeningBeforeFence(b: string)
    requires '`' !in b
    ensures !Contains(b + "```", "```sql")
  {
    var s := b + "```";
    var t := "```sql";
    forall p | 0 <= p && p + |t| <= |s| ensures !MatchAt(s, t, p) {
      assert s[p] == b[p] && b[p] in b;
      assert s[p..p + |t|][0] == s[p];
    }
    ContainsIff(s, t);
  }

  /** An occurrence of `t` cannot cover a character that `t` does not hold. */
  lemma AbsentAround(a: string, c: char, b: string, t: string)
    requires c !in t && !Contains(a, t) && !Contains(b, t)
    ensures !Contains(a + [c] + b, t)
  {
    var s := a + [c] + b;
    forall p | 0 <= p && p + |t| <= |s| ensures !MatchAt(s, t, p) {
      if p + |t| <= |a| {
        assert s[p..p + |t|] == a[p..p + |t|];
        assert !MatchAt(a, t, p);
      } else if p > |a| {
        var q := p - |a| - 1;
        assert s[p..p + |t|] == b[q..q + |t|];
        assert !MatchAt(b, t, q);
      } else {
        var j := |a| - p;
        assert s[p..p + |t|][j] == c;
        assert t[j] in t;
      }
    }
    ContainsIff(s, t);
  }

  /** A text shorter than `t` does not hold it. */
  lemma ShortAbsent(s: string, t: string)
    requires |s| < |t|
    ensures !Contains(s, t)
  {
    ContainsIff(s, t);
  }

  /** Text that does not start with a fence keeps its first character through the removal. */
  lemma ReplaceKeepsHead(x: string)
    requires |x| > 0 && !(|x| >= 3 && x[..3] == "```")
    ensures var r := Replace(x, "```", "");
      |r| > 0 && r[0] == x[0]
      && (|x| >= 3 ==> r == [x[0]] + Replace(x[1..], "```", ""))
      && (|x| < 3 ==> r == x)
  {
  }

  /** A text without an occurrence of `t` has none in any slice of it. */
  lemma AbsentInSlice(s: string, t: string, i: nat, j: nat)
    requires !Contains(s, t) && i <= j <= |s|
    ensures !Contains(s[i..j], t)
  {
    if Contains(s[i..j], t) {
      var p := Find(s[i..j], t).value;
      assert s[i + p..i + p + |t|] == s[i..j][p..p + |t|];
      assert MatchAt(s, t, i + p);
      ContainsIff(s, t);
    }
  }

  /** Stripping adds no occurrence. */
  lemma StripAbsent(s: string, t: string)
    requires !Contains(s, t)
    ensures !Contains(Strip(s), t)
  {
    var a := TrimStart(s);
    AbsentInSlice(s, t, |s| - |a|, |s|);
    assert a == s[|s| - |a|..|s|];
    AbsentInSlice(a, t, 0, |Strip(s)|);
    assert Strip(s) == a[0..|Strip(s)|];
  }

  function TrimStart(s: string): (r: string)
    ensures |r| <= |s| && r == s[|s| - |r|..]
    ensures |r| > 0 ==> !IsSpace(r[0])
    decreases |s|
  {
    if |s| > 0 && IsSpace(s[0]) then TrimStart(s[1..]) else s
  }

  function TrimEnd(s: string): (r: string)
    ensures |r| <= |s| && r == s[..|r|]
    ensures |r| > 0 ==> !IsSpace(r[|r| - 1])
    decreases |s|
  {
    if |s| > 0 && IsSpace(s[|s| - 1]) then TrimEnd(s[..|s| - 1]) else s
  }

  /** End of the whitespace run starting at i. */
  function SpaceEnd(s: string, i: nat): (r: nat)
    requires i <= |s|
    ensures i <= r <= |s|
    ensures forall j :: i <= j < r ==> IsSpace(s[j])
    ensures r < |s| ==> !IsSpace(s[r])
    decreases |s| - i
  {
    if i < |s| && IsSpace(s[i]) then SpaceEnd(s, i + 1) else i
  }

  /** `s.strip()` */
  function Strip(s: string): string { TrimEnd(TrimStart(s)) }

  /** Text that starts and ends with a non-space character is its own strip. */
  lemma StripFixed(s: string)
    requires |s| > 0 && !IsSpace(s[0]) && !IsSpace(s[|s| - 1])
    ensures Strip(s) == s
  {
    assert TrimStart(s) == s;
  }

  lemma {:induction false} TrimStartFixed(s: string)
    requires |s| == 0 || !IsSpace(s[0])
    ensures TrimStart(s) == s
  {
  }

  /** The text after the last occurrence of `sep` (`s.split(sep)[-1]`); `s` itself when absent. */
  function AfterLast(s: string, sep: string): (r: string)
    requires |sep| > 0
    ensures RFind(s, sep).None? ==> r == s
    ensures RFind(s, sep).Some? ==> r == s[RFind(s, sep).value + |sep|..]
  {
    match RFind(s, sep)
    case None => s
    case Some(k) => s[k + |sep|..]
  }

  predicate IsAsciiDigit(c: char) { '0' <= c <= '9' }

  /** `s.isdigit()` on ASCII digits. */
  predicate IsDigits(s: string) { |s| > 0 && forall i :: 0 <= i < |s| ==> IsAsciiDigit(s[i]) }

  /** `int(s)` for a string of ASCII digits. */
  function DigitsValue(s: string): nat
    requires forall i :: 0 <= i < |s| ==> IsAsciiDigit(s[i])
  {
    if |s| == 0 then 0
    else
      assert IsAsciiDigit(s[|s| - 1]);
      DigitsValue(s[..|s| - 1]) * 10 + (s[|s| - 1] as int - '0' as int)
  }

  function NatToString(n: nat): (r: string)
    ensures IsDigits(r)
    ensures DigitsValue(r) == n
  {
    if n < 10 then [('0' as int + n) as char]
    else
      var r := NatToString(n / 10) + [('0' as int + n % 10) as char];
      assert r[..|r| - 1] == NatToString(n / 10);
      r
  }

  /** `str(n)` for an int. */
  function IntToString(n: int): string {
    if n < 0 then "-" + NatToString(-n) else NatToString(n)
  }

  /** `', '.join(parts)` and friends. */
  function Join(parts: seq<string>, sep: string): string {
    if |parts| == 0 then "" else if |parts| == 1 then parts[0] else parts[0] + sep + Join(parts[1..], sep)
  }
}
