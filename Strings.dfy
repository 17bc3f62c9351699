/** The few Python string operations the trigger plots rely on:
    `str.split(',')`, `str.strip('\n ')`, `sub in s`, `str.upper()` on
    byte strings, and a per-character sanitiser standing in for
    `re_cchar.sub('_', s)`. */
module Strings {

  /** `sep.join(parts)`. */
  function Join(parts: seq<string>, sep: string): string
  {
    if |parts| == 0 then ""
    else if |parts| == 1 then parts[0]
    else parts[0] + sep + Join(parts[1..], sep)
  }

  /** Python's `s.split(sep)` for a one-character separator: the pieces
      between separators, always at least one (so `"".split(',') == ['']`). */
  function Split(s: string, sep: char): (parts: seq<string>)
    ensures |parts| >= 1
    ensures forall i :: 0 <= i < |parts| ==> sep !in parts[i]
    decreases |s|
  {
    if s == [] then [""]
    else
      var rest := Split(s[1..], sep);
      if s[0] == sep then [""] + rest
      else [[s[0]] + rest[0]] + rest[1..]
  }

  /** Joining the pieces back with the separator gives the original string. */
  lemma {:induction false} JoinSplit(s: string, sep: char)
    ensures Join(Split(s, sep), [sep]) == s
    decreases |s|
  {
    if s != [] {
      var rest := Split(s[1..], sep);
      JoinSplit(s[1..], sep);
      if s[0] == sep {
        assert Split(s, sep) == [""] + rest;
        assert ([""] + rest)[1..] == rest;
      } else {
        var parts := Split(s, sep);
        assert parts == [[s[0]] + rest[0]] + rest[1..];
        if |rest| == 1 {
          assert Join(rest, [sep]) == rest[0];
        } else {
          assert Join(rest, [sep]) == rest[0] + [sep] + Join(rest[1..], [sep]);
          assert parts[1..] == rest[1..];
        }
      }
    }
  }

  /** Splitting a separator-free string gives it back whole. */
  lemma {:induction false} SplitNoSeparator(s: string, sep: char)
    requires sep !in s
    ensures Split(s, sep) == [s]
    decreases |s|
  {
    if s != [] {
      assert s[0] == s[0] && s[0] != sep;
      assert sep !in s[1..] by { assert forall k :: 0 <= k < |s[1..]| ==> s[1..][k] == s[k + 1]; }
      SplitNoSeparator(s[1..], sep);
      assert [s[0]] + s[1..] == s;
    }
  }

  /** The characters `str.strip('\n ')` removes. */
  predicate IsBlank(c: char)
  {
    c == '\n' || c == ' '
  }

  /** The first index at or after `i` holding no blank (`|s|` if none):
      where `lstrip` starts the string. */
  function SkipBlanks(s: string, i: nat): (r: nat)
    requires i <= |s|
    ensures i <= r <= |s|
    ensures forall k :: i <= k < r ==> IsBlank(s[k])
    ensures r < |s| ==> !IsBlank(s[r])
    decreases |s| - i
  {
    if i == |s| || !IsBlank(s[i]) then i else SkipBlanks(s, i + 1)
  }

  /** Where `rstrip` ends `s[lo..j]`: `j` moved left past trailing blanks,
      but not past `lo`. */
  function TrimBlanks(s: string, lo: nat, j: nat): (r: nat)
    requires lo <= j <= |s|
    ensures lo <= r <= j
    ensures forall k :: r <= k < j ==> IsBlank(s[k])
    ensures r > lo ==> !IsBlank(s[r - 1])
    decreases j
  {
    if j == lo || !IsBlank(s[j - 1]) then j else TrimBlanks(s, lo, j - 1)
  }

  /** `s.strip('\n ')`: `s` without its leading and trailing newlines and
      spaces. */
  function Strip(s: string): (r: string)
  {
    var lo := SkipBlanks(s, 0);
    s[lo..TrimBlanks(s, lo, |s|)]
  }

  /** What `Strip` returns: a contiguous slice of `s`, with only blanks cut
      off on either side, and no blank left at either end. */
  lemma StripSlice(s: string) returns (lo: nat, hi: nat)
    ensures lo <= hi <= |s| && Strip(s) == s[lo..hi]
    ensures forall i :: 0 <= i < lo ==> IsBlank(s[i])
    ensures forall i :: hi <= i < |s| ==> IsBlank(s[i])
    ensures lo < hi ==> !IsBlank(s[lo]) && !IsBlank(s[hi - 1])
  {
    lo := SkipBlanks(s, 0);
    hi := TrimBlanks(s, lo, |s|);
  }

  /** Stripping twice is stripping once. */
  lemma StripIdempotent(s: string)
    ensures Strip(Strip(s)) == Strip(s)
  {
    var lo, hi := StripSlice(s);
    var r := Strip(s);
    if r != [] {
      assert r[0] == s[lo] && r[|r| - 1] == s[hi - 1];
      assert SkipBlanks(r, 0) == 0;
      assert TrimBlanks(r, 0, |r|) == |r|;
      assert r[0..|r|] == r;
    }
  }

  /** A join ends with the last part's last character. */
  lemma {:induction false} JoinLast(parts: seq<string>, sep: string)
    requires |parts| > 0 && parts[|parts| - 1] != []
    ensures var j := Join(parts, sep); var l := parts[|parts| - 1]; j != [] && j[|j| - 1] == l[|l| - 1]
    decreases |parts|
  {
    if |parts| > 1 {
      JoinLast(parts[1..], sep);
      assert parts[1..][|parts[1..]| - 1] == parts[|parts| - 1];
    }
  }

  /** Stripping keeps a last character that is not blank. */
  lemma StripLast(s: string)
    requires s != [] && !IsBlank(s[|s| - 1])
    ensures Strip(s) != [] && Strip(s)[|Strip(s)| - 1] == s[|s| - 1]
  {
    var lo, hi := StripSlice(s);
  }

  /** `sub` occurs in `s` starting at offset `i`. */
  predicate OccursAt(sub: string, s: string, i: int)
  {
    0 <= i <= |s| - |sub| && s[i..i + |sub|] == sub
  }

  /** `sub in s` for Python strings: `sub` occurs at some offset of `s`. */
  ghost predicate Occurs(sub: string, s: string)
  {
    exists i :: OccursAt(sub, s, i)
  }

  /** An occurrence past the first character is an occurrence in the rest. */
  lemma OccursShift(sub: string, s: string, i: int)
    requires 0 < i <= |s|
    ensures OccursAt(sub, s, i) <==> OccursAt(sub, s[1..], i - 1)
  {
    if i <= |s| - |sub| {
      assert s[i..i + |sub|] == s[1..][i - 1..i - 1 + |sub|];
    }
  }

  /** The substring test, computed by scanning `s` from the left. */
  function Contains(s: string, sub: string): (b: bool)
    ensures b <==> Occurs(sub, s)
    decreases |s|
  {
    if |sub| > |s| then false
    else if s[..|sub|] == sub then
      assert OccursAt(sub, s, 0);
      true
    else
      var b := Contains(s[1..], sub);
      if b then
        var i :| OccursAt(sub, s[1..], i);
        OccursShift(sub, s, i + 1);
        true
      else
        assert !Occurs(sub, s) by {
          forall i | 0 <= i <= |s| - |sub| ensures !OccursAt(sub, s, i) {
            if i > 0 {
              OccursShift(sub, s, i);
            } else {
              assert s[0..|sub|] == s[..|sub|];
            }
          }
        }
        false
  }

  /** `c.upper()` for one byte of a Python 2 `str`: ASCII letters only. */
  function UpperChar(c: char): char
  {
    if 'a' <= c <= 'z' then (c as int - 32) as char else c
  }

  /** `s.upper()`. */
  function Upper(s: string): (r: string)
    ensures |r| == |s|
    ensures forall i :: 0 <= i < |s| ==> r[i] == UpperChar(s[i])
  {
    seq(|s|, i requires 0 <= i < |s| => UpperChar(s[i]))
  }

  /** Upper-casing is idempotent, so an upper-cased identifier is stable. */
  lemma UpperIdempotent(s: string)
    ensures Upper(Upper(s)) == Upper(s)
  {
  }

  /** `re_cchar.sub('_', s)`, one character at a time: every character the
      (abstract) pattern matches becomes `_`, the rest are kept. */
  function Sanitize(s: string, cchar: char -> bool): (r: string)
    ensures |r| == |s|
    ensures forall i :: 0 <= i < |s| ==> r[i] == if cchar(s[i]) then '_' else s[i]
  {
    seq(|s|, i requires 0 <= i < |s| => if cchar(s[i]) then '_' else s[i])
  }

  /** Decimal digits of a natural number, as `str(n)` prints them. */
  function NatToString(n: nat): (r: string)
    decreases n
  {
    var d := ['0' + (n % 10) as char];
    if n < 10 then d else NatToString(n / 10) + d
  }

  /** `str(i)` for a Python int. */
  function IntToString(i: int): string
  {
    if i < 0 then "-" + NatToString(-i) else NatToString(i)
  }
}
