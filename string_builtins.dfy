/** The JavaScript string operations the identity rule relies on:
    `startsWith`, `replace` with a string pattern, and `toLowerCase`. */
module StringBuiltins {

  /** `s.startsWith(prefix)` */
  predicate StartsWith(s: string, prefix: string) {
    |prefix| <= |s| && s[..|prefix|] == prefix
  }

  /** `pattern` occurs in `s` starting at index `i`. */
  predicate OccursAt(s: string, pattern: string, i: nat) {
    i + |pattern| <= |s| && s[i..i + |pattern|] == pattern
  }

  /** `s.replace(pattern, replacement)` for a string pattern: the leftmost
      occurrence is replaced, later ones are left alone. */
  function ReplaceFirst(s: string, pattern: string, replacement: string): string
    decreases |s|
  {
    if StartsWith(s, pattern) then replacement + s[|pattern|..]
    else if s == [] then s
    else [s[0]] + ReplaceFirst(s[1..], pattern, replacement)
  }

  /** An occurrence in the tail is an occurrence one place further on. */
  lemma OccursInTail(s: string, pattern: string, j: nat)
    requires s != []
    ensures OccursAt(s[1..], pattern, j) == OccursAt(s, pattern, j + 1)
  {
    if j + 1 + |pattern| <= |s| {
      assert s[1..][j..j + |pattern|] == s[j + 1..j + 1 + |pattern|];
    }
  }

  /** Replacing in a string that does not start with the pattern keeps its
      first character and replaces in the rest. */
  lemma ReplaceFirstStep(s: string, pattern: string, replacement: string)
    requires s != [] && !OccursAt(s, pattern, 0)
    ensures ReplaceFirst(s, pattern, replacement) == [s[0]] + ReplaceFirst(s[1..], pattern, replacement)
  {
    assert !StartsWith(s, pattern);
  }

  /** The replacement happens at the leftmost occurrence, whatever follows it. */
  lemma {:induction false} ReplaceFirstAt(s: string, pattern: string, replacement: string, i: nat)
    requires OccursAt(s, pattern, i)
    requires forall j :: 0 <= j < i ==> !OccursAt(s, pattern, j)
    ensures ReplaceFirst(s, pattern, replacement) == s[..i] + replacement + s[i + |pattern|..]
    decreases i
  {
    if i == 0 {
      assert StartsWith(s, pattern);
    } else {
      var t := s[1..];
      ReplaceFirstStep(s, pattern, replacement);
      OccursInTail(s, pattern, i - 1);
      forall j | 0 <= j < i - 1
        ensures !OccursAt(t, pattern, j)
      {
        OccursInTail(s, pattern, j);
      }
      ReplaceFirstAt(t, pattern, replacement, i - 1);
      assert [s[0]] + t[..i - 1] == s[..i];
      assert t[i - 1 + |pattern|..] == s[i + |pattern|..];
    }
  }

  /** Without any occurrence the string comes back unchanged. */
  lemma {:induction false} ReplaceFirstAbsent(s: string, pattern: string, replacement: string)
    requires forall j :: 0 <= j <= |s| ==> !OccursAt(s, pattern, j)
    ensures ReplaceFirst(s, pattern, replacement) == s
    decreases |s|
  {
    assert !OccursAt(s, pattern, 0);
    if s != [] {
      var t := s[1..];
      ReplaceFirstStep(s, pattern, replacement);
      forall j | 0 <= j <= |t|
        ensures !OccursAt(t, pattern, j)
      {
        OccursInTail(s, pattern, j);
      }
      ReplaceFirstAbsent(t, pattern, replacement);
    }
  }

  /** Removing a prefix the string starts with leaves the rest of the string. */
  lemma ReplacePrefixByNothing(s: string, prefix: string)
    requires StartsWith(s, prefix)
    ensures ReplaceFirst(s, prefix, "") == s[|prefix|..]
    ensures |ReplaceFirst(s, prefix, "")| == |s| - |prefix|
  {
  }

  predicate IsUpper(c: char) {
    'A' <= c <= 'Z'
  }

  function LowerChar(c: char): char {
    if IsUpper(c) then (c as int + 32) as char else c
  }

  /** `s.toLowerCase()` restricted to the ASCII letters. */
  function ToLower(s: string): (r: string)
    ensures |r| == |s|
    ensures forall i :: 0 <= i < |r| ==> !IsUpper(r[i])
    ensures forall i :: 0 <= i < |s| && !IsUpper(s[i]) ==> r[i] == s[i]
    ensures forall i :: 0 <= i < |s| && IsUpper(s[i]) ==> r[i] as int == s[i] as int + 32
  {
    seq(|s|, i requires 0 <= i < |s| => LowerChar(s[i]))
  }
}
