/**
 The pin pattern of the version updater, `TOOL="\d+\.\d+\.\d+"`, read two ways:
 declaratively (IsMatch: what a regular-expression match of the pattern is) and
 operationally (MatchLen: a deterministic scanner). The two are proved to agree,
 so the substitution built on MatchLen has the regular expression's semantics.

 IsMatch is the one definition of an occurrence. MatchShape restates it
 character by character for callers, and OccurrenceShape and AssignShape are
 the same facts over plain positions: the contradiction lemma FieldsDisjoint
 reads them without unfolding MatchLen, which keeps it cheap. StartsWithAssign
 and OpensNonNumeric are the two kinds of text an occurrence cannot run into.
 SliceSplit, PrefixChars, RunAt and the other one-step lemmas are solver aids.
 */
module VersionPattern {

  datatype Option<T> = None | Some(value: T)

  /** `\d`, restricted to ASCII digits. */
  predicate IsDigit(c: char) {
    '0' <= c <= '9'
  }

  /** The characters tool names are made of: ASCII letters, digits and `_`. */
  predicate IsNameChar(c: char) {
    ('A' <= c <= 'Z') || ('a' <= c <= 'z') || IsDigit(c) || c == '_'
  }

  /** A tool name that contains no regular-expression metacharacter, so that
      interpolating it into the pattern matches it literally. */
  predicate ValidToolName(tool: string) {
    |tool| > 0 && forall k :: 0 <= k < |tool| ==> IsNameChar(tool[k])
  }

  /** The dots at i and j split v into three non-empty runs of digits. */
  ghost predicate DotsAt(v: string, i: int, j: int) {
    && 0 < i && i + 1 < j && j + 1 < |v|
    && forall k :: 0 <= k < |v| ==> if k == i || k == j then v[k] == '.' else IsDigit(v[k])
  }

  /** v is, in full, a word of `\d+\.\d+\.\d+`. */
  ghost predicate IsVersionTriple(v: string) {
    exists i, j :: DotsAt(v, i, j)
  }

  /** w is, in full, one occurrence of `tool="\d+\.\d+\.\d+"`. */
  ghost predicate IsMatch(w: string, tool: string) {
    && |w| >= |tool| + 3
    && w[..|tool|] == tool
    && w[|tool|] == '=' && w[|tool| + 1] == '"'
    && w[|w| - 1] == '"'
    && IsVersionTriple(w[|tool| + 2..|w| - 1])
  }

  /** z begins with `tool=`: every match of the pattern does, and so does every replacement. */
  predicate StartsWithAssign(z: string, tool: string) {
    |z| > |tool| && z[..|tool|] == tool && z[|tool|] == '='
  }

  /** Number of leading ASCII digits of s (the greedy `\d+`, or 0). */
  function DigitRun(s: string): (n: nat)
    ensures n <= |s|
    ensures forall k :: 0 <= k < n ==> IsDigit(s[k])
    ensures n < |s| ==> !IsDigit(s[n])
  {
    if |s| > 0 && IsDigit(s[0]) then 1 + DigitRun(s[1..]) else 0
  }

  /** The leading-digits count is determined by its characterisation. */
  lemma DigitRunIs(s: string, n: nat)
    requires n <= |s|
    requires forall k :: 0 <= k < n ==> IsDigit(s[k])
    requires n < |s| ==> !IsDigit(s[n])
    ensures DigitRun(s) == n
  {
  }

  /** Length of the `\d+\.\d+\.\d+` at the start of s, if there is one. Digits,
      dots and quotes are disjoint, so the greedy runs are the only candidates. */
  function TripleLength(s: string): (r: Option<nat>)
    ensures r.Some? ==> 5 <= r.value <= |s|
  {
    var a := DigitRun(s);
    if a == 0 || a == |s| || s[a] != '.' then None
    else
      var b := DigitRun(s[a + 1..]);
      if b == 0 || a + 1 + b == |s| || s[a + 1 + b] != '.' then None
      else
        var c := DigitRun(s[a + b + 2..]);
        if c == 0 then None else Some(a + b + 2 + c)
  }

  /** Soundness of TripleLength: what it reports is a version triple. */
  lemma TripleLengthSound(s: string)
    requires TripleLength(s).Some?
    ensures IsVersionTriple(s[..TripleLength(s).value])
  {
    var a := DigitRun(s);
    var b := DigitRun(s[a + 1..]);
    var c := DigitRun(s[a + b + 2..]);
    var n := a + b + 2 + c;
    var v := s[..n];
    forall k | 0 <= k < n
      ensures if k == a || k == a + 1 + b then v[k] == '.' else IsDigit(v[k])
    {
      if a < k < a + 1 + b {
        assert v[k] == s[a + 1..][k - a - 1];
      } else if a + 1 + b < k {
        assert v[k] == s[a + b + 2..][k - a - b - 2];
      }
    }
    assert DotsAt(v, a, a + 1 + b);
  }

  /** TripleLength unfolded on known digit runs, given by the positions i and j
      of the dots and the end n. */
  lemma TripleLengthOfRuns(s: string, i: nat, j: nat, n: nat)
    requires 0 < i && i + 1 < j && j + 1 < n <= |s|
    requires DigitRun(s) == i && s[i] == '.'
    requires DigitRun(s[i + 1..]) == j - i - 1 && s[j] == '.'
    requires DigitRun(s[j + 1..]) == n - j - 1
    ensures TripleLength(s) == Some(n)
  {
  }

  /** Completeness of TripleLength: a triple that starts s and is not followed
      by a further digit is found, with its exact length. */
  lemma TripleLengthComplete(s: string, n: nat)
    requires n <= |s| && IsVersionTriple(s[..n])
    requires n < |s| ==> !IsDigit(s[n])
    ensures TripleLength(s) == Some(n)
  {
    var i, j := TripleDots(s, n);
    TripleLengthAt(s, n, i, j);
  }

  /** TripleLength on a triple given by the positions of its dots. */
  lemma TripleLengthAt(s: string, n: nat, i: nat, j: nat)
    requires 0 < i && i + 1 < j && j + 1 < n <= |s|
    requires DigitsIn(s, 0, i) && s[i] == '.' && DigitsIn(s, i + 1, j) && s[j] == '.'
    requires DigitsIn(s, j + 1, n) && (n < |s| ==> !IsDigit(s[n]))
    ensures TripleLength(s) == Some(n)
  {
    assert s[0..] == s;
    RunAt(s, 0, i);
    RunAt(s, i + 1, j);
    RunAt(s, j + 1, n);
    TripleLengthOfRuns(s, i, j, n);
  }

  predicate DigitsIn(s: string, lo: nat, hi: nat)
    requires lo <= hi <= |s|
  {
    forall k :: lo <= k < hi ==> IsDigit(s[k])
  }

  /** The two dots of a triple that starts s, read off s itself. */
  lemma TripleDots(s: string, n: nat) returns (i: nat, j: nat)
    requires n <= |s| && IsVersionTriple(s[..n])
    ensures 0 < i && i + 1 < j && j + 1 < n
    ensures DigitsIn(s, 0, i) && s[i] == '.' && DigitsIn(s, i + 1, j) && s[j] == '.'
    ensures DigitsIn(s, j + 1, n)
  {
    var v := s[..n];
    i, j :| DotsAt(v, i, j);
    assert forall k :: 0 <= k < n ==> s[k] == v[k];
  }

  /** A run of digits from `from` to `to`, ended by a non-digit or the end of s. */
  lemma RunAt(s: string, from: nat, to: nat)
    requires from <= to <= |s| && DigitsIn(s, from, to)
    requires to < |s| ==> !IsDigit(s[to])
    ensures DigitRun(s[from..]) == to - from
  {
    var u := s[from..];
    assert forall k :: 0 <= k < to - from ==> u[k] == s[from + k];
    DigitRunIs(u, to - from);
  }

  /** Every character of a version triple is a digit or a dot; it begins with a
      digit and has at least five characters. */
  lemma TripleChars(v: string)
    requires IsVersionTriple(v)
    ensures |v| >= 5 && IsDigit(v[0])
    ensures forall k :: 0 <= k < |v| ==> IsDigit(v[k]) || v[k] == '.'
  {
    var i, j :| DotsAt(v, i, j);
  }

  /** Length of the occurrence of `tool="\d+\.\d+\.\d+"` that starts s, if any.
      The tool name is compared literally. */
  function MatchLen(s: string, tool: string): (r: Option<nat>)
    ensures r.Some? ==> |tool| + 8 <= r.value <= |s|
  {
    var t := |tool|;
    if |s| < t + 2 || s[..t] != tool || s[t] != '=' || s[t + 1] != '"' then None
    else
      match TripleLength(s[t + 2..])
      case None => None
      case Some(m) =>
        if t + 2 + m < |s| && s[t + 2 + m] == '"' then Some(t + 3 + m) else None
  }

  /** MatchLen unfolded: the fields of the occurrence it reports. */
  lemma MatchLenParts(s: string, tool: string)
    requires MatchLen(s, tool).Some?
    ensures var n, t := MatchLen(s, tool).value, |tool|;
      && s[..t] == tool && s[t] == '=' && s[t + 1] == '"' && s[n - 1] == '"'
      && TripleLength(s[t + 2..]) == Some(n - t - 3)
  {
  }

  /** Soundness: what MatchLen reports is an occurrence of the pattern. */
  lemma MatchLenSound(s: string, tool: string)
    requires MatchLen(s, tool).Some?
    ensures IsMatch(s[..MatchLen(s, tool).value], tool)
  {
    var n, t := MatchLen(s, tool).value, |tool|;
    MatchLenParts(s, tool);
    TripleLengthSound(s[t + 2..]);
    MatchIntro(s, tool, n);
  }

  /** The pieces of an occurrence, assembled. */
  lemma MatchIntro(s: string, tool: string, n: nat)
    requires |tool| + 3 <= n <= |s|
    requires s[..|tool|] == tool && s[|tool|] == '=' && s[|tool| + 1] == '"'
    requires IsVersionTriple(s[|tool| + 2..][..n - |tool| - 3]) && s[n - 1] == '"'
    ensures IsMatch(s[..n], tool)
  {
    var t := |tool|;
    var w := s[..n];
    assert w[..t] == s[..t];
    assert w[t + 2..|w| - 1] == s[t + 2..][..n - t - 3];
  }

  /** Completeness: whenever s begins with an occurrence of the pattern,
      MatchLen reports exactly that occurrence (so there is at most one). */
  lemma MatchLenComplete(s: string, tool: string, n: nat)
    requires n <= |s| && IsMatch(s[..n], tool)
    ensures MatchLen(s, tool) == Some(n)
  {
    var t := |tool|;
    MatchFields(s, tool, n);
    TripleLengthComplete(s[t + 2..], n - t - 3);
    MatchLenOfParts(s, tool, n - t - 3);
  }

  /** The fields of an occurrence that starts s, read off s itself. */
  lemma MatchFields(s: string, tool: string, n: nat)
    requires n <= |s| && IsMatch(s[..n], tool)
    ensures var t := |tool|;
      && t + 3 <= n && s[..t] == tool && s[t] == '=' && s[t + 1] == '"'
      && s[n - 1] == '"' && !IsDigit(s[t + 2..][n - t - 3])
      && IsVersionTriple(s[t + 2..][..n - t - 3])
  {
    var t := |tool|;
    var w := s[..n];
    assert s[..t] == w[..t];
    assert s[t + 2..][..n - t - 3] == w[t + 2..|w| - 1];
  }

  /** MatchLen assembled from the fields of an occurrence. */
  lemma MatchLenOfParts(s: string, tool: string, m: nat)
    requires |tool| + 3 + m <= |s|
    requires s[..|tool|] == tool && s[|tool|] == '=' && s[|tool| + 1] == '"'
    requires TripleLength(s[|tool| + 2..]) == Some(m) && s[|tool| + 2 + m] == '"'
    ensures MatchLen(s, tool) == Some(|tool| + 3 + m)
  {
  }

  /** Whether an occurrence starts s depends only on the characters it spans. */
  lemma MatchLenPrefix(s: string, u: string, tool: string, n: nat)
    requires MatchLen(s, tool) == Some(n)
    requires n <= |u| && u[..n] == s[..n]
    ensures MatchLen(u, tool) == Some(n)
  {
    MatchLenSound(s, tool);
    MatchLenComplete(u, tool, n);
  }

  /** An occurrence inside the first |x| characters of x + z is an occurrence in x. */
  lemma MatchLenWithin(x: string, z: string, tool: string)
    requires MatchLen(x + z, tool).Some? && MatchLen(x + z, tool).value <= |x|
    ensures MatchLen(x, tool) == MatchLen(x + z, tool)
  {
    var n := MatchLen(x + z, tool).value;
    assert x[..n] == (x + z)[..n];
    MatchLenPrefix(x + z, x, tool, n);
  }

  /** An occurrence that starts x stays one whatever follows x. */
  lemma MatchLenExtend(x: string, z: string, tool: string)
    requires MatchLen(x, tool).Some?
    ensures MatchLen(x + z, tool) == MatchLen(x, tool)
  {
    var n := MatchLen(x, tool).value;
    assert x[..n] == (x + z)[..n];
    MatchLenPrefix(x, x + z, tool, n);
  }

  /** Text made of name characters only holds no `=`, so no occurrence starts in it. */
  lemma NameCharsNoMatch(p: string, k: nat, tool: string)
    requires forall i :: 0 <= i < |p| ==> IsNameChar(p[i])
    requires k <= |p|
    ensures MatchLen(p[k..], tool) == None
  {
    var s := p[k..];
    assert forall i :: 0 <= i < |s| ==> IsNameChar(s[i]);
    if MatchLen(s, tool).Some? {
      MatchShape(s, tool);
    }
  }

  /** The characters of an occurrence, position by position. */
  lemma MatchShape(s: string, tool: string)
    requires MatchLen(s, tool).Some?
    ensures var n := MatchLen(s, tool).value;
      && s[..|tool|] == tool && s[|tool|] == '=' && s[|tool| + 1] == '"' && s[n - 1] == '"'
      && (forall k :: 0 <= k < |tool| ==> s[k] == tool[k])
      && IsDigit(s[|tool| + 2])
      && forall k :: |tool| + 2 <= k < n - 1 ==> IsDigit(s[k]) || s[k] == '.'
  {
    MatchLenParts(s, tool);
    PrefixChars(s, tool);
    ValueChars(s, tool);
  }

  lemma PrefixChars(s: string, tool: string)
    requires |tool| <= |s| && s[..|tool|] == tool
    ensures forall k :: 0 <= k < |tool| ==> s[k] == tool[k]
  {
    assert forall k :: 0 <= k < |tool| ==> s[..|tool|][k] == s[k];
  }

  /** The version of an occurrence is made of digits and dots and starts with a digit. */
  lemma ValueChars(s: string, tool: string)
    requires MatchLen(s, tool).Some?
    ensures var n := MatchLen(s, tool).value;
      && IsDigit(s[|tool| + 2])
      && forall k :: |tool| + 2 <= k < n - 1 ==> IsDigit(s[k]) || s[k] == '.'
  {
    var n, t := MatchLen(s, tool).value, |tool|;
    MatchLenParts(s, tool);
    TripleLengthSound(s[t + 2..]);
    TripleCharsIn(s, t + 2, n - t - 3, n - 1);
  }

  /** The characters of a version triple found at position from of s. */
  lemma TripleCharsIn(s: string, from: nat, m: nat, to: nat)
    requires to == from + m <= |s| && IsVersionTriple(s[from..][..m])
    ensures IsDigit(s[from]) && forall k :: from <= k < to ==> IsDigit(s[k]) || s[k] == '.'
  {
    var v := s[from..][..m];
    TripleChars(v);
    assert forall k :: from <= k < to ==> s[k] == v[k - from];
  }

  /** An occurrence of the pattern that starts before z cannot reach into z when
      z begins with `tool=`: name characters are never `=`, `"` or `.`. */
  lemma NoCrossing(x: string, z: string, tool: string)
    requires ValidToolName(tool)
    requires |x| > 0 && StartsWithAssign(z, tool)
    requires MatchLen(x + z, tool).Some?
    ensures MatchLen(x + z, tool).value <= |x|
  {
    OccurrenceShapeOf(x + z, tool);
    AssignAfter(x, z, tool);
    FieldsDisjoint(x + z, |tool|, MatchLen(x + z, tool).value, |x|, |tool|);
  }

  /** s holds an occurrence at 0 whose name has length a and which ends at n,
      described by its characters only. */
  predicate OccurrenceShape(s: string, a: nat, n: nat) {
    && 0 < a && a + 3 <= n <= |s|
    && (forall k :: 0 <= k < a ==> IsNameChar(s[k]))
    && s[a] == '=' && s[a + 1] == '"' && IsDigit(s[a + 2]) && s[n - 1] == '"'
    && (forall k :: a + 2 <= k < n - 1 ==> IsDigit(s[k]) || s[k] == '.')
  }

  /** s holds b name characters followed by `=` at position p. */
  predicate AssignShape(s: string, p: nat, b: nat) {
    && p + b < |s|
    && (forall k :: p <= k < p + b ==> IsNameChar(s[k]))
    && s[p + b] == '='
  }

  lemma OccurrenceShapeOf(s: string, tool: string)
    requires ValidToolName(tool) && MatchLen(s, tool).Some?
    ensures OccurrenceShape(s, |tool|, MatchLen(s, tool).value)
  {
    MatchShape(s, tool);
  }

  /** The characters `other=` contributes when it follows x. */
  lemma AssignAfter(x: string, z: string, other: string)
    requires ValidToolName(other) && StartsWithAssign(z, other)
    ensures AssignShape(x + z, |x|, |other|)
  {
    var s, p, t := x + z, |x|, |other|;
    assert forall k :: 0 <= k < t ==> z[..t][k] == z[k];
    assert forall k :: p <= k < p + t ==> s[k] == z[k - p];
  }

  /** z begins with `tool="` followed by something other than a digit, as the
      replacement `tool="latest"` does. */
  predicate OpensNonNumeric(z: string, tool: string) {
    |z| > |tool| + 2 && z[..|tool|] == tool && z[|tool|] == '=' && z[|tool| + 1] == '"'
    && !IsDigit(z[|tool| + 2])
  }

  /** An occurrence for one tool that starts before z cannot reach into z when z
      opens a non-numeric value for any tool: its `=` would have to be z's `=`,
      and then its version would start with a non-digit. */
  lemma NoCrossingOther(x: string, z: string, tool: string, other: string)
    requires ValidToolName(tool) && ValidToolName(other)
    requires |x| > 0 && OpensNonNumeric(z, other)
    requires MatchLen(x + z, tool).Some?
    ensures MatchLen(x + z, tool).value <= |x|
  {
    OccurrenceShapeOf(x + z, tool);
    AssignAfter(x, z, other);
    assert (x + z)[|x| + |other| + 2] == z[|other| + 2];
    FieldsDisjoint(x + z, |tool|, MatchLen(x + z, tool).value, |x|, |other|);
  }

  /** The character-level core of NoCrossing and NoCrossingOther: an occurrence
      at 0 and b name characters followed by `=` at p > 0 do not overlap unless
      the two `=` coincide; and they do not when the character after the second
      `="` is not a digit. */
  lemma FieldsDisjoint(s: string, a: nat, n: nat, p: nat, b: nat)
    requires OccurrenceShape(s, a, n) && 0 < p && 0 < b && AssignShape(s, p, b)
    requires p + b == a ==> p + b + 2 < |s| && !IsDigit(s[p + b + 2])
    ensures n <= p
  {
  }

  /** Occurrences of the pattern never overlap: one that starts at p ends at or
      before the start q of any later one. */
  lemma NoOverlap(s: string, tool: string, p: nat, q: nat)
    requires ValidToolName(tool)
    requires p < q <= |s|
    requires MatchLen(s[p..], tool).Some? && MatchLen(s[q..], tool).Some?
    ensures p + MatchLen(s[p..], tool).value <= q
  {
    SliceSplit(s, p, q);
    MatchLenParts(s[q..], tool);
    NoCrossing(s[p..q], s[q..], tool);
  }

  lemma SliceSplit(s: string, p: nat, q: nat)
    requires p <= q <= |s|
    ensures s[p..] == s[p..q] + s[q..]
  {
  }
}
