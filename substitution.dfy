/**
 `re.sub(pattern, replacement, content)` for the pin pattern of one tool: every
 non-overlapping occurrence, taken left to right, is replaced; everything else is
 copied. Substitute scans content front to back exactly as the regular-expression
 engine does: try the pattern at the current position; on a match emit the
 replacement and resume after it, otherwise copy one character and move on.

 The small sequence lemmas (TailOfConcat, ConcatAssoc, OpensWithAssign,
 OpensNonNumericConcat, NoMatchInSuffix, OpeningNoMatch, QuoteNoMatch) state no
 property of the updater; they keep each proof step small enough for the solver.
 */
module Substitution {
  import opened VersionPattern

  function Substitute(s: string, tool: string, repl: string): (r: string)
    decreases |s|
  {
    if |s| == 0 then []
    else match MatchLen(s, tool)
      case Some(n) => repl + Substitute(s[n..], tool, repl)
      case None => [s[0]] + Substitute(s[1..], tool, repl)
  }

  /** One step of the scan where no occurrence starts: one character is copied. */
  lemma SubstituteUnmatched(s: string, tool: string, repl: string)
    requires |s| > 0 && MatchLen(s, tool) == None
    ensures Substitute(s, tool, repl) == [s[0]] + Substitute(s[1..], tool, repl)
  {
  }

  lemma TailOfConcat(x: string, z: string)
    requires |x| > 0
    ensures (x + z)[1..] == x[1..] + z && x + z == [x[0]] + (x[1..] + z)
  {
  }

  /** The replacement text `tool="<value>"`. */
  function Replacement(tool: string, value: string): (r: string)
    ensures |r| == |tool| + |value| + 3
  {
    tool + "=\"" + value + "\""
  }

  /** No occurrence of the tool's pattern starts anywhere in s. */
  predicate NoMatchIn(s: string, tool: string) {
    forall k :: 0 <= k <= |s| ==> MatchLen(s[k..], tool) == None
  }

  /** The replacement, position by position. */
  lemma ReplacementChars(tool: string, value: string)
    ensures var r, t := Replacement(tool, value), |tool|;
      && r[..t] == tool && r[t] == '=' && r[t + 1] == '"' && r[|r| - 1] == '"'
      && r[t + 2..|r| - 1] == value
      && (forall k :: 0 <= k < t ==> r[k] == tool[k])
      && (forall k :: 0 <= k < |value| ==> r[t + 2 + k] == value[k])
      && (forall k :: t + 2 <= k < |r| - 1 ==> r[k] == value[k - t - 2])
  {
    var r, t := Replacement(tool, value), |tool|;
    assert r == tool + ['=', '"'] + value + ['"'];
    assert r[..t] == tool;
    assert r[t + 2..|r| - 1] == value;
  }

  lemma NoMatchInTail(s: string, tool: string)
    requires |s| > 0 && NoMatchIn(s, tool)
    ensures NoMatchIn(s[1..], tool)
  {
    forall k | 0 <= k <= |s| - 1
      ensures MatchLen(s[1..][k..], tool) == None
    {
      assert s[1..][k..] == s[k + 1..];
    }
  }

  /** Content in which the pattern never occurs comes back unchanged. */
  lemma {:induction false} NoMatchUnchanged(s: string, tool: string, repl: string)
    requires NoMatchIn(s, tool)
    ensures Substitute(s, tool, repl) == s
    decreases |s|
  {
    if |s| > 0 {
      assert MatchLen(s[0..], tool) == None;
      assert s[0..] == s;
      NoMatchInTail(s, tool);
      NoMatchUnchanged(s[1..], tool, repl);
      assert s == [s[0]] + s[1..];
    }
  }

  /** An unmatched start stays unmatched however the text after it is rewritten. */
  lemma {:induction false} MatchThroughSubstitute(x: string, rest: string, tool: string, repl: string)
    requires ValidToolName(tool) && |x| > 0 && StartsWithAssign(repl, tool)
    requires MatchLen(x + Substitute(rest, tool, repl), tool).Some?
    ensures MatchLen(x + rest, tool) == MatchLen(x + Substitute(rest, tool, repl), tool)
    decreases |rest|
  {
    var u := Substitute(rest, tool, repl);
    if |rest| == 0 {
      assert u == rest;
    } else {
      match MatchLen(rest, tool)
      case Some(m) =>
        var y := Substitute(rest[m..], tool, repl);
        assert u == repl + y;
        OpensWithAssign(repl, y, tool);
        NoCrossing(x, u, tool);
        MatchLenWithin(x, u, tool);
        MatchLenExtend(x, rest, tool);
      case None =>
        var x' := x + [rest[0]];
        var y := Substitute(rest[1..], tool, repl);
        assert u == [rest[0]] + y;
        ConcatAssoc(x, [rest[0]], y);
        ConcatAssoc(x, [rest[0]], rest[1..]);
        assert [rest[0]] + rest[1..] == rest;
        MatchThroughSubstitute(x', rest[1..], tool, repl);
    }
  }

  /** Where the scan found no occurrence, the output has none either. */
  lemma UnmatchedStaysUnmatched(s: string, tool: string, repl: string)
    requires ValidToolName(tool) && StartsWithAssign(repl, tool)
    requires |s| > 0 && MatchLen(s, tool) == None
    ensures MatchLen([s[0]] + Substitute(s[1..], tool, repl), tool) == None
  {
    assert [s[0]] + s[1..] == s;
    if MatchLen([s[0]] + Substitute(s[1..], tool, repl), tool).Some? {
      MatchThroughSubstitute([s[0]], s[1..], tool, repl);
    }
  }

  /** No occurrence starts in x, and none can start in x and run on into z. */
  lemma FirstNoMatch(x: string, z: string, tool: string)
    requires ValidToolName(tool) && |x| > 0 && NoMatchIn(x, tool) && StartsWithAssign(z, tool)
    ensures MatchLen(x + z, tool) == None
  {
    assert x[0..] == x;
    if MatchLen(x + z, tool).Some? {
      NoCrossing(x, z, tool);
      MatchLenWithin(x, z, tool);
    }
  }

  /** Text without occurrences is copied verbatim, up to the next `tool=`. */
  lemma {:induction false} CopyPrefix(x: string, z: string, tool: string, repl: string)
    requires ValidToolName(tool) && NoMatchIn(x, tool) && StartsWithAssign(z, tool)
    ensures Substitute(x + z, tool, repl) == x + Substitute(z, tool, repl)
    decreases |x|
  {
    if |x| > 0 {
      FirstNoMatch(x, z, tool);
      NoMatchInTail(x, tool);
      CopyPrefix(x[1..], z, tool, repl);
      calc {
        Substitute(x + z, tool, repl);
        { SubstituteUnmatched(x + z, tool, repl); }
        [x[0]] + Substitute((x + z)[1..], tool, repl);
        { TailOfConcat(x, z); }
        [x[0]] + (x[1..] + Substitute(z, tool, repl));
        { TailOfConcat(x, Substitute(z, tool, repl)); }
        x + Substitute(z, tool, repl);
      }
    } else {
      assert x + z == z;
    }
  }

  /** An occurrence at the front is replaced by exactly repl. */
  lemma ReplaceMatch(w: string, y: string, tool: string, repl: string)
    requires IsMatch(w, tool)
    ensures Substitute(w + y, tool, repl) == repl + Substitute(y, tool, repl)
  {
    assert (w + y)[..|w|] == w;
    MatchLenComplete(w + y, tool, |w|);
    assert (w + y)[|w|..] == y;
  }

  /** Text before the first occurrence is copied unchanged and in order; the
      occurrence itself becomes exactly repl; the scan then resumes after it. */
  lemma SubstituteSplice(x: string, w: string, y: string, tool: string, repl: string)
    requires ValidToolName(tool) && NoMatchIn(x, tool) && IsMatch(w, tool)
    ensures Substitute(x + w + y, tool, repl) == x + repl + Substitute(y, tool, repl)
  {
    OpensWithAssign(w, y, tool);
    CopyPrefix(x, w + y, tool, repl);
    ReplaceMatch(w, y, tool, repl);
    ConcatAssoc(x, w, y);
    ConcatAssoc(x, repl, Substitute(y, tool, repl));
  }

  lemma ConcatAssoc(a: string, b: string, c: string)
    ensures a + b + c == a + (b + c)
  {
  }

  lemma OpensNonNumericConcat(z: string, y: string, tool: string)
    requires OpensNonNumeric(z, tool)
    ensures OpensNonNumeric(z + y, tool)
  {
    assert (z + y)[..|tool|] == z[..|tool|];
  }

  /** Text that starts with an occurrence starts with `tool=`. */
  lemma OpensWithAssign(w: string, y: string, tool: string)
    requires |w| > |tool| && w[..|tool|] == tool && w[|tool|] == '='
    ensures StartsWithAssign(w + y, tool)
  {
    assert (w + y)[..|tool|] == w[..|tool|];
  }

  /** In `tool="<value>"` + y, with no quote inside value, an occurrence can only
      end at the replacement's own closing quote. */
  lemma QuotedMatchLength(tool: string, v: string, y: string)
    requires '"' !in v
    requires MatchLen(Replacement(tool, v) + y, tool).Some?
    ensures MatchLen(Replacement(tool, v) + y, tool).value == |Replacement(tool, v)|
  {
    var r, t := Replacement(tool, v), |tool|;
    var s := r + y;
    ReplacementChars(tool, v);
    MatchShape(s, tool);
    assert s[|r| - 1] == '"';
    forall k | t + 2 <= k < |r| - 1
      ensures s[k] != '"'
    {
      assert s[k] == v[k - t - 2];
    }
  }

  /** A pin written `tool="<value>"` is an occurrence exactly when value is a
      version triple (value containing no quote). */
  lemma ReplacementMatch(tool: string, v: string, y: string)
    requires '"' !in v
    ensures MatchLen(Replacement(tool, v) + y, tool)
      == if IsVersionTriple(v) then Some(|Replacement(tool, v)|) else None
  {
    var r, t := Replacement(tool, v), |tool|;
    var s := r + y;
    ReplacementChars(tool, v);
    assert s[..|r|] == r;
    if IsVersionTriple(v) {
      MatchLenComplete(s, tool, |r|);
    } else if MatchLen(s, tool).Some? {
      QuotedMatchLength(tool, v, y);
      MatchLenSound(s, tool);
    }
  }

  /** No occurrence starts strictly inside `tool="<value>"` when value holds no `=`. */
  lemma InnerNoMatch(tool: string, v: string, y: string, k: nat)
    requires ValidToolName(tool) && '=' !in v
    requires 1 <= k < |Replacement(tool, v)|
    ensures MatchLen(Replacement(tool, v)[k..] + y, tool) == None
  {
    var r, t := Replacement(tool, v), |tool|;
    var s := r[k..] + y;
    ReplacementChars(tool, v);
    assert forall i :: 0 <= i < |r| - k ==> s[i] == r[k + i];
    if k <= t {
      assert s[t - k] == '=';
    } else if k == t + 1 {
      assert s[0] == '"';
    } else if t < |r| - k {
      if k + t < |r| - 1 {
        assert s[t] == v[k - 2];
      } else {
        assert s[t] == '"';
      }
    } else {
      assert s[|r| - k - 1] == '"';
    }
    if MatchLen(s, tool).Some? {
      MatchShape(s, tool);
    }
  }

  /** Characters at which, in context, no occurrence starts are copied verbatim. */
  lemma {:induction false} CopyUnmatched(a: string, y: string, tool: string, repl: string)
    requires forall k :: 0 <= k < |a| ==> MatchLen(a[k..] + y, tool) == None
    ensures Substitute(a + y, tool, repl) == a + Substitute(y, tool, repl)
    decreases |a|
  {
    if |a| > 0 {
      assert a[0..] == a;
      forall k | 0 <= k < |a| - 1
        ensures MatchLen(a[1..][k..] + y, tool) == None
      {
        assert a[1..][k..] == a[k + 1..];
      }
      CopyUnmatched(a[1..], y, tool, repl);
      SubstituteUnmatched(a + y, tool, repl);
      TailOfConcat(a, y);
      TailOfConcat(a, Substitute(y, tool, repl));
    } else {
      assert a + y == y;
    }
  }

  /** How one pin `tool="<value>"` fares: replaced by repl when value is a version
      triple, otherwise copied unchanged; the scan resumes after it. */
  lemma SubstituteQuoted(tool: string, v: string, y: string, repl: string)
    requires ValidToolName(tool) && '"' !in v && '=' !in v
    ensures Substitute(Replacement(tool, v) + y, tool, repl)
      == (if IsVersionTriple(v) then repl else Replacement(tool, v)) + Substitute(y, tool, repl)
  {
    var r := Replacement(tool, v);
    ReplacementMatch(tool, v, y);
    if IsVersionTriple(v) {
      assert (r + y)[|r|..] == y;
    } else {
      forall k | 0 <= k < |r|
        ensures MatchLen(r[k..] + y, tool) == None
      {
        if k == 0 {
          assert r[0..] == r;
        } else {
          InnerNoMatch(tool, v, y, k);
        }
      }
      CopyUnmatched(r, y, tool, repl);
    }
  }

  /** A pin line in context: the text before it, free of occurrences, is copied;
      the pin is rewritten to repl exactly when its value is a version triple. */
  lemma SubstitutePin(x: string, v: string, y: string, tool: string, repl: string)
    requires ValidToolName(tool) && NoMatchIn(x, tool) && '"' !in v && '=' !in v
    ensures Substitute(x + Replacement(tool, v) + y, tool, repl)
      == x + (if IsVersionTriple(v) then repl else Replacement(tool, v)) + Substitute(y, tool, repl)
  {
    var r := Replacement(tool, v);
    var out := if IsVersionTriple(v) then repl else r;
    ReplacementChars(tool, v);
    OpensWithAssign(r, y, tool);
    CopyPrefix(x, r + y, tool, repl);
    SubstituteQuoted(tool, v, y, repl);
    ConcatAssoc(x, r, y);
    ConcatAssoc(x, out, Substitute(y, tool, repl));
  }

  /** A name ending in the tool name is rewritten too: the pattern is not anchored
      on the left, so `XDOCKER_VERSION="1.2.3"` is an occurrence for DOCKER_VERSION. */
  lemma LongerNameRewritten(p: string, w: string, y: string, tool: string, repl: string)
    requires ValidToolName(tool) && IsMatch(w, tool)
    requires forall i :: 0 <= i < |p| ==> IsNameChar(p[i])
    ensures Substitute(p + w + y, tool, repl) == p + repl + Substitute(y, tool, repl)
  {
    forall k | 0 <= k <= |p|
      ensures MatchLen(p[k..], tool) == None
    {
      NameCharsNoMatch(p, k, tool);
    }
    SubstituteSplice(p, w, y, tool, repl);
  }

  /** Substituting a second time changes nothing, provided the new value holds no
      `"` and no `=` (every value in the version table qualifies). */
  lemma {:induction false} SubstituteIdempotent(s: string, tool: string, v: string)
    requires ValidToolName(tool) && '"' !in v && '=' !in v
    ensures var r := Replacement(tool, v);
      Substitute(Substitute(s, tool, r), tool, r) == Substitute(s, tool, r)
    decreases |s|
  {
    var r := Replacement(tool, v);
    ReplacementChars(tool, v);
    if |s| > 0 {
      match MatchLen(s, tool)
      case Some(n) =>
        var y := Substitute(s[n..], tool, r);
        assert Substitute(s, tool, r) == r + y;
        SubstituteQuoted(tool, v, y, r);
        SubstituteIdempotent(s[n..], tool, v);
      case None =>
        var y := Substitute(s[1..], tool, r);
        assert Substitute(s, tool, r) == [s[0]] + y;
        UnmatchedStaysUnmatched(s, tool, r);
        SubstituteUnmatched([s[0]] + y, tool, r);
        assert ([s[0]] + y)[1..] == y;
        SubstituteIdempotent(s[1..], tool, v);
    }
  }

  /** Prepending a character at which nothing starts keeps a text free of occurrences. */
  lemma NoMatchInCons(c: char, y: string, tool: string)
    requires MatchLen([c] + y, tool) == None && NoMatchIn(y, tool)
    ensures NoMatchIn([c] + y, tool)
  {
    var u := [c] + y;
    forall k | 0 <= k <= |u|
      ensures MatchLen(u[k..], tool) == None
    {
      if k == 0 {
        assert u[0..] == u;
      } else {
        assert u[k..] == y[k - 1..];
      }
    }
  }

  /** `tool="<value>"` followed by a text free of occurrences is free of them,
      when value is not a version triple. */
  lemma NoMatchInReplacement(tool: string, v: string, y: string)
    requires ValidToolName(tool) && '"' !in v && '=' !in v && !IsVersionTriple(v)
    requires NoMatchIn(y, tool)
    ensures NoMatchIn(Replacement(tool, v) + y, tool)
  {
    var r := Replacement(tool, v);
    var u := r + y;
    forall k | 0 <= k <= |u|
      ensures MatchLen(u[k..], tool) == None
    {
      if k == 0 {
        assert u[0..] == u;
        ReplacementMatch(tool, v, y);
      } else if k < |r| {
        assert u[k..] == r[k..] + y;
        InnerNoMatch(tool, v, y, k);
      } else {
        assert u[k..] == y[k - |r|..];
      }
    }
  }

  /** Every occurrence is replaced, not only the first: when the new value is not
      itself a version triple, no occurrence is left in the output. */
  lemma {:induction false} NoPinLeft(s: string, tool: string, v: string)
    requires ValidToolName(tool) && '"' !in v && '=' !in v && !IsVersionTriple(v)
    ensures NoMatchIn(Substitute(s, tool, Replacement(tool, v)), tool)
    decreases |s|
  {
    var r := Replacement(tool, v);
    ReplacementChars(tool, v);
    if |s| == 0 {
      assert Substitute(s, tool, r)[0..] == [];
    } else {
      match MatchLen(s, tool)
      case Some(n) =>
        var y := Substitute(s[n..], tool, r);
        assert Substitute(s, tool, r) == r + y;
        NoPinLeft(s[n..], tool, v);
        NoMatchInReplacement(tool, v, y);
      case None =>
        var y := Substitute(s[1..], tool, r);
        assert Substitute(s, tool, r) == [s[0]] + y;
        NoPinLeft(s[1..], tool, v);
        UnmatchedStaysUnmatched(s, tool, r);
        NoMatchInCons(s[0], y, tool);
    }
  }

  lemma NoMatchInSuffix(s: string, n: nat, tool: string)
    requires n <= |s| && NoMatchIn(s, tool)
    ensures NoMatchIn(s[n..], tool)
  {
    forall k | 0 <= k <= |s| - n
      ensures MatchLen(s[n..][k..], tool) == None
    {
      assert s[n..][k..] == s[n + k..];
    }
  }

  /** No occurrence for one tool starts anywhere inside another tool's
      replacement `other="<value>"` when value opens with a non-digit and holds
      no `=`. */
  lemma BlockNoMatch(tool: string, other: string, v: string, y: string, k: nat)
    requires ValidToolName(tool) && ValidToolName(other)
    requires |v| > 0 && !IsDigit(v[0]) && '=' !in v
    requires k < |Replacement(other, v)|
    ensures MatchLen(Replacement(other, v)[k..] + y, tool) == None
  {
    var r, t := Replacement(other, v), |other|;
    var s := r[k..] + y;
    ReplacementChars(other, v);
    assert forall i :: 0 <= i < |r| - k ==> s[i] == r[k + i];
    if k <= t {
      // the `=` of the replacement, with a non-digit two places after it
      assert forall i :: 0 <= i < t - k ==> IsNameChar(s[i]);
      assert s[t - k] == '=';
      assert s[t - k + 2] == v[0];
      OpeningNoMatch(s, tool, t - k);
    } else {
      // past the `=`: no `=` before the closing quote
      assert forall i :: 0 <= i < |r| - k ==> s[i] != '=';
      assert s[|r| - k - 1] == '"';
      QuoteNoMatch(s, tool, |r| - k);
    }
  }

  /** No occurrence starts at e name characters followed by `="` and a non-digit. */
  lemma OpeningNoMatch(s: string, tool: string, e: nat)
    requires ValidToolName(tool) && AssignShape(s, 0, e)
    requires e + 2 < |s| && !IsDigit(s[e + 2])
    ensures MatchLen(s, tool) == None
  {
    if MatchLen(s, tool).Some? {
      OccurrenceShapeOf(s, tool);
    }
  }

  /** No occurrence starts in text whose first q characters hold no `=` and end
      with a quote. */
  lemma QuoteNoMatch(s: string, tool: string, q: nat)
    requires ValidToolName(tool) && 0 < q <= |s|
    requires forall i :: 0 <= i < q ==> s[i] != '='
    requires s[q - 1] == '"'
    ensures MatchLen(s, tool) == None
  {
    if MatchLen(s, tool).Some? {
      OccurrenceShapeOf(s, tool);
    }
  }

  /** `other="<value>"` followed by a text free of occurrences for tool is free of
      them, when value opens with a non-digit and holds no `=`. */
  lemma NoMatchInOpening(tool: string, other: string, v: string, y: string)
    requires ValidToolName(tool) && ValidToolName(other)
    requires |v| > 0 && !IsDigit(v[0]) && '=' !in v
    requires NoMatchIn(y, tool)
    ensures NoMatchIn(Replacement(other, v) + y, tool)
  {
    var r := Replacement(other, v);
    var u := r + y;
    forall k | 0 <= k <= |u|
      ensures MatchLen(u[k..], tool) == None
    {
      if k < |r| {
        assert u[k..] == r[k..] + y;
        BlockNoMatch(tool, other, v, y, k);
      } else {
        assert u[k..] == y[k - |r|..];
      }
    }
  }

  /** An unmatched start for tool stays unmatched however the text after it is
      rewritten for another tool whose replacement opens a non-numeric value. */
  lemma {:induction false} MatchThroughOther(x: string, rest: string, tool: string, other: string, repl: string)
    requires ValidToolName(tool) && ValidToolName(other) && |x| > 0
    requires OpensNonNumeric(repl, other)
    requires MatchLen(x + Substitute(rest, other, repl), tool).Some?
    ensures MatchLen(x + rest, tool) == MatchLen(x + Substitute(rest, other, repl), tool)
    decreases |rest|
  {
    var u := Substitute(rest, other, repl);
    if |rest| == 0 {
      assert u == rest;
    } else {
      match MatchLen(rest, other)
      case Some(m) =>
        var y := Substitute(rest[m..], other, repl);
        assert u == repl + y;
        OpensNonNumericConcat(repl, y, other);
        NoCrossingOther(x, u, tool, other);
        MatchLenWithin(x, u, tool);
        MatchLenExtend(x, rest, tool);
      case None =>
        var x' := x + [rest[0]];
        var y := Substitute(rest[1..], other, repl);
        assert u == [rest[0]] + y;
        ConcatAssoc(x, [rest[0]], y);
        ConcatAssoc(x, [rest[0]], rest[1..]);
        assert [rest[0]] + rest[1..] == rest;
        MatchThroughOther(x', rest[1..], tool, other, repl);
    }
  }

  /** Rewriting for another tool whose new value opens with a non-digit and holds
      no `=` never creates an occurrence for tool: a text free of tool's pattern
      stays free of it. */
  lemma {:induction false} PreservesNoPin(s: string, tool: string, other: string, v: string)
    requires ValidToolName(tool) && ValidToolName(other)
    requires |v| > 0 && !IsDigit(v[0]) && '=' !in v
    requires NoMatchIn(s, tool)
    ensures NoMatchIn(Substitute(s, other, Replacement(other, v)), tool)
    decreases |s|
  {
    var r := Replacement(other, v);
    ReplacementChars(other, v);
    if |s| == 0 {
      assert Substitute(s, other, r)[0..] == [];
    } else {
      match MatchLen(s, other)
      case Some(n) =>
        var y := Substitute(s[n..], other, r);
        assert Substitute(s, other, r) == r + y;
        NoMatchInSuffix(s, n, tool);
        PreservesNoPin(s[n..], tool, other, v);
        NoMatchInOpening(tool, other, v, y);
      case None =>
        var y := Substitute(s[1..], other, r);
        assert Substitute(s, other, r) == [s[0]] + y;
        NoMatchInTail(s, tool);
        PreservesNoPin(s[1..], tool, other, v);
        assert r[|other| + 2] == v[0];
        assert s[0..] == s && [s[0]] + s[1..] == s;
        assert MatchLen(s, tool) == None;
        if MatchLen([s[0]] + y, tool).Some? {
          MatchThroughOther([s[0]], s[1..], tool, other, r);
        }
        NoMatchInCons(s[0], y, tool);
    }
  }
}
