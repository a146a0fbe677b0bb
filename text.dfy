/**
 * The string operations the relay relies on: Python's `str.strip()`, the
 * `\s` class of its regular expressions, `str.startswith` and `str.join`.
 * Strings are sequences of characters; no Unicode normalisation is modelled.
 */
module Text {

  /** One whitespace predicate serves both `\s` in a pattern and `strip()`. */
  predicate IsSpace(c: char)
  {
    c == ' ' || c == '\t' || c == '\n' || c == '\r' || c == '\U{B}' || c == '\U{C}'
  }

  predicate AllSpace(s: string)
  {
    forall i | 0 <= i < |s| :: IsSpace(s[i])
  }

  /** `s` neither begins nor ends with whitespace: what `strip()` leaves. */
  predicate Trimmed(s: string)
  {
    s == [] || (!IsSpace(s[0]) && !IsSpace(s[|s| - 1]))
  }

  predicate StartsWith(s: string, prefix: string)
  {
    |prefix| <= |s| && s[..|prefix|] == prefix
  }

  /** `str.lstrip()`: the suffix left after all leading whitespace. */
  function TrimStart(s: string): (r: string)
    ensures |r| <= |s| && r == s[|s| - |r|..]
    ensures AllSpace(s[..|s| - |r|])
    ensures r == [] || !IsSpace(r[0])
  {
    if s != [] && IsSpace(s[0]) then
      var r := TrimStart(s[1..]);
      LeadingStep(s, r);
      r
    else
      s
  }

  /** `str.rstrip()`: the prefix left after all trailing whitespace. */
  function TrimEnd(s: string): (r: string)
    ensures |r| <= |s| && r == s[..|r|]
    ensures AllSpace(s[|r|..])
    ensures r == [] || !IsSpace(r[|r| - 1])
  {
    if s != [] && IsSpace(s[|s| - 1]) then
      var r := TrimEnd(s[..|s| - 1]);
      TrailingStep(s, r);
      r
    else
      s
  }

  /** One more leading space in front of what `lstrip()` skipped. */
  lemma LeadingStep(s: string, r: string)
    requires s != [] && IsSpace(s[0])
    requires |r| <= |s| - 1 && r == s[1..][|s| - 1 - |r|..] && AllSpace(s[1..][..|s| - 1 - |r|])
    ensures |r| <= |s| && r == s[|s| - |r|..] && AllSpace(s[..|s| - |r|])
  {
    assert s[1..][|s| - 1 - |r|..] == s[|s| - |r|..];
    assert s[1..][..|s| - 1 - |r|] == s[1..|s| - |r|];
  }

  /** One more trailing space behind what `rstrip()` skipped. */
  lemma TrailingStep(s: string, r: string)
    requires s != [] && IsSpace(s[|s| - 1])
    requires |r| <= |s| - 1 && r == s[..|s| - 1][..|r|] && AllSpace(s[..|s| - 1][|r|..])
    ensures |r| <= |s| && r == s[..|r|] && AllSpace(s[|r|..])
  {
    assert s[..|s| - 1][..|r|] == s[..|r|];
    assert s[..|s| - 1][|r|..] == s[|r|..|s| - 1];
  }

  /** A string that does not open with whitespace is its own `lstrip()`. */
  lemma TrimStartNoLead(s: string)
    requires s == [] || !IsSpace(s[0])
    ensures TrimStart(s) == s
  {
  }

  /** `str.strip()`. */
  function Trim(s: string): (r: string)
    ensures Trimmed(r)
    ensures |r| <= |s|
  {
    TrimEnd(TrimStart(s))
  }

  /** Leading whitespace does not change what `lstrip()` leaves. */
  lemma {:induction false} TrimStartSkipsSpace(ws: string, s: string)
    requires AllSpace(ws)
    ensures TrimStart(ws + s) == TrimStart(s)
  {
    if ws == [] {
      assert ws + s == s;
    } else {
      assert (ws + s)[0] == ws[0];
      assert (ws + s)[1..] == ws[1..] + s;
      TrimStartSkipsSpace(ws[1..], s);
    }
  }

  /** Trailing whitespace does not change what `rstrip()` leaves. */
  lemma {:induction false} TrimEndSkipsSpace(s: string, ws: string)
    requires AllSpace(ws)
    ensures TrimEnd(s + ws) == TrimEnd(s)
  {
    if ws == [] {
      assert s + ws == s;
    } else {
      var n := |ws| - 1;
      assert (s + ws)[|s + ws| - 1] == ws[n];
      assert (s + ws)[..|s + ws| - 1] == s + ws[..n];
      TrimEndSkipsSpace(s, ws[..n]);
    }
  }

  /**
   * `strip()` is determined by the decomposition it undoes: whatever
   * whitespace surrounds a trimmed core, stripping yields exactly that core.
   */
  lemma TrimUnique(lead: string, core: string, trail: string)
    requires AllSpace(lead) && AllSpace(trail) && Trimmed(core)
    ensures Trim(lead + core + trail) == core
  {
    assert lead + core + trail == lead + (core + trail);
    TrimStartSkipsSpace(lead, core + trail);
    if core == [] {
      assert core + trail == trail;
      assert TrimStart(trail) == [];
    } else {
      assert TrimStart(core + trail) == core + trail;
      TrimEndSkipsSpace(core, trail);
    }
  }

  /** Conversely, every string is its stripped core surrounded by whitespace. */
  lemma {:induction false} TrimSplits(s: string) returns (lead: string, trail: string)
    ensures AllSpace(lead) && AllSpace(trail)
    ensures s == lead + Trim(s) + trail
  {
    var m := TrimStart(s);
    var r := TrimEnd(m);
    lead, trail := s[..|s| - |m|], m[|r|..];
    SplitAt(s, |s| - |m|);
    SplitAt(m, |r|);
    Regroup(s, lead, m, r, trail);
  }

  lemma SplitAt(s: string, k: nat)
    requires k <= |s|
    ensures s == s[..k] + s[k..]
  {
  }

  lemma Assoc(a: string, b: string, c: string)
    ensures a + b + c == a + (b + c)
  {
  }

  lemma PrefixOfConcat(a: string, b: string)
    ensures StartsWith(a + b, a) && (a + b)[|a|..] == b
  {
  }

  lemma Regroup(s: string, lead: string, m: string, r: string, trail: string)
    requires s == lead + m && m == r + trail
    ensures s == lead + r + trail
  {
  }

  /** Stripping twice is stripping once. */
  lemma TrimIdempotent(s: string)
    ensures Trim(Trim(s)) == Trim(s)
  {
    TrimUnique([], Trim(s), []);
    assert [] + Trim(s) + [] == Trim(s);
  }

  /**
   * A prefix that ends in a non-space character survives `strip()` of a
   * string that starts with it (after the leading whitespace is gone).
   */
  lemma TrimKeepsPrefix(prefix: string, rest: string)
    requires prefix != [] && !IsSpace(prefix[0]) && !IsSpace(prefix[|prefix| - 1])
    ensures StartsWith(Trim(prefix + rest), prefix)
  {
    var s := prefix + rest;
    assert TrimStart(s) == s;
    var r := TrimEnd(s);
    assert s[|prefix| - 1] == prefix[|prefix| - 1];
    assert |prefix| <= |r|;
    assert r[..|prefix|] == s[..|prefix|];
  }

  /** `sep.join(parts)`. */
  function Join(parts: seq<string>, sep: string): (r: string)
    ensures |parts| == 1 ==> r == parts[0]
  {
    if |parts| == 0 then []
    else if |parts| == 1 then parts[0]
    else parts[0] + sep + Join(parts[1..], sep)
  }

  /** Joining splits at any boundary between non-empty runs of parts. */
  lemma {:induction false} JoinAppend(a: seq<string>, b: seq<string>, sep: string)
    requires a != [] && b != []
    ensures Join(a + b, sep) == Join(a, sep) + sep + Join(b, sep)
  {
    if |a| == 1 {
      assert (a + b)[1..] == b;
    } else {
      assert (a + b)[1..] == a[1..] + b;
      JoinAppend(a[1..], b, sep);
    }
  }
}
