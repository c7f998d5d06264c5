/** Character classes and the few string operations of Go's `strings`,
    `regexp` and `utf8string` packages that the logcheck rules use, restated
    over `seq<char>`. */
module Strings {

  predicate IsUpper(c: char) { 'A' <= c <= 'Z' }

  predicate IsLower(c: char) { 'a' <= c <= 'z' }

  predicate IsDigit(c: char) { '0' <= c <= '9' }

  /** The POSIX class `[[:alnum:]]`, which in Go's regexp is ASCII only. */
  predicate IsAlnum(c: char) { IsUpper(c) || IsLower(c) || IsDigit(c) }

  predicate AllAlnum(s: string) { forall i | 0 <= i < |s| :: IsAlnum(s[i]) }

  predicate AllUpper(s: string) { forall i | 0 <= i < |s| :: IsUpper(s[i]) }

  /** Every code point is below 0x80, as `utf8string.String.IsASCII` decides. */
  predicate IsAscii(s: string) { forall i | 0 <= i < |s| :: s[i] as int < 0x80 }

  predicate OccursAt(s: string, sub: string, i: int)
  {
    0 <= i && i + |sub| <= |s| && s[i..i + |sub|] == sub
  }

  /** `strings.Contains`. */
  predicate Contains(s: string, sub: string)
  {
    exists i | 0 <= i <= |s| - |sub| :: OccursAt(s, sub, i)
  }

  lemma ContainsMiddle(a: string, b: string, c: string)
    ensures Contains(a + b + c, b)
  {
    assert (a + b + c)[|a|..|a| + |b|] == b;
    assert OccursAt(a + b + c, b, |a|);
  }

  /** `strings.HasSuffix`. */
  predicate HasSuffix(s: string, suffix: string)
  {
    |suffix| <= |s| && s[|s| - |suffix|..] == suffix
  }

  /** `strings.TrimLeft(s, "\"")`: drops every leading double quote. */
  function TrimLeftQuotes(s: string): (r: string)
  {
    if |s| > 0 && s[0] == '"' then TrimLeftQuotes(s[1..]) else s
  }

  /** `strings.TrimRight(s, "\"")`: drops every trailing double quote. */
  function TrimRightQuotes(s: string): (r: string)
  {
    if |s| > 0 && s[|s| - 1] == '"' then TrimRightQuotes(s[..|s| - 1]) else s
  }

  /** `strings.Trim(s, "\"")`: the text of a string literal without its quotes. */
  function TrimQuotes(s: string): string
  {
    TrimRightQuotes(TrimLeftQuotes(s))
  }

  /** What is left after trimming: a contiguous part of the text, neither
      starting nor ending with a double quote, with only double quotes cut
      off either side. */
  lemma {:induction false} TrimQuotesShape(s: string)
    ensures var r := TrimQuotes(s);
      && (exists i | 0 <= i <= |s| - |r| :: OccursAt(s, r, i)
            && (forall j | 0 <= j < i :: s[j] == '"')
            && (forall j | i + |r| <= j < |s| :: s[j] == '"'))
      && (r == [] || (r[0] != '"' && r[|r| - 1] != '"'))
  {
    var l := TrimLeftQuotes(s);
    TrimLeftShape(s);
    TrimRightShape(l);
    var r := TrimRightQuotes(l);
    assert r == TrimQuotes(s);
    var i := |s| - |l|;
    assert 0 <= i <= |s| - |r|;
    assert s[i..i + |r|] == l[..|r|];
    assert OccursAt(s, r, i);
    forall j | i + |r| <= j < |s| ensures s[j] == '"' {
      assert s[j] == l[j - i];
    }
    if r != [] {
      assert r[0] == l[0];
    }
    assert OccursAt(s, r, i) && (forall j | 0 <= j < i :: s[j] == '"') && (forall j | i + |r| <= j < |s| :: s[j] == '"');
  }

  lemma {:induction false} TrimLeftShape(s: string)
    ensures var r := TrimLeftQuotes(s);
      && |r| <= |s| && r == s[|s| - |r|..] && (r == [] || r[0] != '"')
      && forall j | 0 <= j < |s| - |r| :: s[j] == '"'
  {
    if |s| > 0 && s[0] == '"' {
      TrimLeftShape(s[1..]);
      var r := TrimLeftQuotes(s[1..]);
      assert s[1..][|s| - 1 - |r|..] == s[|s| - |r|..];
      forall j | 0 <= j < |s| - |r| ensures s[j] == '"' {
        if j > 0 { assert s[j] == s[1..][j - 1]; }
      }
    }
  }

  lemma {:induction false} TrimRightShape(s: string)
    ensures var r := TrimRightQuotes(s);
      && |r| <= |s| && r == s[..|r|] && (r == [] || r[|r| - 1] != '"')
      && forall j | |r| <= j < |s| :: s[j] == '"'
  {
    if |s| > 0 && s[|s| - 1] == '"' {
      var p := s[..|s| - 1];
      TrimRightShape(p);
      var r := TrimRightQuotes(p);
      assert p[..|r|] == s[..|r|];
      forall j | |r| <= j < |s| ensures s[j] == '"' {
        if j < |s| - 1 { assert s[j] == p[j]; }
      }
    }
  }

  /** The source text of an interpreted string literal with the given contents. */
  function Quote(s: string): string
  {
    "\"" + s + "\""
  }

  /** Trimming undoes quoting for every text that does not itself start or
      end with a double quote. */
  lemma {:induction false} TrimQuotesOfQuote(s: string)
    requires s == [] || (s[0] != '"' && s[|s| - 1] != '"')
    ensures TrimQuotes(Quote(s)) == s
  {
    var q := Quote(s);
    var tail := s + "\"";
    assert q[1..] == tail;
    assert TrimLeftQuotes(q) == TrimLeftQuotes(tail);
    if s == [] {
      assert TrimLeftQuotes(tail) == TrimLeftQuotes([]) == [];
      assert TrimRightQuotes(tail) == TrimRightQuotes([]);
    } else {
      assert tail[0] == s[0];
      assert TrimLeftQuotes(tail) == tail;
      assert tail[..|tail| - 1] == s;
      assert TrimRightQuotes(tail) == TrimRightQuotes(s) == s;
    }
  }
}
