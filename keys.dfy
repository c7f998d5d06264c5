/** The key/value list validators `isKeysValid` and `keysCheck`: a list of
    additional arguments must come in pairs, and each key must be an inlined
    string literal that is ASCII (`isKeysValid`) or follows the key naming
    pattern (`keysCheck`). Values are never inspected. */
module KeyValues {
  import opened Strings
  import opened GoAst
  import opened Report

  /** The last test each validator applies to a string literal key. */
  datatype KeyRule = AsciiRule | PatternRule

  /** The key pattern `(^[A-Z]{2,}|^[a-z])[[:alnum:]]*$` matched against the
      whole text: a run of at least two capitals or one lower-case letter,
      then alphanumerics to the end. */
  predicate KeyPatternMatches(s: string)
  {
    || (|s| >= 1 && IsLower(s[0]) && AllAlnum(s[1..]))
    || (exists k | 2 <= k <= |s| :: AllUpper(s[..k]) && AllAlnum(s[k..]))
  }

  /** A text matches the key pattern iff it is non-empty and alphanumeric and
      starts with one lower-case letter or with two capitals. */
  lemma KeyPatternShape(s: string)
    ensures KeyPatternMatches(s) <==>
              |s| > 0 && AllAlnum(s) && (IsLower(s[0]) || (|s| >= 2 && IsUpper(s[0]) && IsUpper(s[1])))
  {
    if |s| > 0 && AllAlnum(s) && !IsLower(s[0]) && |s| >= 2 && IsUpper(s[0]) && IsUpper(s[1]) {
      assert AllUpper(s[..2]) && AllAlnum(s[2..]);
    }
    if KeyPatternMatches(s) && !(|s| >= 1 && IsLower(s[0]) && AllAlnum(s[1..])) {
      var k :| 2 <= k <= |s| && AllUpper(s[..k]) && AllAlnum(s[k..]);
      assert s[0] == s[..k][0] && s[1] == s[..k][1];
      forall i | 0 <= i < |s| ensures IsAlnum(s[i]) {
        if i < k { assert s[i] == s[..k][i]; } else { assert s[i] == s[k..][i - k]; }
      }
    }
  }

  /** A single capital and the empty text are not keys. */
  lemma ShortKeysRejected()
    ensures !KeyPatternMatches("A") && !KeyPatternMatches("")
  {
    KeyPatternShape("A");
  }

  /** The key passes the validator's rule. */
  predicate AcceptedKey(rule: KeyRule, key: Expr)
  {
    && key.BasicLit?
    && key.kind == StringLit
    && match rule
       case AsciiRule => IsAscii(key.value)
       case PatternRule => KeyPatternMatches(TrimQuotes(key.value))
  }

  /** What the validator reports about one key. */
  function KeyFindings(rule: KeyRule, key: Expr): (r: seq<Diagnostic>)
    ensures |r| <= 1
    ensures r == [] <==> AcceptedKey(rule, key)
    ensures forall d | d in r :: d.IsKeyFinding()
    ensures !(key.BasicLit? && key.kind == StringLit) ==> r == [KeyNotInlinedString(key)]
  {
    match key
    case BasicLit(kind, value) =>
      if kind != StringLit then [KeyNotInlinedString(key)]
      else (match rule
        case AsciiRule => if IsAscii(value) then [] else [KeyNotAscii(value)]
        case PatternRule => if KeyPatternMatches(TrimQuotes(value)) then [] else [KeyBadPattern(value)])
    case _ => [KeyNotInlinedString(key)]
  }

  /** The findings for an even-length list, pair by pair: the key of each pair
      is checked and its value skipped. */
  function PairsReport(rule: KeyRule, keyValues: seq<Expr>): (r: seq<Diagnostic>)
    requires |keyValues| % 2 == 0
    ensures |r| <= |keyValues| / 2
    ensures forall d | d in r :: d.IsKeyFinding()
    decreases |keyValues|
  {
    if keyValues == [] then []
    else KeyFindings(rule, keyValues[0]) + PairsReport(rule, keyValues[2..])
  }

  /** Everything a validator reports for a key/value list. */
  function KeysReport(rule: KeyRule, keyValues: seq<Expr>, funName: string): (r: seq<Diagnostic>)
    ensures |keyValues| % 2 != 0 ==> r == [NotKeyValuePairs(funName)]
    ensures |keyValues| % 2 == 0 ==> |r| <= |keyValues| / 2 && forall d | d in r :: d.IsKeyFinding()
  {
    if |keyValues| % 2 != 0 then [NotKeyValuePairs(funName)]
    else PairsReport(rule, keyValues)
  }

  /** The findings for the keys at the even positions below `n`, collected
      in the order a forward walk over the list meets them. */
  function KeysBefore(rule: KeyRule, keyValues: seq<Expr>, n: nat): seq<Diagnostic>
    requires n <= |keyValues|
  {
    if n < 2 then [] else KeysBefore(rule, keyValues, n - 2) + KeyFindings(rule, keyValues[n - 2])
  }

  /** The forward walk over a whole even-length list yields the pairwise
      findings. */
  lemma {:induction false} KeysBeforeAll(rule: KeyRule, keyValues: seq<Expr>)
    requires |keyValues| % 2 == 0
    ensures KeysBefore(rule, keyValues, |keyValues|) == PairsReport(rule, keyValues)
    decreases |keyValues|
  {
    if keyValues != [] {
      var rest := keyValues[2..];
      KeysBeforeAll(rule, rest);
      KeysBeforeShift(rule, keyValues, |rest|);
    }
  }

  /** Dropping the first pair shifts the walk by two positions. */
  lemma {:induction false} KeysBeforeShift(rule: KeyRule, keyValues: seq<Expr>, n: nat)
    requires 2 <= |keyValues| && n + 2 <= |keyValues| && n % 2 == 0
    ensures KeysBefore(rule, keyValues, n + 2) == KeyFindings(rule, keyValues[0]) + KeysBefore(rule, keyValues[2..], n)
  {
    if n >= 2 {
      KeysBeforeShift(rule, keyValues, n - 2);
      assert keyValues[2..][n - 2] == keyValues[n];
    }
  }

  /** Values never matter: lists with the same keys get the same findings. */
  lemma {:induction false} ValuesIgnored(rule: KeyRule, keyValues: seq<Expr>, other: seq<Expr>)
    requires |keyValues| == |other| && |keyValues| % 2 == 0
    requires forall i | 0 <= i < |keyValues| && i % 2 == 0 :: keyValues[i] == other[i]
    ensures PairsReport(rule, keyValues) == PairsReport(rule, other)
    decreases |keyValues|
  {
    if keyValues != [] {
      assert keyValues[0] == other[0];
      forall i | 0 <= i < |keyValues| - 2 && i % 2 == 0 ensures keyValues[2..][i] == other[2..][i] {
        assert keyValues[i + 2] == other[i + 2];
      }
      ValuesIgnored(rule, keyValues[2..], other[2..]);
    }
  }

  /** An even-length list draws no finding iff every key is accepted. */
  lemma {:induction false} CleanIffKeysAccepted(rule: KeyRule, keyValues: seq<Expr>)
    requires |keyValues| % 2 == 0
    ensures PairsReport(rule, keyValues) == [] <==>
              forall i | 0 <= i < |keyValues| && i % 2 == 0 :: AcceptedKey(rule, keyValues[i])
    decreases |keyValues|
  {
    if keyValues != [] {
      var rest := keyValues[2..];
      CleanIffKeysAccepted(rule, rest);
      if forall i | 0 <= i < |rest| && i % 2 == 0 :: AcceptedKey(rule, rest[i]) {
        if AcceptedKey(rule, keyValues[0]) {
          forall i | 0 <= i < |keyValues| && i % 2 == 0 ensures AcceptedKey(rule, keyValues[i]) {
            if i > 0 { assert keyValues[i] == rest[i - 2]; }
          }
        }
      } else {
        var i :| 0 <= i < |rest| && i % 2 == 0 && !AcceptedKey(rule, rest[i]);
        assert keyValues[i + 2] == rest[i];
      }
    }
  }

  /** A rejected key at an even position is reported, with the finding the
      rule gives for it. */
  lemma {:induction false} RejectedKeyReported(rule: KeyRule, keyValues: seq<Expr>, i: nat)
    requires |keyValues| % 2 == 0 && i < |keyValues| && i % 2 == 0
    requires !AcceptedKey(rule, keyValues[i])
    ensures KeyFindings(rule, keyValues[i])[0] in PairsReport(rule, keyValues)
    decreases |keyValues|
  {
    if i > 0 {
      assert keyValues[i] == keyValues[2..][i - 2];
      RejectedKeyReported(rule, keyValues[2..], i - 2);
    }
  }

  /** In an even-length list the key at an even position has a value after it. */
  lemma KeyHasValue(index: int, length: int)
    requires 0 <= index < length && index % 2 == 0 && length % 2 == 0
    ensures index + 1 < length
  {
  }

  /** `isKeysValid`: reports an odd-length list once; otherwise walks the
      list, skipping values, and reports each key that is not an inlined
      string literal or is not ASCII. */
  method IsKeysValid(pass: Pass, keyValues: seq<Expr>, funName: string)
    modifies pass
    ensures pass.diagnostics == old(pass.diagnostics) + KeysReport(AsciiRule, keyValues, funName)
  {
    if |keyValues| % 2 != 0 {
      pass.Report(NotKeyValuePairs(funName));
      return;
    }
    for index := 0 to |keyValues|
      invariant index % 2 == 0 ==> pass.diagnostics == old(pass.diagnostics) + KeysBefore(AsciiRule, keyValues, index)
      invariant index % 2 == 1 ==> index < |keyValues| && pass.diagnostics == old(pass.diagnostics) + KeysBefore(AsciiRule, keyValues, index + 1)
    {
      if index % 2 != 0 {
        continue;
      }
      var arg := keyValues[index];
      KeyHasValue(index, |keyValues|);
      ghost var findings := KeyFindings(AsciiRule, arg);
      ghost var before := pass.diagnostics;
      if !arg.BasicLit? {
        pass.Report(KeyNotInlinedString(arg));
      } else if arg.kind != StringLit {
        pass.Report(KeyNotInlinedString(arg));
      } else if !IsAscii(arg.value) {
        pass.Report(KeyNotAscii(arg.value));
      }
      assert pass.diagnostics == before + findings;
      AppendAssoc(old(pass.diagnostics), KeysBefore(AsciiRule, keyValues, index), findings);
    }
    KeysBeforeAll(AsciiRule, keyValues);
  }

  /** `keysCheck`: the same walk, with the key naming pattern, applied to the
      text of the key without its quotes, as the last test. */
  method KeysCheck(pass: Pass, keyValues: seq<Expr>, funName: string)
    modifies pass
    ensures pass.diagnostics == old(pass.diagnostics) + KeysReport(PatternRule, keyValues, funName)
  {
    if |keyValues| % 2 != 0 {
      pass.Report(NotKeyValuePairs(funName));
      return;
    }
    for index := 0 to |keyValues|
      invariant index % 2 == 0 ==> pass.diagnostics == old(pass.diagnostics) + KeysBefore(PatternRule, keyValues, index)
      invariant index % 2 == 1 ==> index < |keyValues| && pass.diagnostics == old(pass.diagnostics) + KeysBefore(PatternRule, keyValues, index + 1)
    {
      if index % 2 != 0 {
        continue;
      }
      var arg := keyValues[index];
      KeyHasValue(index, |keyValues|);
      ghost var findings := KeyFindings(PatternRule, arg);
      ghost var before := pass.diagnostics;
      if !arg.BasicLit? {
        pass.Report(KeyNotInlinedString(arg));
      } else if arg.kind != StringLit {
        pass.Report(KeyNotInlinedString(arg));
      } else if !KeyPatternMatches(TrimQuotes(arg.value)) {
        pass.Report(KeyBadPattern(arg.value));
      }
      assert pass.diagnostics == before + findings;
      AppendAssoc(old(pass.diagnostics), KeysBefore(PatternRule, keyValues, index), findings);
    }
    KeysBeforeAll(PatternRule, keyValues);
  }
}
