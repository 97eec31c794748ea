/** Secret redaction in the connectivity report: the two key patterns, the
    left-to-right substitution `re.sub` performs with each, and the
    truncated failure detail. */
module Connectivity {
  import opened Wrappers
  import opened Text

  /** What every redacted key is replaced by. */
  const Marker: string := "[REDACTED_KEY]"

  /** A pattern `prefix[A-Za-z0-9_\-]{minRun,}`: a fixed prefix followed by
      a greedy run of at least `minRun` key characters. */
  datatype Pattern = Pattern(prefix: string, minRun: nat)

  /** The prefix is never empty, so every match consumes characters. */
  type SecretPattern = p: Pattern | |p.prefix| > 0 witness Pattern("sk-", 8)

  /** An OpenAI-style key: `sk-[A-Za-z0-9_\-]{8,}`. */
  const OpenAiKey: SecretPattern := Pattern("sk-", 8)

  /** A Google-style key: `AIza[0-9A-Za-z_\-]{16,}`. */
  const GoogleKey: SecretPattern := Pattern("AIza", 16)

  /** `SECRET_PATTERNS`, in the order they are applied. */
  const SecretPatterns: seq<SecretPattern> := [OpenAiKey, GoogleKey]

  /** The character class `[A-Za-z0-9_\-]`. */
  predicate KeyChar(c: char) {
    IsWordChar(c) || c == '-'
  }

  /** The length of the longest run of key characters `s` starts with. */
  function Run(s: string): (n: nat)
    ensures n <= |s|
    ensures forall k :: 0 <= k < n ==> KeyChar(s[k])
    ensures n < |s| ==> !KeyChar(s[n])
  {
    if s == [] || !KeyChar(s[0]) then 0 else 1 + Run(s[1..])
  }

  /** `s` starts with the prefix followed by at least `minRun` key
      characters: whether the pattern matches at the start of `s`. */
  predicate Matches(p: SecretPattern, s: string) {
    && |p.prefix| + p.minRun <= |s|
    && s[..|p.prefix|] == p.prefix
    && forall k :: |p.prefix| <= k < |p.prefix| + p.minRun ==> KeyChar(s[k])
  }

  /** The length of the (greedy) match of the pattern at the start of `s`,
      if there is one. */
  function MatchAt(p: SecretPattern, s: string): (r: Option<nat>)
    ensures r.Some? <==> Matches(p, s)
    ensures r.Some? ==> && |p.prefix| + p.minRun <= r.value <= |s|
                        && (forall k :: |p.prefix| <= k < r.value ==> KeyChar(s[k]))
                        && (r.value < |s| ==> !KeyChar(s[r.value]))
  {
    MatchesRun(p, s);
    if |p.prefix| <= |s| && s[..|p.prefix|] == p.prefix && Run(s[|p.prefix|..]) >= p.minRun then
      Some(|p.prefix| + Run(s[|p.prefix|..]))
    else
      None
  }

  /** A match has at least `minRun` key characters after its prefix. */
  lemma MatchesRun(p: SecretPattern, s: string)
    ensures Matches(p, s) ==> |p.prefix| <= |s| && Run(s[|p.prefix|..]) >= p.minRun
  {
    if Matches(p, s) {
      var t := s[|p.prefix|..];
      forall k | 0 <= k < p.minRun ensures KeyChar(t[k]) {
        assert t[k] == s[|p.prefix| + k];
      }
      RunAtLeast(t, p.minRun);
    }
  }

  /** A text that starts with `m` key characters has a run of at least `m`. */
  lemma {:induction false} RunAtLeast(t: string, m: nat)
    requires m <= |t|
    requires forall k :: 0 <= k < m ==> KeyChar(t[k])
    ensures Run(t) >= m
    decreases m
  {
    if m > 0 {
      forall k | 0 <= k < m - 1 ensures KeyChar(t[1..][k]) {
        assert t[1..][k] == t[k + 1];
      }
      RunAtLeast(t[1..], m - 1);
    }
  }

  /** `pattern.sub(Marker, s)`: scanning from the left, each match is
      replaced by the marker and the scan resumes after it; a position where
      the pattern does not match keeps its character. */
  function Sub(p: SecretPattern, s: string): string
    decreases |s|
  {
    if s == [] then []
    else
      match MatchAt(p, s)
      case Some(n) => Marker + Sub(p, s[n..])
      case None => [s[0]] + Sub(p, s[1..])
  }

  /** The patterns `ps` applied in turn. */
  function SubAll(ps: seq<SecretPattern>, text: string): string
    decreases |ps|
  {
    if ps == [] then text else Sub(ps[|ps| - 1], SubAll(ps[..|ps| - 1], text))
  }

  /** `redact_secrets(text)`. */
  function Redacted(text: string): string {
    SubAll(SecretPatterns, text)
  }

  /** No position of `t` starts a match of the pattern. */
  predicate NoMatchIn(p: SecretPattern, t: string) {
    forall i :: 0 <= i < |t| ==> !Matches(p, t[i..])
  }

  /** `redact_secrets`: each pattern in turn replaces its matches. */
  method RedactSecrets(text: string) returns (redacted: string)
    ensures redacted == Redacted(text)
    ensures NoMatchIn(OpenAiKey, redacted) && NoMatchIn(GoogleKey, redacted)
  {
    redacted := text;
    var i := 0;
    while i < |SecretPatterns|
      invariant 0 <= i <= |SecretPatterns|
      invariant redacted == SubAll(SecretPatterns[..i], text)
    {
      assert SecretPatterns[..i + 1][..i] == SecretPatterns[..i];
      redacted := Sub(SecretPatterns[i], redacted);
      i := i + 1;
    }
    assert SecretPatterns[..i] == SecretPatterns;
    NoSecretLeft(text);
  }

  /** The detail of a failed check: the redacted message, cut to its first
      220 characters. */
  function FailureDetail(message: string): (r: string)
    ensures |r| <= 220
    ensures r <= Redacted(message)
    ensures |r| < 220 ==> r == Redacted(message)
  {
    var redacted := Redacted(message);
    if |redacted| <= 220 then redacted else redacted[..220]
  }

  // ----- Properties -----

  /** The OpenAI pattern is applied first, then the Google one. */
  lemma RedactedInOrder(text: string)
    ensures Redacted(text) == Sub(GoogleKey, Sub(OpenAiKey, text))
  {
    assert SecretPatterns[..1] == [OpenAiKey];
    assert [OpenAiKey][..0] == [];
    assert SubAll(SecretPatterns, text) == Sub(GoogleKey, SubAll([OpenAiKey], text));
    assert SubAll([OpenAiKey], text) == Sub(OpenAiKey, SubAll([], text));
  }

  /** The marker cannot be the start of a match: at each of its positions a
      character differs from the pattern's prefix, and `[` is neither a
      prefix character nor a key character. */
  ghost predicate MarkerSafe(p: SecretPattern) {
    && '[' !in p.prefix
    && forall j :: 0 <= j < |Marker| ==> MismatchFrom(p.prefix, j)
  }

  /** Some character of `prefix` differs from the marker read from `j` on. */
  ghost predicate MismatchFrom(prefix: string, j: nat) {
    exists k :: Mismatch(prefix, j, k)
  }

  /** The `k`-th character of `prefix` differs from the marker's `j + k`-th. */
  predicate Mismatch(prefix: string, j: nat, k: nat) {
    k < |prefix| && j + k < |Marker| && prefix[k] != Marker[j + k]
  }

  lemma SecretPatternsMarkerSafe()
    ensures MarkerSafe(OpenAiKey) && MarkerSafe(GoogleKey)
  {
    assert 's' !in Marker && 'I' !in Marker;
    forall j | 0 <= j < |Marker|
      ensures MismatchFrom(OpenAiKey.prefix, j)
    {
      assert Marker[j] in Marker;
      assert Mismatch(OpenAiKey.prefix, j, 0);
    }
    forall j | 0 <= j < |Marker|
      ensures MismatchFrom(GoogleKey.prefix, j)
    {
      if j + 1 < |Marker| {
        assert Marker[j + 1] in Marker;
        assert Mismatch(GoogleKey.prefix, j, 1);
      } else {
        assert Mismatch(GoogleKey.prefix, j, 0);
      }
    }
  }

  /** No match starts inside a marker, whatever follows it. */
  lemma MarkerNoMatch(p: SecretPattern, j: nat, t: string)
    requires MarkerSafe(p) && j < |Marker|
    ensures !Matches(p, (Marker + t)[j..])
  {
    assert MismatchFrom(p.prefix, j);
    var k: nat :| Mismatch(p.prefix, j, k);
    var s := (Marker + t)[j..];
    if |p.prefix| <= |s| {
      assert s[..|p.prefix|][k] == s[k] == Marker[j + k];
    }
  }

  /** The substitution keeps the first `m` characters of `s` and then either
      ends or goes on with a marker. */
  lemma SubHead(p: SecretPattern, s: string) returns (m: nat)
    ensures m <= |s| && m <= |Sub(p, s)| && Sub(p, s)[..m] == s[..m]
    ensures m == |Sub(p, s)| ==> m == |s|
    ensures m < |Sub(p, s)| ==> Sub(p, s)[m] == '['
    decreases |s|
  {
    if s == [] {
      m := 0;
    } else {
      match MatchAt(p, s)
      case Some(n) => m := 0;
      case None =>
        var m' := SubHead(p, s[1..]);
        m := m' + 1;
        var o := Sub(p, s);
        assert o == [s[0]] + Sub(p, s[1..]);
        assert o[..m] == [s[0]] + Sub(p, s[1..])[..m'];
        assert s[..m] == [s[0]] + s[1..][..m'];
    }
  }

  /** A kept first character cannot start a match of a marker-safe pattern
      unless the original text matched there. */
  lemma KeptHeadNoMatch(p: SecretPattern, q: SecretPattern, s: string)
    requires MarkerSafe(p) && |s| > 0 && MatchAt(q, s).None? && !Matches(p, s)
    ensures !Matches(p, Sub(q, s))
  {
    var o := Sub(q, s);
    var m' := SubHead(q, s[1..]);
    var m := m' + 1;
    assert o == [s[0]] + Sub(q, s[1..]);
    assert o[..m] == s[..m] by {
      assert o[..m] == [s[0]] + Sub(q, s[1..])[..m'];
      assert s[..m] == [s[0]] + s[1..][..m'];
    }
    var L := |p.prefix| + p.minRun;
    if L <= m {
      assert o[..L] == s[..L] by {
        assert o[..L] == o[..m][..L];
        assert s[..L] == s[..m][..L];
      }
      SameWindow(p, o, s);
    } else if m < |o| {
      BracketBlocks(p, o, m);
    }
  }

  /** Whether the pattern matches depends only on the first
      `|prefix| + minRun` characters. */
  lemma SameWindow(p: SecretPattern, a: string, b: string)
    requires |p.prefix| + p.minRun <= |a| && |p.prefix| + p.minRun <= |b|
    requires a[..|p.prefix| + p.minRun] == b[..|p.prefix| + p.minRun]
    ensures Matches(p, a) == Matches(p, b)
  {
    var L := |p.prefix| + p.minRun;
    assert a[..|p.prefix|] == a[..L][..|p.prefix|];
    assert b[..|p.prefix|] == b[..L][..|p.prefix|];
    forall k | |p.prefix| <= k < L ensures a[k] == b[k] {
      assert a[k] == a[..L][k];
      assert b[k] == b[..L][k];
    }
  }

  /** A `[` within the first `|prefix| + minRun` characters rules out a
      match when `[` is not in the prefix. */
  lemma BracketBlocks(p: SecretPattern, t: string, m: nat)
    requires '[' !in p.prefix && m < |t| && m < |p.prefix| + p.minRun && t[m] == '['
    ensures !Matches(p, t)
  {
    if m < |p.prefix| && |p.prefix| <= |t| {
      assert t[..|p.prefix|][m] == '[';
      assert p.prefix[m] in p.prefix;
    }
  }

  /** After substituting with `q`, no match of `p` is left, provided `p` is
      `q` itself or there was none before. */
  lemma {:induction false} SubClean(p: SecretPattern, q: SecretPattern, s: string)
    requires MarkerSafe(p) && (p == q || NoMatchIn(p, s))
    ensures NoMatchIn(p, Sub(q, s))
    decreases |s|
  {
    if s != [] {
      var o := Sub(q, s);
      match MatchAt(q, s)
      case Some(n) =>
        var rest := Sub(q, s[n..]);
        if p != q {
          forall i | 0 <= i < |s[n..]| ensures !Matches(p, s[n..][i..]) {
            assert s[n..][i..] == s[n + i..];
          }
        }
        SubClean(p, q, s[n..]);
        assert o == Marker + rest;
        forall i | 0 <= i < |o| ensures !Matches(p, o[i..]) {
          if i < |Marker| {
            MarkerNoMatch(p, i, rest);
          } else {
            assert o[i..] == rest[i - |Marker|..];
          }
        }
      case None =>
        var rest := Sub(q, s[1..]);
        if p != q {
          forall i | 0 <= i < |s[1..]| ensures !Matches(p, s[1..][i..]) {
            assert s[1..][i..] == s[1 + i..];
          }
          assert !Matches(p, s[0..]);
        }
        assert s[0..] == s;
        SubClean(p, q, s[1..]);
        assert o == [s[0]] + rest;
        forall i | 0 <= i < |o| ensures !Matches(p, o[i..]) {
          if i == 0 {
            KeptHeadNoMatch(p, q, s);
            assert o[0..] == o;
          } else {
            assert o[i..] == rest[i - 1..];
          }
        }
    }
  }

  /** No key of either kind is left in redacted text. */
  lemma NoSecretLeft(text: string)
    ensures NoMatchIn(OpenAiKey, Redacted(text)) && NoMatchIn(GoogleKey, Redacted(text))
  {
    RedactedInOrder(text);
    SecretPatternsMarkerSafe();
    SubClean(OpenAiKey, OpenAiKey, text);
    SubClean(OpenAiKey, GoogleKey, Sub(OpenAiKey, text));
    SubClean(GoogleKey, GoogleKey, Sub(OpenAiKey, text));
  }

  /** Text without a match is left as it is. */
  lemma {:induction false} SubUnchanged(p: SecretPattern, s: string)
    requires NoMatchIn(p, s)
    ensures Sub(p, s) == s
    decreases |s|
  {
    if s != [] {
      assert s[0..] == s;
      forall i | 0 <= i < |s[1..]| ensures !Matches(p, s[1..][i..]) {
        assert s[1..][i..] == s[1 + i..];
      }
      SubUnchanged(p, s[1..]);
    }
  }

  /** Redaction leaves a text alone exactly when it holds no key. */
  lemma RedactedFixedPoint(text: string)
    ensures Redacted(text) == text <==> NoMatchIn(OpenAiKey, text) && NoMatchIn(GoogleKey, text)
  {
    RedactedInOrder(text);
    if NoMatchIn(OpenAiKey, text) && NoMatchIn(GoogleKey, text) {
      SubUnchanged(OpenAiKey, text);
      SubUnchanged(GoogleKey, text);
    }
    NoSecretLeft(text);
  }

  /** Redacting twice is redacting once. */
  lemma RedactIdempotent(text: string)
    ensures Redacted(Redacted(text)) == Redacted(text)
  {
    NoSecretLeft(text);
    RedactedFixedPoint(Redacted(text));
  }

  /** A prefix that does not occur cannot start a match. */
  lemma AbsentPrefixNoMatch(p: SecretPattern, s: string)
    requires !IsSubstring(p.prefix, s)
    ensures NoMatchIn(p, s)
  {
    forall i | 0 <= i < |s| ensures !Matches(p, s[i..]) {
      if i + |p.prefix| <= |s| {
        assert s[i..i + |p.prefix|] == s[i..][..|p.prefix|];
        assert !SubstringAt(p.prefix, s, i);
      }
    }
  }

  /** Text in which neither `sk-` nor `AIza` occurs is returned unchanged. */
  lemma NoPrefixUnchanged(text: string)
    requires !IsSubstring("sk-", text) && !IsSubstring("AIza", text)
    ensures Redacted(text) == text
  {
    AbsentPrefixNoMatch(OpenAiKey, text);
    AbsentPrefixNoMatch(GoogleKey, text);
    RedactedFixedPoint(text);
  }

  /** Text shorter than the shortest key (`sk-` and 8 characters) is
      returned unchanged; in particular a short `sk-` is kept. */
  lemma ShortTextUnchanged(text: string)
    requires |text| < |OpenAiKey.prefix| + OpenAiKey.minRun
    ensures Redacted(text) == text
  {
    RedactedFixedPoint(text);
  }

  /** An `sk-` followed by fewer than eight key characters is no match. */
  lemma ShortKeyKept(run: string, rest: string)
    requires |run| < 8 && (forall k :: 0 <= k < |run| ==> KeyChar(run[k]))
    requires rest == [] || !KeyChar(rest[0])
    ensures MatchAt(OpenAiKey, "sk-" + run + rest).None?
  {
    var s := "sk-" + run + rest;
    if rest != [] {
      assert s[3 + |run|] == rest[0];
    }
  }

  /** A position where the pattern does not match keeps its character. */
  lemma SubKeeps(p: SecretPattern, s: string)
    requires s != [] && !Matches(p, s)
    ensures Sub(p, s) == [s[0]] + Sub(p, s[1..])
  {
  }

  /** A match at the start becomes the marker. */
  lemma SubReplaces(p: SecretPattern, s: string, n: nat)
    requires MatchAt(p, s) == Some(n)
    ensures Sub(p, s) == Marker + Sub(p, s[n..])
  {
  }

  /** Keeping the first character of `u` keeps it in front of the rest. */
  lemma KeepStep(p: SecretPattern, u: string, s: string, a: string, b: string)
    requires u != [] && !Matches(p, u + s)
    requires Sub(p, u[1..] + s) == u[1..] + a + b
    ensures Sub(p, u + s) == u + a + b
  {
    var t := u + s;
    assert t[0] == u[0] && t[1..] == u[1..] + s;
    SubKeeps(p, t);
    assert [u[0]] + (u[1..] + a + b) == u + a + b;
  }

  /** With nothing before it, the match is replaced at once. */
  lemma LeftmostBase(p: SecretPattern, u: string, s: string, n: nat)
    requires u == [] && MatchAt(p, s) == Some(n)
    ensures Sub(p, u + s) == u + Marker + Sub(p, s[n..])
  {
    assert u + s == s;
    SubReplaces(p, s, n);
  }

  /** No match starts in `u`, seen from its second character on. */
  lemma NoMatchShift(p: SecretPattern, u: string, s: string)
    requires u != [] && forall i :: 0 <= i < |u| ==> !Matches(p, (u + s)[i..])
    ensures !Matches(p, u + s)
    ensures forall i :: 0 <= i < |u[1..]| ==> !Matches(p, (u[1..] + s)[i..])
  {
    assert (u + s)[0..] == u + s;
    forall i | 0 <= i < |u[1..]| ensures !Matches(p, (u[1..] + s)[i..]) {
      assert (u[1..] + s)[i..] == (u + s)[i + 1..];
    }
  }

  /** Leftmost and greedy: text up to the first match is kept, the match —
      the prefix and all key characters after it — becomes one marker, and
      the scan goes on after it. */
  lemma {:induction false} LeftmostGreedy(p: SecretPattern, u: string, s: string, n: nat)
    requires forall i :: 0 <= i < |u| ==> !Matches(p, (u + s)[i..])
    requires MatchAt(p, s) == Some(n)
    ensures Sub(p, u + s) == u + Marker + Sub(p, s[n..])
    decreases |u|
  {
    if u == [] {
      LeftmostBase(p, u, s, n);
    } else {
      NoMatchShift(p, u, s);
      LeftmostGreedy(p, u[1..], s, n);
      KeepStep(p, u, s, Marker, Sub(p, s[n..]));
    }
  }

  /** A character of the prefix that the text lacks rules out a match. */
  lemma MissingCharNoMatch(p: SecretPattern, s: string, k: nat)
    requires k < |p.prefix| && p.prefix[k] !in s
    ensures NoMatchIn(p, s)
  {
    forall i | 0 <= i < |s| ensures !Matches(p, s[i..]) {
      if i + |p.prefix| <= |s| {
        assert s[i..][..|p.prefix|][k] == s[i + k];
        assert s[i + k] in s;
      }
    }
  }

  /** The error message of the OpenAI example: a key between two pieces of
      text. */
  const ExampleBefore: string := "bad key "
  const ExampleKey: string := "sk-abc123456789xyz"
  const ExampleAfter: string := " and should be hidden"

  /** The example of an OpenAI key in an error message: the key is gone and
      the marker stands in its place, the text around it kept. */
  lemma OpenAiKeyMasked()
    ensures var redacted := Redacted(ExampleBefore + ExampleKey + ExampleAfter);
      && redacted == ExampleBefore + Marker + ExampleAfter
      && !IsSubstring(ExampleKey, redacted)
      && IsSubstring(Marker, redacted)
  {
    var text := ExampleBefore + ExampleKey + ExampleAfter;
    var once := ExampleBefore + Marker + ExampleAfter;
    RedactedInOrder(text);
    ExampleFirstPass();
    ExampleSecondPass();
    assert SubstringAt(Marker, once, 8);
    ExampleKeyGone();
  }

  lemma ExampleFirstPass()
    ensures Sub(OpenAiKey, ExampleBefore + ExampleKey + ExampleAfter) == ExampleBefore + Marker + ExampleAfter
  {
    assert 's' !in ExampleBefore && '-' !in ExampleAfter;
    ExampleKeyMatches();
    OneKeyReplaced(ExampleBefore, ExampleKey, ExampleAfter);
  }

  /** A key with no `s` before it and no `-` after it is the only match
      the OpenAI pattern replaces. */
  lemma OneKeyReplaced(u: string, key: string, w: string)
    requires 's' !in u && '-' !in w
    requires MatchAt(OpenAiKey, key + w) == Some(|key|)
    ensures Sub(OpenAiKey, u + key + w) == u + Marker + w
  {
    var s := key + w;
    assert u + s == u + key + w;
    NoStartNoMatch(u, s);
    LeftmostGreedy(OpenAiKey, u, s, |key|);
    assert s[|key|..] == w;
    MissingCharNoMatch(OpenAiKey, w, 2);
    SubUnchanged(OpenAiKey, w);
  }

  /** No `s` in `u`, so no OpenAI match starts there. */
  lemma NoStartNoMatch(u: string, s: string)
    requires 's' !in u
    ensures forall i :: 0 <= i < |u| ==> !Matches(OpenAiKey, (u + s)[i..])
  {
    var t := u + s;
    forall i | 0 <= i < |u| ensures !Matches(OpenAiKey, t[i..]) {
      assert t[i] == u[i];
      assert u[i] in u;
      if 3 <= |t[i..]| {
        assert t[i..][..3][0] == u[i];
      }
    }
  }

  /** The whole key is one greedy match. */
  lemma ExampleKeyMatches()
    ensures MatchAt(OpenAiKey, ExampleKey + ExampleAfter) == Some(|ExampleKey|)
  {
    var run := "abc123456789xyz";
    assert ExampleKey == "sk-" + run;
    assert forall k :: 0 <= k < |run| ==> KeyChar(run[k]);
    KeyMatch(run, ExampleAfter);
  }

  /** `sk-` followed by at least eight key characters and then a character
      outside the class matches up to that character. */
  lemma KeyMatch(run: string, rest: string)
    requires |run| >= 8 && (forall k :: 0 <= k < |run| ==> KeyChar(run[k]))
    requires rest == [] || !KeyChar(rest[0])
    ensures MatchAt(OpenAiKey, "sk-" + run + rest) == Some(3 + |run|)
  {
    var s := "sk-" + run + rest;
    assert s[..3] == "sk-";
    assert s[3..] == run + rest;
    RunOfKeyChars(run, rest);
  }

  /** Neither `I` nor `-` occurs once the key is replaced, so the Google
      pattern finds nothing and the key is gone. */
  lemma ExampleSecondPass()
    ensures Sub(GoogleKey, ExampleBefore + Marker + ExampleAfter) == ExampleBefore + Marker + ExampleAfter
  {
    var once := ExampleBefore + Marker + ExampleAfter;
    assert 'I' !in ExampleBefore && 'I' !in Marker && 'I' !in ExampleAfter;
    MissingCharNoMatch(GoogleKey, once, 1);
    SubUnchanged(GoogleKey, once);
  }

  lemma ExampleKeyGone()
    ensures !IsSubstring(ExampleKey, ExampleBefore + Marker + ExampleAfter)
  {
    var once := ExampleBefore + Marker + ExampleAfter;
    assert '-' !in ExampleBefore && '-' !in Marker && '-' !in ExampleAfter;
    MissingCharNotSubstring(ExampleKey, once, 2);
  }

  /** A string with a character that the text lacks does not occur in it. */
  lemma MissingCharNotSubstring(x: string, t: string, k: nat)
    requires k < |x| && x[k] !in t
    ensures !IsSubstring(x, t)
  {
    forall i | 0 <= i <= |t| - |x| ensures !SubstringAt(x, t, i) {
      assert t[i..i + |x|][k] == t[i + k];
      assert t[i + k] in t;
    }
  }

  /** A run of key characters followed by a non-key character is a run of
      exactly its length. */
  lemma {:induction false} RunOfKeyChars(run: string, rest: string)
    requires forall k :: 0 <= k < |run| ==> KeyChar(run[k])
    requires rest == [] || !KeyChar(rest[0])
    ensures Run(run + rest) == |run|
    decreases |run|
  {
    if run != [] {
      assert (run + rest)[1..] == run[1..] + rest;
      RunOfKeyChars(run[1..], rest);
    } else {
      assert run + rest == rest;
    }
  }

  /** Cutting redacted text to 220 characters cannot form a key. */
  lemma FailureDetailHasNoSecret(message: string)
    ensures NoMatchIn(OpenAiKey, FailureDetail(message)) && NoMatchIn(GoogleKey, FailureDetail(message))
  {
    var full := Redacted(message);
    NoSecretLeft(message);
    PrefixNoMatch(OpenAiKey, full, |FailureDetail(message)|);
    PrefixNoMatch(GoogleKey, full, |FailureDetail(message)|);
  }

  lemma PrefixNoMatch(p: SecretPattern, t: string, m: nat)
    requires m <= |t| && NoMatchIn(p, t)
    ensures NoMatchIn(p, t[..m])
  {
    var L := |p.prefix| + p.minRun;
    forall i | 0 <= i < m ensures !Matches(p, t[..m][i..]) {
      var a := t[..m][i..];
      var b := t[i..];
      if L <= |a| {
        assert a[..L] == b[..L];
        SameWindow(p, a, b);
      }
    }
  }
}
