/** Robot names (internal/backend/naming.go). Go's strings.ToLower is a character map; only what it does
    to the characters a normalised name can hold is assumed, the rest is arbitrary. */
module Naming {

  type Lowering = char -> char

  const MAX_SEGMENT: nat := 64
  const SUFFIX_LENGTH: nat := 8
  const MAX_NAME: nat := 138

  predicate IsAlnum(c: char) {
    'a' <= c <= 'z' || '0' <= c <= '9'
  }

  predicate IsSeparator(c: char) {
    c == '.' || c == '_' || c == '-'
  }

  /** Lower-case letters, digits and '-' are already lower case. */
  ghost predicate KeepsLower(lower: Lowering) {
    forall c :: IsAlnum(c) || c == '-' ==> lower(c) == c
  }

  // ---- Harbor's rule for short names ----

  predicate AllAlnum(s: string) {
    forall i :: 0 <= i < |s| ==> IsAlnum(s[i])
  }

  /** The pattern ^[a-z0-9]+(?:[._-][a-z0-9]+)*$: a run, then nothing or a separator and more of the same. */
  predicate MatchesPattern(s: string)
    decreases |s|
  {
    exists i :: 0 < i <= |s| && AllAlnum(s[..i]) && (i == |s| || (IsSeparator(s[i]) && MatchesPattern(s[i + 1..])))
  }

  /** The same by position: alphanumeric ends and no two separators side by side. */
  predicate WellFormed(s: string) {
    && s != "" && IsAlnum(s[0]) && IsAlnum(s[|s| - 1])
    && (forall i :: 0 <= i < |s| ==> IsAlnum(s[i]) || IsSeparator(s[i]))
    && (forall i :: 0 < i < |s| ==> IsAlnum(s[i - 1]) || IsAlnum(s[i]))
  }

  /** The first position from k on that is not alphanumeric, or the end. */
  function RunEnd(s: string, k: nat): (i: nat)
    requires k <= |s| && AllAlnum(s[..k])
    ensures k <= i <= |s| && AllAlnum(s[..i]) && (i < |s| ==> !IsAlnum(s[i]))
    decreases |s| - k
  {
    if k == |s| || !IsAlnum(s[k]) then k
    else
      assert s[..k + 1] == s[..k] + [s[k]];
      RunEnd(s, k + 1)
  }

  lemma PatternByPosition(s: string)
    ensures MatchesPattern(s) <==> WellFormed(s)
  {
    if MatchesPattern(s) {
      PatternIsWellFormed(s);
    }
    if WellFormed(s) {
      WellFormedIsPattern(s);
    }
  }

  lemma {:induction false} PatternIsWellFormed(s: string)
    requires MatchesPattern(s)
    ensures WellFormed(s)
    decreases |s|
  {
    var i :| 0 < i <= |s| && AllAlnum(s[..i]) && (i == |s| || (IsSeparator(s[i]) && MatchesPattern(s[i + 1..])));
    if i < |s| {
      PatternIsWellFormed(s[i + 1..]);
    }
    PositionsOfSplit(s, i);
  }

  lemma {:induction false} WellFormedIsPattern(s: string)
    requires WellFormed(s)
    ensures MatchesPattern(s)
    decreases |s|
  {
    var i := RunEnd(s, 0);
    if i < |s| {
      RestIsWellFormed(s, i);
      WellFormedIsPattern(s[i + 1..]);
    }
    PatternOfSplit(s, i);
  }

  /** What follows the first separator is well formed again. */
  lemma RestIsWellFormed(s: string, i: nat)
    requires WellFormed(s) && i < |s| && AllAlnum(s[..i]) && !IsAlnum(s[i])
    ensures 0 < i && IsSeparator(s[i]) && WellFormed(s[i + 1..])
  {
    assert i < |s| - 1 && IsAlnum(s[i + 1]);
    var rest := s[i + 1..];
    assert rest[0] == s[i + 1] && rest[|rest| - 1] == s[|s| - 1];
    forall k | 0 <= k < |rest| ensures rest[k] == s[k + i + 1] {}
  }

  lemma PatternOfSplit(s: string, i: nat)
    requires 0 < i <= |s| && AllAlnum(s[..i]) && (i == |s| || (IsSeparator(s[i]) && MatchesPattern(s[i + 1..])))
    ensures MatchesPattern(s)
  {
  }

  lemma PositionsOfSplit(s: string, i: nat)
    requires 0 < i <= |s| && AllAlnum(s[..i]) && (i == |s| || (IsSeparator(s[i]) && WellFormed(s[i + 1..])))
    ensures WellFormed(s)
  {
    forall k | 0 <= k < i ensures IsAlnum(s[k]) { assert s[..i][k] == s[k]; }
    if i < |s| {
      var rest := s[i + 1..];
      forall k | i < k < |s| ensures s[k] == rest[k - i - 1] {}
    }
  }

  // ---- normalisation ----

  function MapChars(s: string, lower: Lowering): (t: string)
    ensures |t| == |s|
    ensures forall i :: 0 <= i < |s| ==> t[i] == lower(s[i])
  {
    seq(|s|, i requires 0 <= i < |s| => lower(s[i]))
  }

  function DropOthers(s: string): (t: string)
    ensures |t| <= |s|
    ensures t != "" ==> IsAlnum(t[0])
  {
    if s == "" || IsAlnum(s[0]) then s else DropOthers(s[1..])
  }

  /** Letters, digits and single dashes. */
  predicate Dashed(s: string) {
    && (forall i :: 0 <= i < |s| ==> IsAlnum(s[i]) || s[i] == '-')
    && (forall i :: 0 < i < |s| ==> IsAlnum(s[i - 1]) || IsAlnum(s[i]))
  }

  /** Every maximal run of other characters becomes one '-'. */
  function Collapse(s: string): (t: string)
    ensures Dashed(t)
    ensures s != "" ==> t != "" && (IsAlnum(s[0]) <==> IsAlnum(t[0]))
    ensures s == "" ==> t == ""
    decreases |s|
  {
    if s == "" then ""
    else if IsAlnum(s[0]) then [s[0]] + Collapse(s[1..])
    else "-" + Collapse(DropOthers(s[1..]))
  }

  function TrimLeft(s: string): (t: string)
    ensures t <= s || |t| <= |s|
    ensures t != "" ==> t[0] != '-'
    ensures Dashed(s) ==> Dashed(t)
    ensures s != "" && s[|s| - 1] != '-' ==> t != "" && t[|t| - 1] == s[|s| - 1]
  {
    if s != "" && s[0] == '-' then TrimLeft(s[1..]) else s
  }

  function TrimRight(s: string): (t: string)
    ensures t <= s
    ensures t != "" ==> t[|t| - 1] != '-'
  {
    if s != "" && s[|s| - 1] == '-' then TrimRight(s[..|s| - 1]) else s
  }

  function Trim(s: string): (t: string)
    ensures |t| <= |s|
    ensures t != "" ==> t[0] != '-' && t[|t| - 1] != '-'
    ensures Dashed(s) ==> Dashed(t)
  {
    var r := TrimRight(s);
    TrimLeft(r)
  }

  /** normalizeSegment. */
  function NormalizeSegment(s: string, lower: Lowering): (t: string)
    ensures |t| <= MAX_SEGMENT && Dashed(t)
    ensures t != "" ==> IsAlnum(t[0]) && IsAlnum(t[|t| - 1])
  {
    var trimmed := Trim(Collapse(MapChars(s, lower)));
    if |trimmed| > MAX_SEGMENT then Trim(trimmed[..MAX_SEGMENT]) else trimmed
  }

  lemma {:induction false} CollapseKeepsDashed(s: string)
    requires Dashed(s)
    ensures Collapse(s) == s
    decreases |s|
  {
    if s != "" {
      if !IsAlnum(s[0]) {
        assert DropOthers(s[1..]) == s[1..];
      }
      CollapseKeepsDashed(s[1..]);
      assert s == [s[0]] + s[1..];
    }
  }

  /** Normalising twice is normalising once. */
  lemma NormalizeIsIdempotent(s: string, lower: Lowering)
    requires KeepsLower(lower)
    ensures NormalizeSegment(NormalizeSegment(s, lower), lower) == NormalizeSegment(s, lower)
  {
    var t := NormalizeSegment(s, lower);
    assert MapChars(t, lower) == t;
    CollapseKeepsDashed(t);
  }

  /** A normalised segment is empty or alphanumeric runs joined by single dashes, at most 64 bytes. */
  lemma NormalizedSegmentIsWellFormed(s: string, lower: Lowering)
    ensures var t := NormalizeSegment(s, lower); |t| <= MAX_SEGMENT && (t == "" || MatchesPattern(t))
    ensures forall c :: c in NormalizeSegment(s, lower) ==> IsAlnum(c) || c == '-'
  {
    PatternByPosition(NormalizeSegment(s, lower));
  }

  // ---- what normalisation keeps ----

  function Join(parts: seq<string>): string {
    if |parts| == 0 then "" else if |parts| == 1 then parts[0] else parts[0] + "-" + Join(parts[1..])
  }

  /** The maximal alphanumeric runs of s, in order. */
  function Words(s: string): (w: seq<string>)
    ensures w != [] ==> w[0] != ""
    decreases |s|
  {
    if s == "" then []
    else if !IsAlnum(s[0]) then Words(s[1..])
    else
      var i := RunEnd(s, 1);
      [s[..i]] + Words(s[i..])
  }

  lemma {:induction false} WordsSkipOthers(s: string)
    ensures Words(s) == Words(DropOthers(s))
  {
    if s != "" && !IsAlnum(s[0]) {
      WordsSkipOthers(s[1..]);
    }
  }

  lemma {:induction false} CollapseRun(s: string, i: nat)
    requires i <= |s| && AllAlnum(s[..i])
    ensures Collapse(s) == s[..i] + Collapse(s[i..])
    decreases i
  {
    if i > 0 {
      assert s[0] == s[..i][0];
      assert s[1..][..i - 1] == s[..i][1..];
      CollapseRun(s[1..], i - 1);
      assert s[1..][i - 1..] == s[i..];
    } else {
      assert s[0..] == s;
    }
  }

  lemma {:induction false} TrimRightOfAppend(a: string, b: string)
    requires TrimRight(b) != ""
    ensures TrimRight(a + b) == a + TrimRight(b)
    decreases |b|
  {
    if b[|b| - 1] == '-' {
      assert (a + b)[..|a + b| - 1] == a + b[..|b| - 1];
      TrimRightOfAppend(a, b[..|b| - 1]);
    }
  }

  lemma {:induction false} TrimRightKeepsStart(s: string)
    requires s != "" && s[0] != '-'
    ensures TrimRight(s) != ""
    decreases |s|
  {
    if s[|s| - 1] == '-' {
      TrimRightKeepsStart(s[..|s| - 1]);
    }
  }

  lemma TrimAfterRun(run: string, more: string)
    requires run != "" && run[|run| - 1] != '-' && (more != "" ==> more[0] != '-')
    ensures TrimRight(run + ("-" + more)) == if more == "" then run else run + "-" + TrimRight(more)
  {
    var s := run + ("-" + more);
    if more == "" {
      assert s[..|s| - 1] == run;
    } else {
      TrimRightKeepsStart(more);
      assert s == (run + "-") + more;
      TrimRightOfAppend(run + "-", more);
    }
  }

  lemma JoinCons(run: string, words: seq<string>)
    ensures Join([run] + words) == if words == [] then run else run + "-" + Join(words)
  {
    assert ([run] + words)[1..] == words;
  }

  /** After the first run: what is left starts with another character; skip to the next run. */
  lemma CollapseRest(rest: string)
    requires rest != "" && !IsAlnum(rest[0])
    ensures var next := DropOthers(rest[1..]);
            Collapse(rest) == "-" + Collapse(next) && Words(rest) == Words(next) && (Words(next) == [] <==> next == "")
  {
    WordsSkipOthers(rest[1..]);
  }

  lemma {:induction false} TrimmedCollapseJoinsWords(s: string)
    requires s == "" || IsAlnum(s[0])
    ensures TrimRight(Collapse(s)) == Join(Words(s))
    decreases |s|
  {
    if s != "" {
      var i := RunEnd(s, 1);
      var run, rest := s[..i], s[i..];
      CollapseRun(s, i);
      JoinCons(run, Words(rest));
      if rest == "" {
        assert run + Collapse(rest) == run;
        assert IsAlnum(run[i - 1]);
      } else {
        var next := DropOthers(rest[1..]);
        CollapseRest(rest);
        TrimmedCollapseJoinsWords(next);
        TrimAfterRun(run, Collapse(next));
      }
    }
  }

  lemma TrimCollapseJoinsWords(s: string)
    ensures Trim(Collapse(s)) == Join(Words(s))
  {
    if s == "" || IsAlnum(s[0]) {
      TrimmedCollapseJoinsWords(s);
      if s != "" {
        TrimRightKeepsStart(Collapse(s));
      }
    } else {
      var next := DropOthers(s[1..]);
      CollapseRest(s);
      TrimmedCollapseJoinsWords(next);
      var more := Collapse(next);
      if next == "" {
        assert ("-" + more)[..0] == "";
      } else {
        TrimRightKeepsStart(more);
        TrimRightOfAppend("-", more);
        assert ("-" + TrimRight(more))[1..] == TrimRight(more);
      }
    }
  }

  lemma TrimOfCut(joined: string)
    requires |joined| > MAX_SEGMENT && Dashed(joined) && joined[0] != '-'
    ensures Trim(joined[..MAX_SEGMENT])
         == if joined[MAX_SEGMENT - 1] == '-' then joined[..MAX_SEGMENT - 1] else joined[..MAX_SEGMENT]
  {
    var cut := joined[..MAX_SEGMENT];
    if cut[MAX_SEGMENT - 1] == '-' {
      assert IsAlnum(joined[MAX_SEGMENT - 2]);
      var shorter := joined[..MAX_SEGMENT - 1];
      assert cut[..MAX_SEGMENT - 1] == shorter;
      assert shorter[|shorter| - 1] == joined[MAX_SEGMENT - 2];
      assert TrimRight(shorter) == shorter && shorter[0] == joined[0];
    }
  }

  /** The segment is the lower-cased alphanumeric runs of the input joined by '-', cut at 64 bytes with
      no dash left at the cut. */
  lemma NormalizeJoinsWords(s: string, lower: Lowering)
    ensures var joined := Join(Words(MapChars(s, lower)));
            && (|joined| <= MAX_SEGMENT ==> NormalizeSegment(s, lower) == joined)
            && (|joined| > MAX_SEGMENT ==>
                  NormalizeSegment(s, lower)
                    == if joined[MAX_SEGMENT - 1] == '-' then joined[..MAX_SEGMENT - 1] else joined[..MAX_SEGMENT])
  {
    var m := MapChars(s, lower);
    TrimCollapseJoinsWords(m);
    var joined := Join(Words(m));
    assert Dashed(joined) by { assert Dashed(Trim(Collapse(m))); }
    if |joined| > MAX_SEGMENT {
      TrimOfCut(joined);
    }
  }

  // ---- robot names ----

  /** The random suffix: eight hexadecimal digits. */
  predicate IsSuffix(suffix: string) {
    |suffix| == SUFFIX_LENGTH && forall i :: 0 <= i < |suffix| ==> '0' <= suffix[i] <= '9' || 'a' <= suffix[i] <= 'f'
  }

  function Part(segment: string): seq<string> {
    if segment != "" then [segment] else []
  }

  function RobotName(prefix: string, role: string, suffix: string, lower: Lowering): string {
    var name := Join(Part(NormalizeSegment(prefix, lower)) + Part(NormalizeSegment(role, lower)) + [suffix]);
    if !MatchesPattern(name) then suffix else name
  }

  lemma JoinTwo(a: string, b: string)
    requires WellFormed(a) && WellFormed(b)
    ensures WellFormed(a + "-" + b)
  {
    var s := a + "-" + b;
    forall i | 0 < i < |s| ensures IsAlnum(s[i - 1]) || IsAlnum(s[i]) {
      if i > |a| + 1 { assert s[i] == b[i - |a| - 1] && s[i - 1] == b[i - |a| - 2]; }
    }
  }

  /** Putting a part in front of joined ones. */
  lemma PrependPart(a: seq<string>, words: seq<string>)
    requires |a| <= 1 && words != [] && WellFormed(Join(words)) && (a == [] || WellFormed(a[0]))
    ensures WellFormed(Join(a + words))
    ensures |Join(a + words)| == (if a == [] then 0 else |a[0]| + 1) + |Join(words)|
  {
    if a == [] {
      assert a + words == words;
    } else {
      assert a == [a[0]];
      JoinCons(a[0], words);
      JoinTwo(a[0], Join(words));
    }
  }

  lemma PartsJoin(a: seq<string>, b: seq<string>, suffix: string)
    requires |a| <= 1 && |b| <= 1 && WellFormed(suffix)
    requires (a == [] || WellFormed(a[0])) && (b == [] || WellFormed(b[0]))
    ensures WellFormed(Join(a + b + [suffix]))
    ensures |Join(a + b + [suffix])| ==
              (if a == [] then 0 else |a[0]| + 1) + (if b == [] then 0 else |b[0]| + 1) + |suffix|
  {
    PrependPart(b, [suffix]);
    PrependPart(a, b + [suffix]);
    assert a + b + [suffix] == a + (b + [suffix]);
  }

  /** Every generated name is valid in Harbor, at most 138 bytes, and is the joined one: the fallback to
      the bare suffix is never taken. */
  lemma RobotNameIsValid(prefix: string, role: string, suffix: string, lower: Lowering)
    requires IsSuffix(suffix)
    ensures var name := RobotName(prefix, role, suffix, lower);
            && MatchesPattern(name) && |name| <= MAX_NAME
            && name == Join(Part(NormalizeSegment(prefix, lower)) + Part(NormalizeSegment(role, lower)) + [suffix])
  {
    var a, b := Part(NormalizeSegment(prefix, lower)), Part(NormalizeSegment(role, lower));
    assert WellFormed(suffix);
    PartsJoin(a, b, suffix);
    PatternByPosition(Join(a + b + [suffix]));
  }

  /** Different suffixes give different names. */
  lemma SuffixesTellNamesApart(prefix: string, role: string, suffix: string, other: string, lower: Lowering)
    requires IsSuffix(suffix) && IsSuffix(other)
    requires RobotName(prefix, role, suffix, lower) == RobotName(prefix, role, other, lower)
    ensures suffix == other
  {
    RobotNameParts(prefix, role, suffix, lower);
    RobotNameParts(prefix, role, other, lower);
    var name := RobotName(prefix, role, suffix, lower);
    assert name[|name| - SUFFIX_LENGTH..] == suffix && name[|name| - SUFFIX_LENGTH..] == other;
  }

  /** The name is the normalised prefix and role, as far as they are not empty, and the suffix, with
      dashes between. */
  lemma RobotNameParts(prefix: string, role: string, suffix: string, lower: Lowering)
    requires IsSuffix(suffix)
    ensures var p, r := NormalizeSegment(prefix, lower), NormalizeSegment(role, lower);
            RobotName(prefix, role, suffix, lower)
              == (if p != "" then p + "-" else "") + (if r != "" then r + "-" else "") + suffix
  {
    RobotNameIsValid(prefix, role, suffix, lower);
    JoinParts(NormalizeSegment(prefix, lower), NormalizeSegment(role, lower), suffix);
  }

  lemma JoinParts(p: string, r: string, suffix: string)
    ensures Join(Part(p) + Part(r) + [suffix])
         == (if p != "" then p + "-" else "") + (if r != "" then r + "-" else "") + suffix
  {
    var tail := Part(r) + [suffix];
    assert Part(p) + Part(r) + [suffix] == Part(p) + tail;
    if r == "" {
      assert tail == [suffix];
    } else {
      JoinCons(r, [suffix]);
    }
    if p == "" {
      assert Part(p) + tail == tail;
    } else {
      JoinCons(p, tail);
    }
  }
}
