/** The generated root password (internal/backend/path_config.go, generateSecret and harborSecretOK).
    Random draws are arbitrary numbers; a draw below n is the next number modulo n, and the reader
    fails when the numbers run out. */
module SecretGen {
  import opened Common

  const LENGTH: nat := 32
  const DRAWS: nat := 63

  predicate IsLower(c: char) { 'a' <= c <= 'z' }
  predicate IsUpper(c: char) { 'A' <= c <= 'Z' }
  predicate IsDigit(c: char) { '0' <= c <= '9' }

  /** Harbor's password policy. */
  ghost predicate MeetsPolicy(s: seq<char>) {
    && 8 <= |s| <= 128
    && (exists i :: 0 <= i < |s| && IsLower(s[i]))
    && (exists i :: 0 <= i < |s| && IsUpper(s[i]))
    && (exists i :: 0 <= i < |s| && IsDigit(s[i]))
  }

  method HarborSecretOK(s: seq<char>) returns (ok: bool)
    ensures ok <==> MeetsPolicy(s)
  {
    var lower, upper, digit := false, false, false;
    for i := 0 to |s|
      invariant lower <==> exists k :: 0 <= k < i && IsLower(s[k])
      invariant upper <==> exists k :: 0 <= k < i && IsUpper(s[k])
      invariant digit <==> exists k :: 0 <= k < i && IsDigit(s[k])
    {
      if IsLower(s[i]) {
        lower := true;
      } else if IsUpper(s[i]) {
        upper := true;
      } else if IsDigit(s[i]) {
        digit := true;
      }
    }
    ok := 8 <= |s| <= 128 && lower && upper && digit;
  }

  /** How many characters position i can get before the shuffle: one of each class first (26 lowercase,
      26 uppercase, 10 digits), then any of the 62. */
  function Choices(i: nat): (n: nat)
    ensures n > 0
  {
    if i <= 1 then 26 else if i == 2 then 10 else 62
  }

  function AlphabetAt(i: nat, k: nat): (c: char)
    requires k < Choices(i)
    ensures i == 0 ==> IsLower(c)
    ensures i == 1 ==> IsUpper(c)
    ensures i == 2 ==> IsDigit(c)
    ensures IsLower(c) || IsUpper(c) || IsDigit(c)
  {
    if i == 0 || (i > 2 && k < 26) then 'a' + k as char
    else if i == 1 || (i > 2 && k < 52) then 'A' + (if i == 1 then k else k - 26) as char
    else '0' + (if i == 2 then k else k - 52) as char
  }

  function Pick(draws: seq<nat>, i: nat): char
    requires i < |draws|
  {
    AlphabetAt(i, draws[i] % Choices(i))
  }

  function Picks(draws: seq<nat>): (s: seq<char>)
    ensures |s| == |draws|
  {
    seq(|draws|, i requires 0 <= i < |draws| => Pick(draws, i))
  }

  function Swap(s: seq<char>, i: nat, j: nat): (t: seq<char>)
    requires i < |s| && j < |s|
    ensures |t| == |s|
  {
    s[i := s[j]][j := s[i]]
  }

  /** The shuffle from position i down to 1: draws[k] picks the partner of the k-th swap. */
  function Shuffle(s: seq<char>, i: nat, draws: seq<nat>): (t: seq<char>)
    requires i < |s| && |draws| == i
    ensures |t| == |s|
    decreases i
  {
    if i == 0 then s else Shuffle(Swap(s, i, draws[0] % (i + 1)), i - 1, draws[1..])
  }

  /** The generated secret, or nothing when the reader fails. */
  function Secret(draws: seq<nat>): (r: Option<seq<char>>)
    ensures r.Some? <==> |draws| >= DRAWS
    ensures r.Some? ==> |r.value| == LENGTH
  {
    if |draws| < DRAWS then None
    else Some(Shuffle(Picks(draws[..LENGTH]), LENGTH - 1, draws[LENGTH..DRAWS]))
  }

  lemma SwapKeepsMultiset(s: seq<char>, i: nat, j: nat)
    requires i < |s| && j < |s|
    ensures multiset(Swap(s, i, j)) == multiset(s)
  {
  }

  lemma {:induction false} ShuffleKeepsMultiset(s: seq<char>, i: nat, draws: seq<nat>)
    requires i < |s| && |draws| == i
    ensures multiset(Shuffle(s, i, draws)) == multiset(s)
    decreases i
  {
    if i > 0 {
      SwapKeepsMultiset(s, i, draws[0] % (i + 1));
      ShuffleKeepsMultiset(Swap(s, i, draws[0] % (i + 1)), i - 1, draws[1..]);
    }
  }

  /** The shuffle is a full one: every rearrangement of the first i+1 places is some sequence of draws. */
  lemma {:induction false} ShuffleReachesEveryArrangement(s: seq<char>, t: seq<char>, i: nat)
    requires i < |s| == |t| && s[i + 1..] == t[i + 1..] && multiset(s) == multiset(t)
    ensures exists draws: seq<nat> :: |draws| == i && Shuffle(s, i, draws) == t
    decreases i
  {
    if i == 0 {
      PrefixMultiset(s, t, 0);
      OnlyOne(s, t);
      assert Shuffle(s, 0, []) == t;
    } else {
      var j := Partner(s, t, i);
      var s' := Swap(s, i, j);
      ShuffleReachesEveryArrangement(s', t, i - 1);
      var rest: seq<nat> :| |rest| == i - 1 && Shuffle(s', i - 1, rest) == t;
      ShuffleStep(s, i, j, rest);
      assert Shuffle(s, i, [j] + rest) == t;
    }
  }

  lemma ShuffleStep(s: seq<char>, i: nat, j: nat, rest: seq<nat>)
    requires j <= i < |s| && 0 < i && |rest| == i - 1
    ensures Shuffle(s, i, [j] + rest) == Shuffle(Swap(s, i, j), i - 1, rest)
  {
    var draws := [j] + rest;
    assert draws[1..] == rest;
    SmallMod(j, i + 1);
  }

  lemma SmallMod(j: nat, n: nat)
    requires j < n
    ensures j % n == j
  {
  }

  lemma OnlyOne(s: seq<char>, t: seq<char>)
    requires 0 < |s| == |t| && s[1..] == t[1..] && multiset(s[..1]) == multiset(t[..1])
    ensures s == t
  {
    assert s[..1] == [s[0]] && t[..1] == [t[0]];
    assert s[0] in multiset(t[..1]);
    assert s == [s[0]] + s[1..] && t == [t[0]] + t[1..];
  }

  /** The place the wanted character for position i is swapped in from. */
  lemma Partner(s: seq<char>, t: seq<char>, i: nat) returns (j: nat)
    requires i < |s| == |t| && s[i + 1..] == t[i + 1..] && multiset(s) == multiset(t)
    ensures j <= i && Swap(s, i, j)[i..] == t[i..] && multiset(Swap(s, i, j)) == multiset(t)
  {
    PrefixMultiset(s, t, i);
    var a, b := s[..i + 1], t[..i + 1];
    assert b[i] in multiset(b);
    assert t[i] in a;
    j :| 0 <= j < |a| && a[j] == t[i];
    SwapKeepsMultiset(s, i, j);
    var s' := Swap(s, i, j);
    forall k | i <= k < |s| ensures s'[k] == t[k] {
      if k > i { assert s[i + 1..][k - i - 1] == t[i + 1..][k - i - 1]; }
    }
  }

  lemma PrefixMultiset(s: seq<char>, t: seq<char>, i: nat)
    requires i < |s| == |t| && s[i + 1..] == t[i + 1..] && multiset(s) == multiset(t)
    ensures multiset(s[..i + 1]) == multiset(t[..i + 1])
  {
    assert s == s[..i + 1] + s[i + 1..];
    assert t == t[..i + 1] + t[i + 1..];
    var a, b, rest := multiset(s[..i + 1]), multiset(t[..i + 1]), multiset(s[i + 1..]);
    assert a + rest == multiset(s) == multiset(t) == b + rest;
    forall c: char ensures a[c] == b[c] {
      assert (a + rest)[c] == a[c] + rest[c] && (b + rest)[c] == b[c] + rest[c];
    }
  }

  lemma MultisetMember(s: seq<char>, t: seq<char>, i: nat)
    requires multiset(s) == multiset(t) && i < |s|
    ensures exists j :: 0 <= j < |t| && t[j] == s[i]
  {
    assert s[i] in multiset(t);
    assert s[i] in t;
  }

  /** Whatever the draws, a generated secret meets the policy. */
  lemma SecretMeetsPolicy(draws: seq<nat>)
    requires |draws| >= DRAWS
    ensures MeetsPolicy(Secret(draws).value)
  {
    var picks := Picks(draws[..LENGTH]);
    var out := Secret(draws).value;
    ShuffleKeepsMultiset(picks, LENGTH - 1, draws[LENGTH..DRAWS]);
    MultisetMember(picks, out, 0);
    MultisetMember(picks, out, 1);
    MultisetMember(picks, out, 2);
  }

  // ---- every conforming secret can come out ----

  predicate IsAlnum(c: char) {
    IsLower(c) || IsUpper(c) || IsDigit(c)
  }

  /** What position i can hold before the shuffle. */
  predicate Fits(i: nat, c: char) {
    if i == 0 then IsLower(c) else if i == 1 then IsUpper(c) else if i == 2 then IsDigit(c) else IsAlnum(c)
  }

  /** Every character that fits is drawn by some number. */
  lemma EveryCharacterIsDrawn(i: nat, c: char) returns (k: nat)
    requires Fits(i, c)
    ensures k < Choices(i) && AlphabetAt(i, k) == c
  {
    if IsLower(c) {
      k := c as nat - 'a' as nat;
    } else if IsUpper(c) {
      k := c as nat - 'A' as nat + if i == 1 then 0 else 26;
    } else {
      k := c as nat - '0' as nat + if i == 2 then 0 else 52;
    }
  }

  lemma {:induction false} EveryFillIsDrawn(t: seq<char>, n: nat) returns (draws: seq<nat>)
    requires n <= |t| && forall i :: 0 <= i < n ==> Fits(i, t[i])
    ensures |draws| == n && Picks(draws) == t[..n]
  {
    if n == 0 {
      draws := [];
    } else {
      var front := EveryFillIsDrawn(t, n - 1);
      var k := EveryCharacterIsDrawn(n - 1, t[n - 1]);
      SmallMod(k, Choices(n - 1));
      draws := front + [k];
      forall i | 0 <= i < n ensures Picks(draws)[i] == t[i] {
        if i < n - 1 {
          assert Picks(front)[i] == t[..n - 1][i];
        }
      }
    }
  }

  /** Some place from i on can be swapped to i. */
  lemma BringTo(s: seq<char>, i: nat, fits: char -> bool) returns (t: seq<char>)
    requires i < |s| && (exists k :: i <= k < |s| && fits(s[k]))
    ensures |t| == |s| && multiset(t) == multiset(s) && t[..i] == s[..i] && fits(t[i])
  {
    var k :| i <= k < |s| && fits(s[k]);
    t := Swap(s, i, k);
    SwapKeepsMultiset(s, i, k);
  }

  lemma LaterOne(s: seq<char>, t: seq<char>, i: nat, k: nat, fits: char -> bool)
    requires multiset(s) == multiset(t) && k < |s| && fits(s[k]) && i <= |t| && forall j :: 0 <= j < i ==> !fits(t[j])
    ensures exists m :: i <= m < |t| && fits(t[m])
  {
    MultisetMember(s, t, k);
  }

  /** A conforming secret with a lower-case letter brought to the front. */
  lemma ArrangeLower(s: seq<char>) returns (t: seq<char>)
    requires exists k :: 0 <= k < |s| && IsLower(s[k])
    ensures |t| == |s| && multiset(t) == multiset(s) && IsLower(t[0])
  {
    var lower := (c: char) => IsLower(c);
    assert exists k :: 0 <= k < |s| && lower(s[k]);
    t := BringTo(s, 0, lower);
  }

  /** And an upper-case one behind it. */
  lemma ArrangeUpper(s: seq<char>) returns (t: seq<char>)
    requires exists k :: 0 <= k < |s| && IsLower(s[k])
    requires exists k :: 0 <= k < |s| && IsUpper(s[k])
    ensures |t| == |s| >= 2 && multiset(t) == multiset(s) && IsLower(t[0]) && IsUpper(t[1])
  {
    var upper := (c: char) => IsUpper(c);
    var t0 := ArrangeLower(s);
    var u :| 0 <= u < |s| && IsUpper(s[u]);
    LaterOne(s, t0, 1, u, upper);
    t := BringTo(t0, 1, upper);
    assert t[0] == t[..1][0] == t0[..1][0];
  }

  /** And a digit behind that. */
  lemma ArrangeDigit(s: seq<char>) returns (t: seq<char>)
    requires exists k :: 0 <= k < |s| && IsLower(s[k])
    requires exists k :: 0 <= k < |s| && IsUpper(s[k])
    requires exists k :: 0 <= k < |s| && IsDigit(s[k])
    ensures |t| == |s| >= 3 && multiset(t) == multiset(s) && IsLower(t[0]) && IsUpper(t[1]) && IsDigit(t[2])
  {
    var digit := (c: char) => IsDigit(c);
    var t1 := ArrangeUpper(s);
    var d :| 0 <= d < |s| && IsDigit(s[d]);
    LaterOne(s, t1, 2, d, digit);
    t := BringTo(t1, 2, digit);
    assert t[0] == t[..2][0] == t1[..2][0] && t[1] == t[..2][1] == t1[..2][1];
  }

  /** A conforming secret is an arrangement of one that the fill can produce. */
  lemma Arrange(s: seq<char>) returns (t: seq<char>)
    requires |s| == LENGTH && MeetsPolicy(s) && forall i :: 0 <= i < |s| ==> IsAlnum(s[i])
    ensures |t| == LENGTH && multiset(t) == multiset(s) && forall i :: 0 <= i < LENGTH ==> Fits(i, t[i])
  {
    t := ArrangeDigit(s);
    forall i | 0 <= i < LENGTH ensures IsAlnum(t[i]) {
      MultisetMember(t, s, i);
    }
  }

  /** The secrets that can come out are exactly the alphanumeric ones of 32 characters that meet the
      policy. */
  lemma SecretsAreExactly(s: seq<char>)
    ensures (exists draws: seq<nat> :: Secret(draws) == Some(s))
       <==> |s| == LENGTH && MeetsPolicy(s) && forall i :: 0 <= i < |s| ==> IsAlnum(s[i])
  {
    if draws: seq<nat> :| Secret(draws) == Some(s) {
      SecretMeetsPolicy(draws);
      var picks := Picks(draws[..LENGTH]);
      ShuffleKeepsMultiset(picks, LENGTH - 1, draws[LENGTH..DRAWS]);
      forall i | 0 <= i < |s| ensures IsAlnum(s[i]) {
        MultisetMember(s, picks, i);
      }
    }
    if |s| == LENGTH && MeetsPolicy(s) && forall i :: 0 <= i < |s| ==> IsAlnum(s[i]) {
      var draws := SomeDraws(s);
    }
  }

  lemma SomeDraws(s: seq<char>) returns (draws: seq<nat>)
    requires |s| == LENGTH && MeetsPolicy(s) && forall i :: 0 <= i < |s| ==> IsAlnum(s[i])
    ensures Secret(draws) == Some(s)
  {
    var t := Arrange(s);
    var fill := EveryFillIsDrawn(t, LENGTH);
    assert t[..LENGTH] == t;
    ShuffleReachesEveryArrangement(t, s, LENGTH - 1);
    var swaps: seq<nat> :| |swaps| == LENGTH - 1 && Shuffle(t, LENGTH - 1, swaps) == s;
    draws := fill + swaps;
    assert draws[..LENGTH] == fill && draws[LENGTH..DRAWS] == swaps;
  }

  datatype GenError = ReaderFailed | PolicyFailed

  method Fill(buf: array<char>, draws: seq<nat>) returns (ok: bool)
    modifies buf
    ensures ok <==> |draws| >= buf.Length
    ensures ok ==> buf[..] == Picks(draws[..buf.Length])
  {
    for i := 0 to buf.Length
      invariant |draws| >= i
      invariant forall k :: 0 <= k < i ==> buf[k] == Pick(draws, k)
    {
      if |draws| <= i {
        return false;
      }
      buf[i] := AlphabetAt(i, draws[i] % Choices(i));
    }
    return true;
  }

  method ShuffleInPlace(buf: array<char>, draws: seq<nat>) returns (ok: bool)
    requires buf.Length > 0
    modifies buf
    ensures ok <==> |draws| >= buf.Length - 1
    ensures ok ==> buf[..] == Shuffle(old(buf[..]), buf.Length - 1, draws[..buf.Length - 1])
  {
    var last := buf.Length - 1;
    ghost var goal := if |draws| >= last then Shuffle(buf[..], last, draws[..last]) else [];
    var i, next := last, 0;
    while i > 0
      invariant 0 <= i && next == last - i && |draws| >= next
      invariant |draws| >= last ==> Shuffle(buf[..], i, draws[next..last]) == goal
    {
      if |draws| <= next {
        return false;
      }
      var j := draws[next] % (i + 1);
      ghost var before := buf[..];
      buf[i], buf[j] := buf[j], buf[i];
      assert buf[..] == Swap(before, i, j);
      if |draws| >= last {
        assert draws[next..last][1..] == draws[next + 1..last];
      }
      i, next := i - 1, next + 1;
    }
    return true;
  }

  /** generateSecret fills and shuffles its buffer in place; its last error branch is never taken. */
  method GenerateSecret(draws: seq<nat>) returns (secret: seq<char>, error: Option<GenError>)
    ensures error.None? ==> Secret(draws) == Some(secret) && MeetsPolicy(secret)
    ensures error.Some? ==> error == Some(ReaderFailed) && Secret(draws).None?
  {
    var buf := new char[LENGTH];
    var filled := Fill(buf, draws);
    if !filled {
      return [], Some(ReaderFailed);
    }
    var shuffled := ShuffleInPlace(buf, draws[LENGTH..]);
    if !shuffled {
      return [], Some(ReaderFailed);
    }
    assert draws[LENGTH..][..LENGTH - 1] == draws[LENGTH..DRAWS];
    secret := buf[..];
    SecretMeetsPolicy(draws);
    var ok := HarborSecretOK(secret);
    if !ok {
      return [], Some(PolicyFailed);
    }
    error := None;
  }
}
