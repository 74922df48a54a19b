/** Full and short robot names (ShortName in internal/harbor/client.go, newRobotLocked in
    internal/harbor/harbortest/server.go). */
module ShortNames {
  import opened Naming

  predicate IsQualifier(c: char) {
    c == '$' || c == '+'
  }

  predicate NoQualifier(s: string) {
    forall i :: 0 <= i < |s| ==> !IsQualifier(s[i])
  }

  /** strings.LastIndexAny(s, "$+"). */
  function LastQualifier(s: string): (i: int)
    ensures -1 <= i < |s|
    ensures i >= 0 ==> IsQualifier(s[i])
    ensures forall k :: i < k < |s| ==> !IsQualifier(s[k])
    decreases |s|
  {
    if s == "" then -1
    else if IsQualifier(s[|s| - 1]) then |s| - 1
    else LastQualifier(s[..|s| - 1])
  }

  function ShortName(full: string): string {
    full[LastQualifier(full) + 1..]
  }

  /** The name Harbor gives a robot. */
  function FullName(prefix: string, level: string, namespace: string, short: string): string {
    if level == "project" then prefix + namespace + "+" + short else prefix + short
  }

  lemma LastQualifierInFront(front: string, short: string)
    requires NoQualifier(short)
    ensures LastQualifier(front + short) == LastQualifier(front)
  {
    var full := front + short;
    forall k | |front| <= k < |full| ensures !IsQualifier(full[k]) {
      assert full[k] == short[k - |front|];
    }
    var i, j := LastQualifier(full), LastQualifier(front);
    assert i >= 0 ==> front[i] == full[i];
    assert j >= 0 ==> full[j] == front[j];
  }

  /** Stripping Harbor's qualifiers gives the short name back for every project robot, and for a system
      robot exactly when Harbor's prefix is empty or ends in '$' or '+'. */
  lemma ShortNameInvertsExactly(prefix: string, level: string, namespace: string, short: string)
    requires NoQualifier(short)
    ensures ShortName(FullName(prefix, level, namespace, short)) == short
       <==> level == "project" || prefix == "" || IsQualifier(prefix[|prefix| - 1])
  {
    var front := if level == "project" then prefix + namespace + "+" else prefix;
    var full := FullName(prefix, level, namespace, short);
    assert full == front + short;
    LastQualifierInFront(front, short);
    var i := LastQualifier(front);
    assert |ShortName(full)| == |full| - (i + 1);
    if i == |front| - 1 {
      assert ShortName(full) == short;
    }
  }

  /** Names that follow Harbor's pattern hold no qualifier. */
  lemma PatternIsUnqualified(name: string)
    requires MatchesPattern(name)
    ensures NoQualifier(name) && name != ""
  {
    PatternByPosition(name);
  }

  predicate Contains(s: string, sub: string) {
    exists i :: 0 <= i <= |s| && sub <= s[i..]
  }

  lemma ContainsEnd(front: string, sub: string)
    ensures Contains(front + sub, sub)
  {
    assert (front + sub)[|front|..] == sub;
  }

  /** Containing is having the text somewhere in the middle. */
  lemma ContainsExactly(s: string, sub: string)
    ensures Contains(s, sub) <==> exists front, back :: s == front + sub + back
  {
    if Contains(s, sub) {
      var i :| 0 <= i <= |s| && sub <= s[i..];
      assert s == s[..i] + sub + s[i + |sub|..];
    }
    forall front, back | s == front + sub + back ensures Contains(s, sub) {
      assert s[|front|..] == sub + back;
    }
  }
}
