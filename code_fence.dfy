/** Markdown code fences, and why deleting them leaves none behind. */
module CodeFence {
  import opened PyStr

  /** The bare Markdown code fence. */
  const Fence: string := "```"

  /** The fence opening a Python block. */
  const PythonFence: string := "```python"

  /** Patterns that all begin with the bare fence, the bare fence among them. */
  predicate FencePatterns(pats: seq<string>) {
    NoEmptyPattern(pats) && Fence in pats && forall k | 0 <= k < |pats| :: Fence <= pats[k]
  }

  lemma PythonFenceStartsWithFence()
    ensures Fence <= PythonFence
  {
  }

  /** Where no fence starts, the scan keeps the character. */
  lemma KeepsUnfencedHead(u: string, pats: seq<string>)
    requires FencePatterns(pats) && u != [] && !(Fence <= u)
    ensures DeleteMatches(u, pats) == [u[0]] + DeleteMatches(u[1..], pats)
  {
    forall k | 0 <= k < |pats| ensures !(pats[k] <= u) {
      assert Fence <= pats[k];
    }
  }

  /** A backtick the scan keeps is never followed, in the output, by two more:
      the next two input characters would then have been kept as well, and the
      three together would have been a fence. */
  lemma KeptHeadStartsNoFence(s: string, pats: seq<string>)
    requires FencePatterns(pats) && s != [] && !(Fence <= s)
    ensures !(Fence <= [s[0]] + DeleteMatches(s[1..], pats))
  {
    var t := s[1..];
    if s[0] == '`' && |t| > 0 {
      if t[0] == '`' {
        assert !(Fence <= t) by {
          assert |s| >= 3 ==> s[2] != '`';
        }
        KeepsUnfencedHead(t, pats);
        if |t| > 1 {
          KeepsUnfencedHead(t[1..], pats);
        }
      } else {
        KeepsUnfencedHead(t, pats);
      }
    }
  }

  /** After the deletion no fence remains: this holds for `re.sub` over
      fence-led alternatives as well as for `replace(Fence, "")`. */
  lemma {:induction false} NoFenceAfterDelete(s: string, pats: seq<string>)
    requires FencePatterns(pats)
    ensures !Contains(DeleteMatches(s, pats), Fence)
    decreases |s|
  {
    if s == [] {
      assert !OccursAt([], Fence, 0);
    } else if Fence <= s {
      var n := MatchLength(s, pats);
      NoFenceAfterDelete(s[n..], pats);
    } else {
      KeepsUnfencedHead(s, pats);
      NoFenceAfterDelete(s[1..], pats);
      KeptHeadStartsNoFence(s, pats);
      ContainsCons(s[0], DeleteMatches(s[1..], pats), Fence);
    }
  }

  /** A string free of bare fences is free of Python fences too. */
  lemma NoFenceNoPythonFence(s: string)
    requires !Contains(s, Fence)
    ensures !Contains(s, PythonFence)
  {
    if Contains(s, PythonFence) {
      ContainsPrefix(s, Fence, PythonFence);
    }
  }

  /** `s` holds no backtick at all. */
  predicate NoBacktick(s: string) {
    forall i | 0 <= i < |s| :: s[i] != '`'
  }

  /** A string without backticks holds no fence. */
  lemma NoBacktickNoFence(s: string)
    requires NoBacktick(s)
    ensures !Contains(s, Fence)
  {
    forall i | 0 <= i <= |s| ensures !OccursAt(s, Fence, i) {
      if i < |s| {
        assert s[i..][0] == s[i] != '`';
      }
    }
  }

  lemma TailOfAppend(a: string, b: string)
    requires a != []
    ensures (a + b)[1..] == a[1..] + b
  {
  }

  /** A lone fence is deleted whole. */
  lemma DeleteFence(pats: seq<string>)
    requires FencePatterns(pats)
    ensures DeleteMatches(Fence, pats) == []
  {
    var k :| 0 <= k < |pats| && pats[k] == Fence;
    assert pats[k] <= Fence;
    var n := MatchLength(Fence, pats);
    assert Fence <= Fence[..n];
    assert Fence[n..] == [];
  }
}