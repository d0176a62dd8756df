/** The Python string operations the chat handlers rely on, stated over `seq<char>`. */
module PyStr {

  /** The characters CPython's `str.isspace()` accepts: exactly what `str.strip()`
      with no argument removes. */
  const Whitespace: set<char> := {
    '\t', '\n', '\U{B}', '\U{C}', '\r', '\U{1C}', '\U{1D}', '\U{1E}', '\U{1F}', ' ',
    '\U{85}', '\U{A0}', '\U{1680}',
    '\U{2000}', '\U{2001}', '\U{2002}', '\U{2003}', '\U{2004}', '\U{2005}',
    '\U{2006}', '\U{2007}', '\U{2008}', '\U{2009}', '\U{200A}',
    '\U{2028}', '\U{2029}', '\U{202F}', '\U{205F}', '\U{3000}'
  }

  predicate AllIn(s: string, cs: set<char>) {
    forall i | 0 <= i < |s| :: s[i] in cs
  }

  /** Neither end of `s` is a character of `cs`. */
  predicate IsTrimmed(s: string, cs: set<char>) {
    s == [] || (s[0] !in cs && s[|s| - 1] !in cs)
  }

  /** `s` is `r` with a padding of `cs` characters, `k` of them in front. */
  predicate Padded(s: string, r: string, k: int, cs: set<char>) {
    0 <= k && k + |r| <= |s| && s[k..k + |r|] == r && AllIn(s[..k], cs) && AllIn(s[k + |r|..], cs)
  }

  // ---------------------------------------------------------------- strip

  /** `s.lstrip(chars)`, with `cs` the characters of `chars`. */
  function TrimStart(s: string, cs: set<char>): (r: string)
    ensures |r| <= |s| && r == s[|s| - |r|..]
    ensures AllIn(s[..|s| - |r|], cs)
    ensures r == [] || r[0] !in cs
    decreases |s|
  {
    if |s| > 0 && s[0] in cs then TrimStart(s[1..], cs) else s
  }

  /** `s.rstrip(chars)`, with `cs` the characters of `chars`. */
  function TrimEnd(s: string, cs: set<char>): (r: string)
    ensures |r| <= |s| && r == s[..|r|]
    ensures AllIn(s[|r|..], cs)
    ensures r == [] || r[|r| - 1] !in cs
    decreases |s|
  {
    if |s| > 0 && s[|s| - 1] in cs then
      var r := TrimEnd(s[..|s| - 1], cs);
      assert s[|r|..] == s[..|s| - 1][|r|..] + [s[|s| - 1]];
      r
    else s
  }

  /** `s.strip(chars)`: the result has no `cs` character at either end. */
  function StripChars(s: string, cs: set<char>): (r: string)
    ensures IsTrimmed(r, cs) && |r| <= |s|
  {
    TrimEnd(TrimStart(s, cs), cs)
  }

  /** What `strip` cut off on both sides consists of `cs` characters only. */
  lemma StripCharsPadded(s: string, cs: set<char>)
    ensures exists k | 0 <= k <= |s| :: Padded(s, StripChars(s, cs), k, cs)
  {
    var t := TrimStart(s, cs);
    var r := TrimEnd(t, cs);
    TrimsPad(s, t, r, cs);
    assert r == StripChars(s, cs);
  }

  /** Cutting `cs` characters from the front and then from the back pads. */
  lemma TrimsPad(s: string, t: string, r: string, cs: set<char>)
    requires |t| <= |s| && t == s[|s| - |t|..] && AllIn(s[..|s| - |t|], cs)
    requires |r| <= |t| && r == t[..|r|] && AllIn(t[|r|..], cs)
    ensures Padded(s, r, |s| - |t|, cs)
  {
    assert s[|s| - |t|..][..|r|] == s[|s| - |t|..|s| - |t| + |r|];
    assert t[|r|..] == s[|s| - |t| + |r|..];
  }

  /** `s.strip()`. */
  function Strip(s: string): (r: string)
    ensures IsTrimmed(r, Whitespace) && |r| <= |s|
  {
    StripChars(s, Whitespace)
  }

  /** Stripping changes exactly the strings that have a `cs` character at an end. */
  lemma StripCharsFixedPoints(s: string, cs: set<char>)
    ensures StripChars(s, cs) == s <==> IsTrimmed(s, cs)
  {
    if IsTrimmed(s, cs) && s != [] {
      assert TrimStart(s, cs) == s;
      assert TrimEnd(s, cs) == s;
    }
  }

  /** A leading `cs` character is cut off like the rest of the padding. */
  lemma StripCharsDropsHead(c: char, rest: string, cs: set<char>)
    requires c in cs
    ensures StripChars([c] + rest, cs) == StripChars(rest, cs)
  {
    assert ([c] + rest)[1..] == rest;
  }

  /** `lstrip` removes exactly a padding in front of a string that does not
      start with a stripped character. */
  lemma {:induction false} TrimStartPadded(pre: string, rest: string, cs: set<char>)
    requires AllIn(pre, cs) && (rest == [] || rest[0] !in cs)
    ensures TrimStart(pre + rest, cs) == rest
    decreases |pre|
  {
    if pre != [] {
      assert (pre + rest)[1..] == pre[1..] + rest;
      TrimStartPadded(pre[1..], rest, cs);
    }
  }

  /** `rstrip` removes exactly a padding behind a string that does not end
      with a stripped character. */
  lemma {:induction false} TrimEndPadded(rest: string, post: string, cs: set<char>)
    requires AllIn(post, cs) && (rest == [] || rest[|rest| - 1] !in cs)
    ensures TrimEnd(rest + post, cs) == rest
    decreases |post|
  {
    if post != [] {
      var init := post[..|post| - 1];
      assert (rest + post)[..|rest + post| - 1] == rest + init;
      TrimEndPadded(rest, init, cs);
    } else {
      assert rest + post == rest;
    }
  }

  /** `strip` removes exactly the padding around a non-empty trimmed string. */
  lemma StripCharsOfPadded(pre: string, mid: string, post: string, cs: set<char>)
    requires AllIn(pre, cs) && AllIn(post, cs) && mid != [] && IsTrimmed(mid, cs)
    ensures StripChars(pre + mid + post, cs) == mid
  {
    assert pre + mid + post == pre + (mid + post);
    TrimStartPadded(pre, mid + post, cs);
    TrimEndPadded(mid, post, cs);
  }

  /** Stripping never lengthens a string, and shortens one that starts or
      ends with a stripped character. */
  lemma StripCharsShortens(s: string, cs: set<char>)
    ensures |StripChars(s, cs)| <= |s|
    ensures !IsTrimmed(s, cs) ==> |StripChars(s, cs)| < |s|
  {
    StripCharsPadded(s, cs);
    var k :| 0 <= k <= |s| && Padded(s, StripChars(s, cs), k, cs);
    if |StripChars(s, cs)| == |s| {
      PaddedOfSameLength(s, StripChars(s, cs), k, cs);
    }
  }

  /** Padding that adds no characters is no padding. */
  lemma PaddedOfSameLength(s: string, r: string, k: int, cs: set<char>)
    requires Padded(s, r, k, cs) && |r| == |s|
    ensures r == s
  {
    assert s[0..|s|] == s;
  }

  // ---------------------------------------------------------------- lower

  /** `c.lower()` for ASCII letters; every other character is left as it is. */
  function LowerChar(c: char): char {
    if 'A' <= c <= 'Z' then (c as int + 32) as char else c
  }

  /** `s.lower()`, character by character. */
  function Lower(s: string): (r: string)
    ensures |r| == |s|
    ensures forall i | 0 <= i < |s| :: r[i] == LowerChar(s[i])
  {
    if s == [] then [] else [LowerChar(s[0])] + Lower(s[1..])
  }

  /** Lower-casing neither creates nor removes whitespace. */
  lemma LowerCharKeepsWhitespace(c: char)
    ensures LowerChar(c) in Whitespace <==> c in Whitespace
  {
  }

  lemma {:induction false} LowerTrimStart(s: string)
    ensures Lower(TrimStart(s, Whitespace)) == TrimStart(Lower(s), Whitespace)
    decreases |s|
  {
    if s != [] {
      LowerCharKeepsWhitespace(s[0]);
      assert Lower(s)[1..] == Lower(s[1..]);
      LowerTrimStart(s[1..]);
    }
  }

  lemma {:induction false} LowerTrimEnd(s: string)
    ensures Lower(TrimEnd(s, Whitespace)) == TrimEnd(Lower(s), Whitespace)
    decreases |s|
  {
    if s != [] {
      LowerCharKeepsWhitespace(s[|s| - 1]);
      assert Lower(s)[..|s| - 1] == Lower(s[..|s| - 1]);
      LowerTrimEnd(s[..|s| - 1]);
    }
  }

  /** `s.strip().lower() == s.lower().strip()`. */
  lemma LowerStripCommute(s: string)
    ensures Lower(Strip(s)) == Strip(Lower(s))
  {
    LowerTrimStart(s);
    LowerTrimEnd(TrimStart(s, Whitespace));
  }

  // ---------------------------------------------------------------- in

  /** `p` occurs in `s` starting at index `i`. */
  predicate OccursAt(s: string, p: string, i: int) {
    0 <= i <= |s| && p <= s[i..]
  }

  /** Python's `p in s`. */
  predicate Contains(s: string, p: string) {
    exists i | 0 <= i <= |s| :: OccursAt(s, p, i)
  }

  /** What occurs in a slice `r == s[lo..lo + |r|]` occurs in the whole string. */
  lemma ContainsSlice(s: string, lo: int, r: string, p: string)
    requires 0 <= lo && lo + |r| <= |s| && s[lo..lo + |r|] == r
    requires Contains(r, p)
    ensures Contains(s, p)
  {
    var i :| 0 <= i <= |r| && OccursAt(r, p, i);
    assert s[lo + i..][..|p|] == s[lo..lo + |r|][i..][..|p|];
    assert OccursAt(s, p, lo + i);
  }

  /** An occurrence in `[c] + r` is at its start or inside `r`. */
  lemma ContainsCons(c: char, r: string, p: string)
    requires !Contains(r, p) && !(p <= [c] + r)
    ensures !Contains([c] + r, p)
  {
    if Contains([c] + r, p) {
      var i :| 0 <= i <= |r| + 1 && OccursAt([c] + r, p, i);
      assert i != 0;
      assert ([c] + r)[i..] == r[i - 1..];
      assert OccursAt(r, p, i - 1);
      assert false;
    }
  }

  /** A string that contains `q` contains every prefix of `q`. */
  lemma ContainsPrefix(s: string, p: string, q: string)
    requires p <= q && Contains(s, q)
    ensures Contains(s, p)
  {
    var i :| 0 <= i <= |s| && OccursAt(s, q, i);
    assert OccursAt(s, p, i);
  }

  /** An occurrence of a pattern whose ends are not padding characters lies inside
      the padded string `r`. */
  lemma PaddedKeepsInnerMatch(s: string, r: string, k: int, p: string, i: int)
    requires Padded(s, r, k, Whitespace)
    requires p != [] && IsTrimmed(p, Whitespace) && OccursAt(s, p, i)
    ensures OccursAt(r, p, i - k)
  {
    assert s[i] == p[0];
    assert s[i + |p| - 1] == p[|p| - 1];
    forall j | 0 <= j < k ensures s[j] in Whitespace {
      assert s[..k][j] == s[j];
    }
    forall j | k + |r| <= j < |s| ensures s[j] in Whitespace {
      assert s[k + |r|..][j - (k + |r|)] == s[j];
    }
    assert r[i - k..][..|p|] == s[i..][..|p|];
  }

  /** Stripping cannot create an occurrence of a pattern. */
  lemma StripCharsKeepsAbsence(s: string, cs: set<char>, p: string)
    requires !Contains(s, p)
    ensures !Contains(StripChars(s, cs), p)
  {
    var t := TrimStart(s, cs);
    var r := TrimEnd(t, cs);
    var k := |s| - |t|;
    if Contains(r, p) {
      assert s[k..k + |r|] == r;
      ContainsSlice(s, k, r, p);
    }
  }

  /** Stripping keeps every occurrence of a non-empty pattern that itself has no
      whitespace at its ends, and creates none. */
  lemma StripKeepsInnerMatches(s: string, p: string)
    requires p != [] && IsTrimmed(p, Whitespace)
    ensures Contains(Strip(s), p) <==> Contains(s, p)
  {
    StripCharsPadded(s, Whitespace);
    var k :| 0 <= k <= |s| && Padded(s, Strip(s), k, Whitespace);
    PaddedKeepsMatches(s, Strip(s), k, p);
  }

  lemma PaddedKeepsMatches(s: string, r: string, k: int, p: string)
    requires Padded(s, r, k, Whitespace)
    requires p != [] && IsTrimmed(p, Whitespace)
    ensures Contains(r, p) <==> Contains(s, p)
  {
    if Contains(r, p) {
      ContainsSlice(s, k, r, p);
    }
    if Contains(s, p) {
      var i :| 0 <= i <= |s| && OccursAt(s, p, i);
      PaddedKeepsInnerMatch(s, r, k, p, i);
    }
  }

  // ---------------------------------------------------------------- replace

  predicate NoEmptyPattern(pats: seq<string>) {
    forall k | 0 <= k < |pats| :: pats[k] != []
  }

  /** The length of the first of `pats` that starts `s`, or 0 when none does. */
  function MatchLength(s: string, pats: seq<string>): (n: nat)
    requires NoEmptyPattern(pats)
    ensures n <= |s|
    ensures n == 0 <==> forall k | 0 <= k < |pats| :: !(pats[k] <= s)
    ensures n != 0 ==> s[..n] in pats
  {
    if pats == [] then 0
    else if pats[0] <= s then
      assert s[..|pats[0]|] == pats[0];
      |pats[0]|
    else
      var n := MatchLength(s, pats[1..]);
      assert n != 0 ==> s[..n] in pats[1..];
      n
  }

  /** Deletes, scanning left to right, every non-overlapping match, where at each
      position the first of `pats` that matches there wins. With one pattern this
      is `s.replace(p, "")`; with several it is `re.sub("p1|p2|...", "", s)`. */
  function DeleteMatches(s: string, pats: seq<string>): (r: string)
    requires NoEmptyPattern(pats)
    ensures |r| <= |s|
    decreases |s|
  {
    if s == [] then []
    else
      var n := MatchLength(s, pats);
      if n > 0 then DeleteMatches(s[n..], pats) else [s[0]] + DeleteMatches(s[1..], pats)
  }

  /** `s.replace(p, "")`. */
  function Replace(s: string, p: string): (r: string)
    requires p != []
    ensures |r| <= |s|
  {
    DeleteMatches(s, [p])
  }

  /** Deleting patterns that do not occur changes nothing. */
  lemma {:induction false} DeleteMatchesAbsent(s: string, pats: seq<string>)
    requires NoEmptyPattern(pats)
    requires forall k | 0 <= k < |pats| :: !Contains(s, pats[k])
    ensures DeleteMatches(s, pats) == s
    decreases |s|
  {
    if s != [] {
      forall k | 0 <= k < |pats| ensures !(pats[k] <= s) {
        assert !OccursAt(s, pats[k], 0);
      }
      forall k | 0 <= k < |pats| ensures !Contains(s[1..], pats[k]) {
        if Contains(s[1..], pats[k]) {
          assert s[1..|s|] == s[1..];
          ContainsSlice(s, 1, s[1..], pats[k]);
        }
      }
      DeleteMatchesAbsent(s[1..], pats);
    }
  }

  // ---------------------------------------------------------------- join

  /** `sep.join(parts)`. */
  function Join(parts: seq<string>, sep: string): string {
    if parts == [] then []
    else if |parts| == 1 then parts[0]
    else parts[0] + sep + Join(parts[1..], sep)
  }

  /** Joining one more part appends the separator and the part at the end. */
  lemma {:induction false} JoinSnoc(parts: seq<string>, part: string, sep: string)
    ensures Join(parts + [part], sep) == if parts == [] then part else Join(parts, sep) + sep + part
    decreases |parts|
  {
    if |parts| > 1 {
      assert (parts + [part])[1..] == parts[1..] + [part];
      JoinSnoc(parts[1..], part, sep);
    } else if |parts| == 1 {
      assert (parts + [part])[1..] == [part];
    }
  }

  // ---------------------------------------------------------------- f"{n}"

  predicate IsDigit(c: char) { '0' <= c <= '9' }

  predicate AllDigits(s: string) { forall i | 0 <= i < |s| :: IsDigit(s[i]) }

  function DigitChar(d: nat): (c: char)
    requires d < 10
    ensures IsDigit(c)
  {
    ('0' as int + d) as char
  }

  /** `str(n)` for a natural number: its decimal digits, without leading zeros. */
  function Decimal(n: nat): (s: string)
    ensures s != [] && AllDigits(s)
    ensures s[0] == '0' ==> n == 0
    decreases n
  {
    if n < 10 then [DigitChar(n)] else Decimal(n / 10) + [DigitChar(n % 10)]
  }

  /** The number a string of decimal digits denotes. */
  function DecimalValue(s: string): nat
    requires AllDigits(s)
  {
    if s == [] then 0 else DecimalValue(s[..|s| - 1]) * 10 + (s[|s| - 1] as int - '0' as int)
  }

  /** Reading the decimal rendering of `n` back gives `n`. */
  lemma {:induction false} DecimalRoundTrip(n: nat)
    ensures DecimalValue(Decimal(n)) == n
    decreases n
  {
    if n >= 10 {
      var s := Decimal(n);
      assert s[..|s| - 1] == Decimal(n / 10);
      DecimalRoundTrip(n / 10);
    }
  }
}
