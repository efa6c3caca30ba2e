/** The few Python string operations the service relies on, over `string`
    (a sequence of code points). */
module Text {

  /** `s.startswith(prefix)`. */
  predicate StartsWith(s: string, prefix: string) {
    |prefix| <= |s| && s[..|prefix|] == prefix
  }

  /** `pat` occurs in `s` starting at index `i`. */
  predicate OccursAt(s: string, pat: string, i: int) {
    0 <= i && i + |pat| <= |s| && s[i..i + |pat|] == pat
  }

  /** `pat in s`. */
  predicate Contains(s: string, pat: string) {
    exists i :: 0 <= i <= |s| && OccursAt(s, pat, i)
  }

  /** `s.replace(pat, "")` for a non-empty `pat`: scanning left to right,
      every occurrence is deleted and the scan resumes after it, so
      occurrences never overlap. */
  function RemoveAll(s: string, pat: string): (r: string)
    requires pat != ""
    ensures |r| <= |s|
    decreases |s|
  {
    if |s| < |pat| then s
    else if s[..|pat|] == pat then RemoveAll(s[|pat|..], pat)
    else [s[0]] + RemoveAll(s[1..], pat)
  }

  /** Deleting a pattern that does not occur leaves the string as it is. */
  lemma {:induction false} RemoveAllAbsent(s: string, pat: string)
    requires pat != ""
    requires forall i :: !OccursAt(s, pat, i)
    ensures RemoveAll(s, pat) == s
    decreases |s|
  {
    if |s| >= |pat| {
      assert !OccursAt(s, pat, 0);
      forall i ensures !OccursAt(s[1..], pat, i) {
        if OccursAt(s[1..], pat, i) {
          assert s[1..][i..i + |pat|] == s[i + 1..i + 1 + |pat|];
          assert OccursAt(s, pat, i + 1);
        }
      }
      RemoveAllAbsent(s[1..], pat);
      assert s == [s[0]] + s[1..];
    }
  }

  /** If `pat` occurs in `m + pat` only at the very end, deleting it gives
      back `m`. */
  lemma {:induction false} RemoveAllTrailing(m: string, pat: string)
    requires pat != ""
    requires forall j :: 0 <= j < |m| ==> !OccursAt(m + pat, pat, j)
    ensures RemoveAll(m + pat, pat) == m
    decreases |m|
  {
    var s := m + pat;
    if m == [] {
      assert s[..|pat|] == pat;
      assert s[|pat|..] == [];
    } else {
      assert !OccursAt(s, pat, 0);
      assert s[1..] == m[1..] + pat;
      forall j | 0 <= j < |m[1..]| ensures !OccursAt(m[1..] + pat, pat, j) {
        assert !OccursAt(s, pat, j + 1);
        assert s[1..][j..j + |pat|] == s[j + 1..j + 1 + |pat|];
      }
      RemoveAllTrailing(m[1..], pat);
      assert m == [m[0]] + m[1..];
    }
  }

  /** A pattern that starts with a blank line ("\n\n" followed by a
      non-newline) cannot occur in `m + pat` before the end when `m` itself
      holds no blank line. */
  lemma NoEarlierOccurrence(m: string, pat: string)
    requires |pat| >= 3 && pat[0] == '\n' && pat[1] == '\n' && pat[2] != '\n'
    requires !Contains(m, "\n\n")
    ensures forall j :: 0 <= j < |m| ==> !OccursAt(m + pat, pat, j)
  {
    var s := m + pat;
    forall j | 0 <= j < |m| ensures !OccursAt(s, pat, j) {
      if OccursAt(s, pat, j) {
        assert s[j..j + |pat|] == pat;
        assert s[j] == '\n' && s[j + 1] == '\n' && s[j + 2] == pat[2];
        if j + 1 < |m| {
          assert m[j..j + 2] == "\n\n";
          assert OccursAt(m, "\n\n", j);
        }
      }
    }
  }

  /** Python's `str.isspace` for one character: the ASCII controls
      tab..carriage return and the file/group/record/unit separators,
      the space, and the Unicode space and line/paragraph separators. */
  predicate IsSpace(c: char) {
    var n := c as int;
    (0x09 <= n <= 0x0D) || (0x1C <= n <= 0x20) || n == 0x85 || n == 0xA0 ||
    n == 0x1680 || (0x2000 <= n <= 0x200A) || n == 0x2028 || n == 0x2029 ||
    n == 0x202F || n == 0x205F || n == 0x3000
  }

  /** `s.lstrip()`: drops the leading whitespace. */
  function StripStart(s: string): (r: string)
    ensures |r| <= |s| && r == s[|s| - |r|..]
    ensures r != "" ==> !IsSpace(r[0])
    ensures forall i :: 0 <= i < |s| - |r| ==> IsSpace(s[i])
    decreases |s|
  {
    if s != "" && IsSpace(s[0]) then StripStart(s[1..]) else s
  }

  /** `s.rstrip()`: drops the trailing whitespace. */
  function StripEnd(s: string): (r: string)
    ensures |r| <= |s| && r == s[..|r|]
    ensures r != "" ==> !IsSpace(r[|r| - 1])
    ensures forall i :: |r| <= i < |s| ==> IsSpace(s[i])
    decreases |s|
  {
    if s != "" && IsSpace(s[|s| - 1]) then StripEnd(s[..|s| - 1]) else s
  }

  /** `s.strip()`. */
  function Strip(s: string): string {
    StripEnd(StripStart(s))
  }

  /** `not s or not s.strip()`: the text is empty, or empty once the
      surrounding whitespace is stripped. */
  predicate IsBlank(s: string) {
    s == "" || Strip(s) == ""
  }

  /** A text is blank exactly when every one of its characters is
      whitespace. */
  lemma BlankIffAllSpace(s: string)
    ensures IsBlank(s) <==> forall i :: 0 <= i < |s| ==> IsSpace(s[i])
  {
  }
}
