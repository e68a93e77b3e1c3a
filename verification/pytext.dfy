/** The Python string and list built-ins that the chatbot's decision logic relies on:
    `str.lower()`, the substring test `in`, `str.strip()`, `str.join` and the slice `s[:n]`. */
module PyText {

  /** `str.lower()` on one character, restricted to ASCII: 'A'..'Z' become 'a'..'z'. */
  function LowerChar(c: char): char
  {
    if 'A' <= c <= 'Z' then (c as int + 32) as char else c
  }

  /** `s.lower()`, character by character (ASCII case mapping only). */
  function Lower(s: string): (r: string)
    ensures |r| == |s|
    ensures forall i | 0 <= i < |r| :: !('A' <= r[i] <= 'Z')
    ensures forall i | 0 <= i < |s| && !('A' <= s[i] <= 'Z') :: r[i] == s[i]
    ensures forall i | 0 <= i < |s| && 'A' <= s[i] <= 'Z' :: r[i] == (s[i] as int + 32) as char
  {
    seq(|s|, i requires 0 <= i < |s| => LowerChar(s[i]))
  }

  /** `part in text`: `part` occurs in `text` as a contiguous substring. */
  predicate Contains(text: string, part: string)
  {
    exists i | 0 <= i <= |text| - |part| :: OccursAt(text, part, i)
  }

  /** `part` occurs in `text` starting at position `i`. */
  predicate OccursAt(text: string, part: string, i: int)
  {
    0 <= i <= |text| - |part| && text[i..i + |part|] == part
  }

  lemma ContainsInLeft(a: string, b: string, part: string)
    requires Contains(a, part)
    ensures Contains(a + b, part)
  {
    var i :| 0 <= i <= |a| - |part| && OccursAt(a, part, i);
    assert (a + b)[i..i + |part|] == a[i..i + |part|];
    assert OccursAt(a + b, part, i);
  }

  lemma ContainsInRight(a: string, b: string, part: string)
    requires Contains(b, part)
    ensures Contains(a + b, part)
  {
    var i :| 0 <= i <= |b| - |part| && OccursAt(b, part, i);
    assert (a + b)[|a| + i..|a| + i + |part|] == b[i..i + |part|];
    assert OccursAt(a + b, part, |a| + i);
  }

  lemma ContainsInMiddle(a: string, b: string, c: string, part: string)
    requires Contains(b, part)
    ensures Contains(a + b + c, part)
  {
    ContainsInRight(a, b, part);
    ContainsInLeft(a + b, c, part);
  }

  /** The characters for which Python's `str.isspace()` holds. */
  predicate IsSpace(c: char)
  {
    || c == ' ' || '\t' <= c <= '\r' || '\U{1c}' <= c <= '\U{1f}'
    || c == '\U{85}' || c == '\U{a0}' || c == '\U{1680}' || '\U{2000}' <= c <= '\U{200a}'
    || c == '\U{2028}' || c == '\U{2029}' || c == '\U{202f}' || c == '\U{205f}' || c == '\U{3000}'
  }

  /** `s.lstrip()`: the longest suffix of `s` that does not start with whitespace. */
  function StripLeading(s: string): (r: string)
    ensures |r| <= |s| && r == s[|s| - |r|..]
    ensures r == [] || !IsSpace(r[0])
    ensures forall i | 0 <= i < |s| - |r| :: IsSpace(s[i])
    decreases |s|
  {
    if s != [] && IsSpace(s[0]) then StripLeading(s[1..]) else s
  }

  /** `s.rstrip()`: the longest prefix of `s` that does not end with whitespace. */
  function StripTrailing(s: string): (r: string)
    ensures |r| <= |s| && r == s[..|r|]
    ensures r == [] || !IsSpace(r[|r| - 1])
    ensures forall i | |r| <= i < |s| :: IsSpace(s[i])
    decreases |s|
  {
    if s != [] && IsSpace(s[|s| - 1]) then StripTrailing(s[..|s| - 1]) else s
  }

  /** `r` sits at position `i` of `s`, and everything of `s` around it is whitespace. */
  predicate SpaceAround(s: string, r: string, i: int)
  {
    && OccursAt(s, r, i)
    && (forall k | 0 <= k < i :: IsSpace(s[k]))
    && (forall k | i + |r| <= k < |s| :: IsSpace(s[k]))
  }

  /** `s.strip()`: `s` with only its surrounding whitespace removed, so a piece of `s` that
      neither starts nor ends with whitespace. */
  function Strip(s: string): (r: string)
    ensures Contains(s, r)
    ensures exists i | 0 <= i <= |s| - |r| :: SpaceAround(s, r, i)
    ensures r == [] || (!IsSpace(r[0]) && !IsSpace(r[|r| - 1]))
  {
    StripBothAround(s);
    StripTrailing(StripLeading(s))
  }

  /** Stripping the front and then the back removes only whitespace around what is left. */
  lemma StripBothAround(s: string)
    ensures SpaceAround(s, StripTrailing(StripLeading(s)), |s| - |StripLeading(s)|)
  {
    SpaceAroundOf(s, StripLeading(s), StripTrailing(StripLeading(s)));
  }

  /** Whitespace cut from the front of `s` leaving `l`, then from the back of `l` leaving `r`,
      surrounds `r` in `s`. */
  lemma SpaceAroundOf(s: string, l: string, r: string)
    requires |l| <= |s| && l == s[|s| - |l|..]
    requires forall j | 0 <= j < |s| - |l| :: IsSpace(s[j])
    requires |r| <= |l| && r == l[..|r|]
    requires forall j | |r| <= j < |l| :: IsSpace(l[j])
    ensures SpaceAround(s, r, |s| - |l|)
  {
    var i := |s| - |l|;
    assert s[i..i + |r|] == r;
    forall k | i + |r| <= k < |s|
      ensures IsSpace(s[k])
    {
      assert s[k] == l[k - i];
    }
  }

  /** A stripped string is empty exactly when the original holds nothing but whitespace. */
  lemma StripEmptyIffBlank(s: string)
    ensures Strip(s) == [] <==> forall i | 0 <= i < |s| :: IsSpace(s[i])
  {
  }

  /** `sep.join(parts)`: the parts in order, with `sep` between neighbours. */
  function Join(sep: string, parts: seq<string>): (r: string)
    ensures parts == [] ==> r == ""
    ensures |parts| == 1 ==> r == parts[0]
  {
    if |parts| == 0 then ""
    else if |parts| == 1 then parts[0]
    else parts[0] + sep + Join(sep, parts[1..])
  }

  /** Joining two non-empty lists is joining each and putting one separator between them. */
  lemma {:induction false} JoinAppend(sep: string, a: seq<string>, b: seq<string>)
    requires a != [] && b != []
    ensures Join(sep, a + b) == Join(sep, a) + sep + Join(sep, b)
  {
    if |a| == 1 {
      assert (a + b)[1..] == b;
    } else {
      assert (a + b)[1..] == a[1..] + b;
      JoinAppend(sep, a[1..], b);
    }
  }

  /** Every joined part occurs in the joined string. */
  lemma {:induction false} JoinContainsPart(sep: string, parts: seq<string>, k: nat)
    requires k < |parts|
    ensures Contains(Join(sep, parts), parts[k])
  {
    if |parts| == 1 {
      assert OccursAt(Join(sep, parts), parts[0], 0);
    } else {
      var rest := Join(sep, parts[1..]);
      assert Join(sep, parts) == parts[0] + (sep + rest);
      if k == 0 {
        assert OccursAt(parts[0], parts[0], 0);
        ContainsInLeft(parts[0], sep + rest, parts[0]);
      } else {
        JoinContainsPart(sep, parts[1..], k - 1);
        ContainsInRight(sep, rest, parts[k]);
        ContainsInRight(parts[0], sep + rest, parts[k]);
      }
    }
  }

  /** Every part occurs in the joined string, all at once. */
  lemma JoinContainsParts(sep: string, parts: seq<string>)
    ensures forall k | 0 <= k < |parts| :: Contains(Join(sep, parts), parts[k])
  {
    forall k | 0 <= k < |parts|
      ensures Contains(Join(sep, parts), parts[k])
    {
      JoinContainsPart(sep, parts, k);
    }
  }

  /** Python's slice `s[:n]`; a negative `n` counts from the end of `s`. */
  function PyTake<T>(s: seq<T>, n: int): (r: seq<T>)
    ensures |r| <= |s| && r == s[..|r|]
    ensures n >= 0 ==> |r| == (if n < |s| then n else |s|)
    ensures n < 0 ==> |r| == (if -n < |s| then |s| + n else 0)
  {
    if n >= 0 then (if n < |s| then s[..n] else s)
    else (if -n < |s| then s[..|s| + n] else [])
  }

  /** Taking `n >= 0` twice is taking it once; with a negative `n` it is not. */
  lemma PyTakeTwice<T>(s: seq<T>, n: int)
    ensures n >= 0 ==> PyTake(PyTake(s, n), n) == PyTake(s, n)
    ensures n < 0 && |s| + n > 0 ==> |PyTake(PyTake(s, n), n)| < |PyTake(s, n)|
  {
  }
}
