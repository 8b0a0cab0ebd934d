// ASCII models of the string primitives the programs use: Python's
// str.strip/lower/upper/title/capitalize/split/replace/join and `in`, and
// Go's strings.TrimSpace/ToUpper/Split/Index/ReplaceAll.  Only the ASCII
// range is modelled (see README, "Left out").
module Strings {

  /**
   * The ASCII characters str.isspace() accepts, which str.strip(), int()
   * and float() remove: space, \t, \n, \v, \f, \r and the separators
   * \x1c to \x1f.
   */
  predicate IsSpace(c: char) {
    c == ' ' || c == '\t' || c == '\n' || c == '\r' || c == '\U{B}' || c == '\U{C}' || '\U{1C}' <= c <= '\U{1F}'
  }

  /** The ASCII characters Go's unicode.IsSpace accepts, which strings.TrimSpace removes: no \x1c to \x1f. */
  predicate IsGoSpace(c: char) {
    c == ' ' || c == '\t' || c == '\n' || c == '\r' || c == '\U{B}' || c == '\U{C}'
  }

  predicate IsUpperLetter(c: char) { 'A' <= c <= 'Z' }
  predicate IsLowerLetter(c: char) { 'a' <= c <= 'z' }
  predicate IsLetter(c: char) { IsUpperLetter(c) || IsLowerLetter(c) }

  function LowerChar(c: char): char {
    if IsUpperLetter(c) then (c as int + 32) as char else c
  }

  function UpperChar(c: char): char {
    if IsLowerLetter(c) then (c as int - 32) as char else c
  }

  predicate StartsWith(s: string, prefix: string) { prefix <= s }

  predicate EndsWith(s: string, suffix: string) {
    |suffix| <= |s| && s[|s| - |suffix|..] == suffix
  }

  // ---------------------------------------------------------------- trimming

  /** The first position at or after i that is not white space. */
  function SkipSpaces(s: string, i: nat): (j: nat)
    requires i <= |s|
    ensures i <= j <= |s|
    ensures forall k :: i <= k < j ==> IsSpace(s[k])
    ensures j == |s| || !IsSpace(s[j])
    decreases |s| - i
  {
    if i < |s| && IsSpace(s[i]) then SkipSpaces(s, i + 1) else i
  }

  /** The end of s[i..j] with its trailing white space dropped. */
  function BackSpaces(s: string, i: nat, j: nat): (e: nat)
    requires i <= j <= |s|
    ensures i <= e <= j
    ensures forall k :: e <= k < j ==> IsSpace(s[k])
    ensures e == i || !IsSpace(s[e - 1])
    decreases j
  {
    if j > i && IsSpace(s[j - 1]) then BackSpaces(s, i, j - 1) else j
  }

  /** str.strip(): the longest infix with no white space at either end. */
  function Trim(s: string): (r: string)
    ensures exists i, j :: (0 <= i <= j <= |s| && r == s[i..j] &&
      (forall k :: 0 <= k < i ==> IsSpace(s[k])) && (forall k :: j <= k < |s| ==> IsSpace(s[k])))
    ensures r == [] || (!IsSpace(r[0]) && !IsSpace(r[|r| - 1]))
  {
    var i := SkipSpaces(s, 0);
    var j := BackSpaces(s, i, |s|);
    s[i..j]
  }

  /** A string without white space at its ends is its own trim. */
  lemma {:induction false} TrimNoSpace(s: string)
    requires s == [] || (!IsSpace(s[0]) && !IsSpace(s[|s| - 1]))
    ensures Trim(s) == s
  {
  }

  lemma {:induction false} TrimIdempotent(s: string)
    ensures Trim(Trim(s)) == Trim(s)
  {
    TrimNoSpace(Trim(s));
  }

  /** The first position at or after i that is not Go white space. */
  function SkipGoSpaces(s: string, i: nat): (j: nat)
    requires i <= |s|
    ensures i <= j <= |s|
    ensures forall k :: i <= k < j ==> IsGoSpace(s[k])
    ensures j == |s| || !IsGoSpace(s[j])
    decreases |s| - i
  {
    if i < |s| && IsGoSpace(s[i]) then SkipGoSpaces(s, i + 1) else i
  }

  /** The end of s[i..j] with its trailing Go white space dropped. */
  function BackGoSpaces(s: string, i: nat, j: nat): (e: nat)
    requires i <= j <= |s|
    ensures i <= e <= j
    ensures forall k :: e <= k < j ==> IsGoSpace(s[k])
    ensures e == i || !IsGoSpace(s[e - 1])
    decreases j
  {
    if j > i && IsGoSpace(s[j - 1]) then BackGoSpaces(s, i, j - 1) else j
  }

  /** strings.TrimSpace: the longest infix with no Go white space at either end. */
  function TrimSpace(s: string): (r: string)
    ensures exists i, j :: (0 <= i <= j <= |s| && r == s[i..j] &&
      (forall k :: 0 <= k < i ==> IsGoSpace(s[k])) && (forall k :: j <= k < |s| ==> IsGoSpace(s[k])))
    ensures r == [] || (!IsGoSpace(r[0]) && !IsGoSpace(r[|r| - 1]))
  {
    var i := SkipGoSpaces(s, 0);
    var j := BackGoSpaces(s, i, |s|);
    s[i..j]
  }

  /** A string without Go white space at its ends is its own TrimSpace. */
  lemma {:induction false} TrimSpaceNoSpace(s: string)
    requires s == [] || (!IsGoSpace(s[0]) && !IsGoSpace(s[|s| - 1]))
    ensures TrimSpace(s) == s
  {
  }

  // ------------------------------------------------------------ case mapping

  /** str.lower() on ASCII. */
  function Lower(s: string): (r: string)
    ensures |r| == |s|
    ensures forall i :: 0 <= i < |s| ==> r[i] == LowerChar(s[i])
  {
    if s == [] then [] else [LowerChar(s[0])] + Lower(s[1..])
  }

  /** str.upper() / strings.ToUpper on ASCII. */
  function Upper(s: string): (r: string)
    ensures |r| == |s|
    ensures forall i :: 0 <= i < |s| ==> r[i] == UpperChar(s[i])
  {
    if s == [] then [] else [UpperChar(s[0])] + Upper(s[1..])
  }

  lemma {:induction false} LowerIdempotent(s: string)
    ensures Lower(Lower(s)) == Lower(s)
  {
  }

  lemma {:induction false} LowerConcat(a: string, b: string)
    ensures Lower(a + b) == Lower(a) + Lower(b)
  {
  }

  /** A string without upper-case letters is its own lower-case form. */
  lemma {:induction false} LowerOfLower(s: string)
    requires forall i :: 0 <= i < |s| ==> !IsUpperLetter(s[i])
    ensures Lower(s) == s
  {
  }

  /** str.capitalize(): first character upper case, all others lower case. */
  function Capitalize(s: string): (r: string)
    ensures |r| == |s|
    ensures |s| > 0 ==> r[0] == UpperChar(s[0]) && r[1..] == Lower(s[1..])
  {
    if s == [] then [] else [UpperChar(s[0])] + Lower(s[1..])
  }

  /**
   * str.title(): a letter that follows a letter is lowered, any other letter
   * is raised; non-letters are kept.  `afterLetter` says whether the
   * character before s[0] was a letter.
   */
  function TitleFrom(s: string, afterLetter: bool): (r: string)
    ensures |r| == |s|
    ensures forall i :: 0 <= i < |s| ==>
      r[i] == (if (if i == 0 then afterLetter else IsLetter(s[i - 1])) then LowerChar(s[i]) else UpperChar(s[i]))
  {
    if s == [] then []
    else [if afterLetter then LowerChar(s[0]) else UpperChar(s[0])] + TitleFrom(s[1..], IsLetter(s[0]))
  }

  function Title(s: string): string { TitleFrom(s, false) }

  // ----------------------------------------------------------------- search

  /** The index of the first occurrence of c in s, or -1 (Go's strings.Index for one character). */
  function IndexOf(s: string, c: char): (r: int)
    ensures -1 <= r < |s|
    ensures r == -1 <==> c !in s
    ensures r >= 0 ==> s[r] == c && c !in s[..r]
  {
    if s == [] then -1
    else if s[0] == c then 0
    else
      var k := IndexOf(s[1..], c);
      assert s[1..] == s[1..][..];
      if k < 0 then -1 else (assert s[..k + 1] == [s[0]] + s[1..][..k]; k + 1)
  }

  /** The first occurrence is found where it is. */
  lemma {:induction false} IndexOfAt(s: string, c: char, i: nat)
    requires i < |s| && s[i] == c && c !in s[..i]
    ensures IndexOf(s, c) == i
  {
  }

  /** Python's `sub in s` (and Go's strings.Contains). */
  predicate Contains(s: string, sub: string)
    decreases |s|
  {
    sub <= s || (|s| > 0 && Contains(s[1..], sub))
  }

  /** sub occurs in s at position i. */
  predicate OccursAt(s: string, sub: string, i: nat) {
    i + |sub| <= |s| && s[i..i + |sub|] == sub
  }

  /** Where Contains holds, there is a position at which sub occurs. */
  lemma {:induction false} ContainsWitness(s: string, sub: string) returns (i: nat)
    requires Contains(s, sub)
    ensures OccursAt(s, sub, i)
    decreases |s|
  {
    if sub <= s {
      i := 0;
    } else {
      var k := ContainsWitness(s[1..], sub);
      assert s[k + 1..k + 1 + |sub|] == s[1..][k..k + |sub|];
      i := k + 1;
    }
  }

  /** An occurrence at any position makes Contains hold. */
  lemma {:induction false} OccursContains(s: string, sub: string, i: nat)
    requires OccursAt(s, sub, i)
    ensures Contains(s, sub)
    decreases i
  {
    if i > 0 {
      assert s[1..][i - 1..i - 1 + |sub|] == s[i..i + |sub|];
      OccursContains(s[1..], sub, i - 1);
    }
  }

  /** A string contains every one of its infixes. */
  lemma {:induction false} ContainsInfix(s: string, i: nat, j: nat)
    requires i <= j <= |s|
    ensures Contains(s, s[i..j])
  {
    OccursContains(s, s[i..j], i);
  }

  // ------------------------------------------------------ split and join

  /** str.join / strings.Join. */
  function Join(parts: seq<string>, sep: string): string {
    if |parts| == 0 then ""
    else if |parts| == 1 then parts[0]
    else parts[0] + sep + Join(parts[1..], sep)
  }

  /**
   * str.split(c) / strings.Split(s, c) for a one-character separator:
   * the pieces between the separators, so there is always one piece more
   * than there are separators.
   */
  function Split(s: string, sep: char): (parts: seq<string>)
    ensures |parts| >= 1
    ensures forall i :: 0 <= i < |parts| ==> sep !in parts[i]
    ensures Join(parts, [sep]) == s
    decreases |s|
  {
    var i := IndexOf(s, sep);
    if i < 0 then [s]
    else
      var rest := Split(s[i + 1..], sep);
      assert s == s[..i] + [sep] + s[i + 1..];
      [s[..i]] + rest
  }

  /** The first piece of a split is the prefix before the first separator. */
  lemma {:induction false} SplitFirst(s: string, sep: char)
    ensures Split(s, sep)[0] == if sep in s then s[..IndexOf(s, sep)] else s
  {
  }

  /** Splitting what was joined gives back the pieces (the partner of Split). */
  lemma {:induction false} SplitJoin(parts: seq<string>, sep: char)
    requires |parts| >= 1
    requires forall i :: 0 <= i < |parts| ==> sep !in parts[i]
    ensures Split(Join(parts, [sep]), sep) == parts
  {
    if |parts| > 1 {
      var s := Join(parts, [sep]);
      assert s == parts[0] + [sep] + Join(parts[1..], [sep]);
      var n := |parts[0]|;
      assert s[n] == sep;
      assert s[..n] == parts[0];
      assert IndexOf(s, sep) == n;
      assert s[n + 1..] == Join(parts[1..], [sep]);
      SplitJoin(parts[1..], sep);
    } else {
      assert sep !in parts[0];
    }
  }

  /** Splitting around a separator splits each side. */
  lemma {:induction false} SplitConcat(a: string, b: string, sep: char)
    ensures Split(a + [sep] + b, sep) == Split(a, sep) + Split(b, sep)
  {
    var pa, pb := Split(a, sep), Split(b, sep);
    JoinConcat(pa, pb, [sep]);
    forall i | 0 <= i < |pa + pb|
      ensures sep !in (pa + pb)[i]
    {
      if i < |pa| {
        assert (pa + pb)[i] == pa[i];
      } else {
        assert (pa + pb)[i] == pb[i - |pa|];
      }
    }
    SplitJoin(pa + pb, sep);
  }

  /** Joining two non-empty lists is joining their joins. */
  lemma {:induction false} JoinConcat(p: seq<string>, q: seq<string>, sep: string)
    requires |p| >= 1 && |q| >= 1
    ensures Join(p + q, sep) == Join(p, sep) + sep + Join(q, sep)
    decreases |p|
  {
    if |p| > 1 {
      assert (p + q)[1..] == p[1..] + q;
      JoinConcat(p[1..], q, sep);
    } else {
      assert (p + q)[1..] == q;
    }
  }

  // ------------------------------------------------------------- replace

  /**
   * str.replace(pat, rep) / strings.ReplaceAll: every occurrence of pat,
   * scanning left to right without overlap, is replaced by rep.
   */
  function ReplaceAll(s: string, pat: string, rep: string): string
    requires |pat| > 0
    decreases |s|
  {
    if |s| < |pat| then s
    else if pat <= s then rep + ReplaceAll(s[|pat|..], pat, rep)
    else [s[0]] + ReplaceAll(s[1..], pat, rep)
  }

  /** Nothing is replaced in a string that does not contain the pattern. */
  lemma {:induction false} ReplaceAllAbsent(s: string, pat: string, rep: string)
    requires |pat| > 0 && !Contains(s, pat)
    ensures ReplaceAll(s, pat, rep) == s
    decreases |s|
  {
    if |s| >= |pat| {
      ReplaceAllAbsent(s[1..], pat, rep);
    }
  }

  /** Replacing one character by one character maps every position on its own. */
  lemma {:induction false} ReplaceCharAt(s: string, c: char, d: char)
    ensures |ReplaceAll(s, [c], [d])| == |s|
    ensures forall i :: 0 <= i < |s| ==> ReplaceAll(s, [c], [d])[i] == if s[i] == c then d else s[i]
    decreases |s|
  {
    if |s| > 0 {
      ReplaceCharAt(s[1..], c, d);
      assert [c] <= s <==> s[0] == c;
    }
  }

  /** Deleting a character leaves no occurrence of it. */
  lemma {:induction false} RemoveCharGone(s: string, c: char)
    ensures c !in ReplaceAll(s, [c], "")
    decreases |s|
  {
    if |s| > 0 {
      RemoveCharGone(s[1..], c);
      assert [c] <= s <==> s[0] == c;
    }
  }

  /** Deleting a character distributes over concatenation. */
  lemma {:induction false} RemoveCharConcat(a: string, b: string, c: char)
    ensures ReplaceAll(a + b, [c], "") == ReplaceAll(a, [c], "") + ReplaceAll(b, [c], "")
    decreases |a|
  {
    if |a| > 0 {
      var ab := a + b;
      assert ab[1..] == a[1..] + b;
      assert ab[0] == a[0];
      assert [c] <= ab <==> a[0] == c;
      assert [c] <= a <==> a[0] == c;
      RemoveCharConcat(a[1..], b, c);
      var head: string := if a[0] == c then "" else [a[0]];
      assert ReplaceAll(ab, [c], "") == head + ReplaceAll(ab[1..], [c], "");
      assert ReplaceAll(a, [c], "") == head + ReplaceAll(a[1..], [c], "");
    } else {
      assert a + b == b;
    }
  }

  /** Deleting a character that does not occur changes nothing. */
  lemma {:induction false} RemoveCharAbsent(s: string, c: char)
    requires c !in s
    ensures ReplaceAll(s, [c], "") == s
    decreases |s|
  {
    if |s| > 0 {
      assert s[0] != c;
      assert !([c] <= s);
      RemoveCharAbsent(s[1..], c);
    }
  }
}
