/**
 * The string operations the agent relies on: Python's str.lower(), str.strip(),
 * the substring test `k in s`, any(...) over a keyword list, and str.join.
 * Characters are treated as ASCII: lower() maps only 'A'..'Z', and strip()
 * removes the ASCII characters for which str.isspace() holds.
 */
module Text {

  predicate IsUpper(c: char) {
    'A' <= c <= 'Z'
  }

  /** str.isspace() on ASCII: tab, newline, vertical tab, form feed, carriage
      return, the four information separators 0x1C..0x1F, and the space. */
  predicate IsSpace(c: char) {
    (9 <= c as int <= 13) || (28 <= c as int <= 32)
  }

  function LowerChar(c: char): char {
    if IsUpper(c) then (c as int - 'A' as int + 'a' as int) as char else c
  }

  /** s.lower(): the same length, no upper-case letter left, every other
      character kept. */
  function Lower(s: string): (r: string)
    ensures |r| == |s|
    ensures forall i :: 0 <= i < |r| ==> !IsUpper(r[i])
    ensures forall i :: 0 <= i < |s| && !IsUpper(s[i]) ==> r[i] == s[i]
    ensures forall i :: 0 <= i < |s| && IsUpper(s[i]) ==> r[i] as int == s[i] as int + 32
  {
    seq(|s|, i requires 0 <= i < |s| => LowerChar(s[i]))
  }

  /** s.lstrip() */
  function TrimStart(s: string): (r: string)
    ensures |r| <= |s| && r == s[|s| - |r|..]
    ensures r == [] || !IsSpace(r[0])
    ensures forall i :: 0 <= i < |s| - |r| ==> IsSpace(s[i])
  {
    if s != [] && IsSpace(s[0]) then TrimStart(s[1..]) else s
  }

  /** s.rstrip() */
  function TrimEnd(s: string): (r: string)
    ensures |r| <= |s| && r == s[..|r|]
    ensures r == [] || !IsSpace(r[|r| - 1])
    ensures forall i :: |r| <= i < |s| ==> IsSpace(s[i])
  {
    if s != [] && IsSpace(s[|s| - 1]) then TrimEnd(s[..|s| - 1]) else s
  }

  /** s.strip(): no whitespace is left at either end, and the result is
      empty exactly when s is all whitespace. StripIsSlice adds that only the
      two end runs of whitespace are cut. */
  function Strip(s: string): (r: string)
    ensures |r| <= |s|
    ensures r == [] || (!IsSpace(r[0]) && !IsSpace(r[|r| - 1]))
    ensures r == [] <==> forall i :: 0 <= i < |s| ==> IsSpace(s[i])
  {
    var t := TrimStart(s);
    if t == [] then t
    else
      assert !IsSpace(t[0]);
      TrimEnd(t)
  }

  /** strip() keeps the slice of s between a leading and a trailing run of
      whitespace. */
  lemma StripIsSlice(s: string)
    ensures exists i, j :: 0 <= i <= j <= |s| && Strip(s) == s[i..j]
              && (forall k :: 0 <= k < i ==> IsSpace(s[k]))
              && (forall k :: j <= k < |s| ==> IsSpace(s[k]))
  {
    var t := TrimStart(s);
    var u := TrimEnd(t);
    assert Strip(s) == u;
    var i, j := CutBothEnds(s, t, u);
  }

  /** A prefix u of a suffix t of s, where s before t and t after u are
      whitespace, is the slice s[i..j] with only whitespace around it. */
  lemma CutBothEnds(s: string, t: string, u: string) returns (i: int, j: int)
    requires |t| <= |s| && t == s[|s| - |t|..]
    requires forall k :: 0 <= k < |s| - |t| ==> IsSpace(s[k])
    requires |u| <= |t| && u == t[..|u|]
    requires forall k :: |u| <= k < |t| ==> IsSpace(t[k])
    ensures 0 <= i <= j <= |s| && u == s[i..j]
    ensures forall k :: 0 <= k < i ==> IsSpace(s[k])
    ensures forall k :: j <= k < |s| ==> IsSpace(s[k])
  {
    i := |s| - |t|;
    j := i + |u|;
    forall k | j <= k < |s|
      ensures IsSpace(s[k])
    {
      assert s[k] == t[k - i];
    }
    assert u == s[i..j];
  }

  /** A string without surrounding whitespace is its own strip. */
  lemma StripUnchanged(s: string)
    requires s == [] || (!IsSpace(s[0]) && !IsSpace(s[|s| - 1]))
    ensures Strip(s) == s
  {
  }

  /** The result of strip() has no surrounding whitespace, so stripping twice
      is stripping once. */
  lemma {:induction false} StripIdempotent(s: string)
    ensures Strip(Strip(s)) == Strip(s)
  {
    var t := TrimStart(s);
    var u := TrimEnd(t);
    if u != [] {
      assert u[0] == t[0];
    }
    StripUnchanged(u);
  }

  lemma LowerCharKeepsSpace(c: char)
    ensures IsSpace(LowerChar(c)) == IsSpace(c)
  {
  }

  lemma {:induction false} TrimStartLower(s: string)
    ensures TrimStart(Lower(s)) == Lower(TrimStart(s))
    decreases |s|
  {
    if s != [] {
      LowerCharKeepsSpace(s[0]);
      if IsSpace(s[0]) {
        assert Lower(s)[1..] == Lower(s[1..]);
        TrimStartLower(s[1..]);
      }
    }
  }

  lemma {:induction false} TrimEndLower(s: string)
    ensures TrimEnd(Lower(s)) == Lower(TrimEnd(s))
    decreases |s|
  {
    if s != [] {
      LowerCharKeepsSpace(s[|s| - 1]);
      if IsSpace(s[|s| - 1]) {
        assert Lower(s)[..|s| - 1] == Lower(s[..|s| - 1]);
        TrimEndLower(s[..|s| - 1]);
      }
    }
  }

  /** lower() and strip() commute on ASCII: lowering never creates or removes
      whitespace. */
  lemma StripLowerCommute(s: string)
    ensures Strip(Lower(s)) == Lower(Strip(s))
  {
    TrimStartLower(s);
    TrimEndLower(TrimStart(s));
  }

  lemma LowerIdempotent(s: string)
    ensures Lower(Lower(s)) == Lower(s)
  {
  }

  /** Lower-casing and stripping a second time changes nothing. */
  lemma NormalizeIdempotent(s: string)
    ensures Strip(Lower(Strip(Lower(s)))) == Strip(Lower(s))
  {
    var t := Lower(s);
    StripLowerCommute(Strip(t));
    StripIdempotent(t);
    StripLowerCommute(t);
    LowerIdempotent(s);
  }

  /** sub occurs in s starting at offset i. */
  predicate OccursAt(s: string, sub: string, i: int) {
    0 <= i <= |s| - |sub| && s[i..i + |sub|] == sub
  }

  /** `sub in s` for strings: sub occurs in s at some offset. */
  predicate Contains(s: string, sub: string) {
    exists i | 0 <= i <= |s| - |sub| :: OccursAt(s, sub, i)
  }

  /** A word occurs in any text that has it in the middle. */
  lemma ContainsMiddle(a: string, w: string, b: string)
    ensures Contains(a + w + b, w)
  {
    assert (a + w + b)[|a|..|a| + |w|] == w;
    assert OccursAt(a + w + b, w, |a|);
  }

  lemma LowerAppend(a: string, b: string)
    ensures Lower(a + b) == Lower(a) + Lower(b)
  {
  }

  /** any(k in s for k in words) */
  function AnyIn(s: string, words: seq<string>): (r: bool)
    ensures r <==> exists i :: 0 <= i < |words| && Contains(s, words[i])
  {
    if words == [] then false
    else if Contains(s, words[0]) then true
    else
      var r := AnyIn(s, words[1..]);
      assert forall i :: 1 <= i < |words| ==> words[i] == words[1..][i - 1];
      r
  }

  /** sep.join(parts) */
  function Join(parts: seq<string>, sep: string): string {
    if parts == [] then ""
    else if |parts| == 1 then parts[0]
    else parts[0] + sep + Join(parts[1..], sep)
  }

  /** A word found in the tail of a text is found in the whole text. */
  lemma ContainsAfter(a: string, b: string, w: string)
    requires Contains(b, w)
    ensures Contains(a + b, w)
  {
    var i :| 0 <= i <= |b| - |w| && OccursAt(b, w, i);
    assert (a + b)[|a| + i..|a| + i + |w|] == b[i..i + |w|];
    assert OccursAt(a + b, w, |a| + i);
  }

  /** A word found in a piece of a text is found in the whole text. */
  lemma ContainsTransitive(s: string, m: string, w: string)
    requires Contains(s, m) && Contains(m, w)
    ensures Contains(s, w)
  {
    var i :| 0 <= i <= |s| - |m| && OccursAt(s, m, i);
    var j :| 0 <= j <= |m| - |w| && OccursAt(m, w, j);
    forall k | 0 <= k < |w|
      ensures s[i + j + k] == w[k]
    {
      assert s[i..i + |m|][j + k] == m[j + k];
      assert m[j..j + |w|][k] == w[k];
    }
    assert s[i + j..i + j + |w|] == w;
    assert OccursAt(s, w, i + j);
  }

  /** Every part occurs in the joined text. */
  lemma {:induction false} JoinContainsParts(parts: seq<string>, sep: string, i: int)
    requires 0 <= i < |parts|
    ensures Contains(Join(parts, sep), parts[i])
    decreases |parts|
  {
    if |parts| == 1 {
      ContainsMiddle("", parts[0], "");
      assert "" + parts[0] + "" == parts[0];
    } else if i == 0 {
      ContainsMiddle("", parts[0], sep + Join(parts[1..], sep));
      assert "" + parts[0] + (sep + Join(parts[1..], sep)) == Join(parts, sep);
    } else {
      JoinContainsParts(parts[1..], sep, i - 1);
      ContainsAfter(parts[0] + sep, Join(parts[1..], sep), parts[i]);
    }
  }

  lemma JoinContainsAll(parts: seq<string>, sep: string)
    ensures forall j :: 0 <= j < |parts| ==> Contains(Join(parts, sep), parts[j])
  {
    forall j | 0 <= j < |parts| {
      JoinContainsParts(parts, sep, j);
    }
  }

  /** A join of non-empty parts is empty exactly when there are no parts. */
  lemma {:induction false} JoinEmpty(parts: seq<string>, sep: string)
    requires forall i :: 0 <= i < |parts| ==> parts[i] != ""
    ensures Join(parts, sep) == "" <==> parts == []
  {
    if |parts| > 1 {
      assert |Join(parts, sep)| >= |parts[0]|;
    }
  }
}
