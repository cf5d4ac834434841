/** String helpers with ECMAScript semantics: the white-space set used by
    `String.prototype.trim` and `parseInt`, trimming, `Array.prototype.join`
    and its inverse, and `padStart`. */
module Text {

  /** WhiteSpace or LineTerminator of ECMAScript (sections 12.2 and 12.3 of
      ECMA-262): the characters `trim` removes and `parseInt` skips. */
  predicate IsJsSpace(c: char)
  {
    || c == '\U{9}' || c == '\U{B}' || c == '\U{C}' || c == ' '
    || c == '\U{A0}' || c == '\U{FEFF}' || c == '\U{1680}'
    || ('\U{2000}' <= c <= '\U{200A}') || c == '\U{202F}' || c == '\U{205F}' || c == '\U{3000}'
    || c == '\n' || c == '\r' || c == '\U{2028}' || c == '\U{2029}'
  }

  /** `s.trimStart()`: drops the leading white space. */
  function TrimStart(s: string): (r: string)
    ensures |r| <= |s| && r == s[|s| - |r|..]
    ensures r == [] || !IsJsSpace(r[0])
  {
    if s == [] || !IsJsSpace(s[0]) then s else TrimStart(s[1..])
  }

  /** Everything `trimStart` drops is white space. */
  lemma {:induction false} TrimStartDropsSpace(s: string)
    ensures forall i | 0 <= i < |s| - |TrimStart(s)| :: IsJsSpace(s[i])
  {
    if s != [] && IsJsSpace(s[0]) {
      TrimStartDropsSpace(s[1..]);
      forall i | 1 <= i < |s| - |TrimStart(s)|
        ensures IsJsSpace(s[i])
      {
        assert s[i] == s[1..][i - 1];
      }
    }
  }

  /** `s.trimEnd()`: drops the trailing white space. */
  function TrimEnd(s: string): (r: string)
    ensures |r| <= |s| && r == s[..|r|]
    ensures r == [] || !IsJsSpace(r[|r| - 1])
  {
    if s == [] || !IsJsSpace(s[|s| - 1]) then s else TrimEnd(s[..|s| - 1])
  }

  /** Everything `trimEnd` drops is white space. */
  lemma {:induction false} TrimEndDropsSpace(s: string)
    ensures forall i | |TrimEnd(s)| <= i < |s| :: IsJsSpace(s[i])
  {
    if s != [] && IsJsSpace(s[|s| - 1]) {
      TrimEndDropsSpace(s[..|s| - 1]);
    }
  }

  /** `s.trim()`. */
  function Trim(s: string): string
  {
    TrimEnd(TrimStart(s))
  }

  predicate NoEdgeSpace(s: string)
  {
    s == [] || (!IsJsSpace(s[0]) && !IsJsSpace(s[|s| - 1]))
  }

  /** Where the result of `trim` starts in its input. */
  function TrimOffset(s: string): nat
  {
    |s| - |TrimStart(s)|
  }

  /** `trim` keeps a slice of its input: the one that starts after the
      leading white space; the result has no white space at either end, and
      trimming it again changes nothing. */
  lemma TrimSlice(s: string)
    ensures TrimOffset(s) + |Trim(s)| <= |s|
    ensures Trim(s) == s[TrimOffset(s)..TrimOffset(s) + |Trim(s)|]
    ensures NoEdgeSpace(Trim(s))
    ensures Trim(Trim(s)) == Trim(s)
  {
    var t := TrimStart(s);
    var r := TrimEnd(t);
    if r != [] {
      assert r[0] == t[0];
      NoEdgeSpaceOf(r, t[0], r[|r| - 1]);
    }
    TrimIdentity(r);
  }

  /** What `trim` cuts off at either end is white space. */
  lemma TrimDropsSpace(s: string)
    ensures forall i | 0 <= i < TrimOffset(s) :: IsJsSpace(s[i])
    ensures forall i | TrimOffset(s) + |Trim(s)| <= i < |s| :: IsJsSpace(s[i])
  {
    TrimStartDropsSpace(s);
    TrimTailSpace(s);
  }

  lemma TrimTailSpace(s: string)
    ensures forall i | TrimOffset(s) + |Trim(s)| <= i < |s| :: IsJsSpace(s[i])
  {
    var t := TrimStart(s);
    var lo := |s| - |t|;
    TrimEndDropsSpace(t);
    forall i | lo + |Trim(s)| <= i < |s|
      ensures IsJsSpace(s[i])
    {
      SpaceAt(s, lo, i);
    }
  }

  lemma SpaceAt(s: string, lo: nat, i: nat)
    requires lo <= i < |s| && IsJsSpace(s[lo..][i - lo])
    ensures IsJsSpace(s[i])
  {
    assert s[lo..][i - lo] == s[i];
  }

  lemma NoEdgeSpaceOf(s: string, first: char, last: char)
    requires s != [] && s[0] == first && s[|s| - 1] == last
    requires !IsJsSpace(first) && !IsJsSpace(last)
    ensures NoEdgeSpace(s)
  {
  }

  /** A string without white space at its ends is its own trim. */
  lemma TrimIdentity(s: string)
    requires NoEdgeSpace(s)
    ensures Trim(s) == s
  {
  }

  /** A string made of white space only trims to the empty string. */
  lemma {:induction false} TrimAllSpace(s: string)
    requires forall i | 0 <= i < |s| :: IsJsSpace(s[i])
    ensures Trim(s) == ""
  {
    if s != [] {
      assert IsJsSpace(s[0]);
      TrimAllSpace(s[1..]);
    }
  }

  /** `parts.join(sep)`. */
  function Join(parts: seq<string>, sep: string): string
  {
    if parts == [] then ""
    else if |parts| == 1 then parts[0]
    else Join(parts[..|parts| - 1], sep) + sep + parts[|parts| - 1]
  }

  /** Joining two non-empty lists puts exactly one separator between them. */
  lemma {:induction false} JoinAppend(a: seq<string>, b: seq<string>, sep: string)
    requires a != [] && b != []
    ensures Join(a + b, sep) == Join(a, sep) + sep + Join(b, sep)
    decreases |b|
  {
    if |b| == 1 {
      assert (a + b)[..|a + b| - 1] == a;
    } else {
      var b' := b[..|b| - 1];
      assert (a + b)[..|a + b| - 1] == a + b';
      JoinAppend(a, b', sep);
    }
  }

  /** `s.split(c)` for a one-character separator. */
  function Split(s: string, c: char): (r: seq<string>)
    ensures r != []
  {
    if s == [] then [""]
    else
      var rest := Split(s[..|s| - 1], c);
      if s[|s| - 1] == c then rest + [""]
      else rest[..|rest| - 1] + [rest[|rest| - 1] + [s[|s| - 1]]]
  }

  /** Splitting a string that does not contain the separator gives it back whole. */
  lemma {:induction false} SplitNoSeparator(s: string, c: char)
    requires c !in s
    ensures Split(s, c) == [s]
  {
    if s != [] {
      assert c !in s[..|s| - 1];
      SplitNoSeparator(s[..|s| - 1], c);
      assert s[..|s| - 1] + [s[|s| - 1]] == s;
    }
  }

  /** Splitting `a + [c] + b` where `b` has no separator: the split of `a`,
      then `b` as the last part. */
  lemma {:induction false} SplitLastPart(a: string, c: char, b: string)
    requires c !in b
    ensures Split(a + [c] + b, c) == Split(a, c) + [b]
    decreases |b|
  {
    if b == [] {
      assert (a + [c] + b)[..|a + [c] + b| - 1] == a;
    } else {
      var s := a + [c] + b;
      var b' := b[..|b| - 1];
      assert s[..|s| - 1] == a + [c] + b';
      assert c !in b';
      SplitLastPart(a, c, b');
      assert s[|s| - 1] == b[|b| - 1];
      assert b' + [b[|b| - 1]] == b;
    }
  }

  /** `split` undoes `join` when no part contains the separator. */
  lemma {:induction false} SplitJoin(parts: seq<string>, c: char)
    requires parts != []
    requires forall i | 0 <= i < |parts| :: c !in parts[i]
    ensures Split(Join(parts, [c]), c) == parts
    decreases |parts|
  {
    if |parts| == 1 {
      SplitNoSeparator(parts[0], c);
    } else {
      var init, last := parts[..|parts| - 1], parts[|parts| - 1];
      assert forall i | 0 <= i < |init| :: init[i] == parts[i];
      SplitJoin(init, c);
      assert Join(parts, [c]) == Join(init, [c]) + [c] + last;
      assert c !in last;
      SplitLastPart(Join(init, [c]), c, last);
      assert init + [last] == parts;
    }
  }

  /** `s.padStart(2, '0')`. */
  function PadStart2(s: string): (r: string)
    ensures |s| >= 2 ==> r == s
    ensures |s| < 2 ==> |r| == 2 && r[2 - |s|..] == s
  {
    if |s| >= 2 then s else seq(2 - |s|, _ => '0') + s
  }
}
