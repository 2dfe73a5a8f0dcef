/** The few string operations the channel code is built on: trimming, splitting at a separator and
    joining. Text is a sequence of code points. */
module Text {

  /** White space as Unicode defines it. */
  predicate IsSpace(c: char) {
    || c in {'\t', '\n', '\U{0B}', '\U{0C}', '\r', ' ', '\U{85}', '\U{A0}', '\U{1680}',
             '\U{2028}', '\U{2029}', '\U{202F}', '\U{205F}', '\U{3000}'}
    || '\U{2000}' <= c <= '\U{200A}'
  }

  function TrimLeft(s: string): string {
    if s != "" && IsSpace(s[0]) then TrimLeft(s[1..]) else s
  }

  function TrimRight(s: string): string {
    if s != "" && IsSpace(s[|s| - 1]) then TrimRight(s[..|s| - 1]) else s
  }

  function Trim(s: string): string {
    TrimRight(TrimLeft(s))
  }

  /** No white space at either end. */
  predicate Trimmed(s: string) {
    s == "" || (!IsSpace(s[0]) && !IsSpace(s[|s| - 1]))
  }

  predicate Blank(s: string) {
    forall i :: 0 <= i < |s| ==> IsSpace(s[i])
  }

  /** `t` is `s` without white space before `lo` and from `lo + |t|` on. */
  ghost predicate TrimsTo(s: string, t: string, lo: nat) {
    && lo + |t| <= |s| && t == s[lo..lo + |t|] && Trimmed(t)
    && Blank(s[..lo]) && Blank(s[lo + |t|..])
  }

  lemma {:induction false} TrimLeftMeans(s: string) returns (lo: nat)
    ensures lo <= |s| && TrimLeft(s) == s[lo..] && Blank(s[..lo])
    ensures lo < |s| ==> !IsSpace(s[lo])
  {
    if s != "" && IsSpace(s[0]) {
      lo := TrimLeftMeans(s[1..]);
      lo := lo + 1;
    } else {
      lo := 0;
    }
  }

  lemma {:induction false} TrimRightMeans(s: string) returns (hi: nat)
    ensures hi <= |s| && TrimRight(s) == s[..hi] && Blank(s[hi..])
    ensures hi > 0 ==> !IsSpace(s[hi - 1])
  {
    if s != "" && IsSpace(s[|s| - 1]) {
      hi := TrimRightMeans(s[..|s| - 1]);
      assert s[hi..] == s[..|s| - 1][hi..] + [s[|s| - 1]];
    } else {
      hi := |s|;
    }
  }

  lemma TrimMeans(s: string) returns (lo: nat)
    ensures TrimsTo(s, Trim(s), lo)
  {
    lo := TrimLeftMeans(s);
    var hi := TrimRightMeans(s[lo..]);
    assert Trim(s) == s[lo..lo + hi];
    assert s[lo + hi..] == s[lo..][hi..];
  }

  lemma TrimTrimmed(s: string)
    requires Trimmed(s)
    ensures Trim(s) == s
  {
  }

  /** Trimming between two runs of white space gives back a trimmed text. */
  lemma {:induction false} TrimPadded(a: string, s: string, b: string)
    requires Blank(a) && Blank(b) && Trimmed(s)
    ensures Trim(a + s + b) == s
  {
    if a != "" {
      assert (a + s + b)[1..] == a[1..] + s + b;
      TrimPadded(a[1..], s, b);
    } else if b != "" && s != "" {
      TrimPadded(a, s, b[..|b| - 1]);
      assert (a + s + b)[..|s + b| - 1] == a + s + b[..|b| - 1];
    } else if b != "" {
      TrimPadded(a, s, b[1..]);
      assert (a + s + b)[1..] == a + s + b[1..];
    } else {
      assert a + s + b == s;
    }
  }

  // ---------------------------------------------------------------- splitting and joining

  predicate OccursAt(text: string, sep: string, i: nat) {
    i + |sep| <= |text| && text[i..i + |sep|] == sep
  }

  ghost predicate Contains(text: string, sep: string) {
    exists i: nat :: OccursAt(text, sep, i)
  }

  /** An occurrence in a slice is one in the whole. */
  lemma OccursInside(text: string, lo: nat, hi: nat, sep: string, i: nat)
    requires lo <= hi <= |text| && OccursAt(text[lo..hi], sep, i)
    ensures OccursAt(text, sep, lo + i)
  {
    var s := text[lo..hi];
    forall k | 0 <= k < |sep| ensures text[lo + i..lo + i + |sep|][k] == sep[k] {
      assert s[i..i + |sep|][k] == s[i + k] == text[lo + i + k];
    }
  }

  /** And one that lies within a slice is one in the slice. */
  lemma OccursWithin(text: string, lo: nat, hi: nat, sep: string, i: nat)
    requires OccursAt(text, sep, i) && lo <= i && i + |sep| <= hi <= |text|
    ensures OccursAt(text[lo..hi], sep, i - lo)
  {
    var s := text[lo..hi];
    forall k | 0 <= k < |sep| ensures s[i - lo..i - lo + |sep|][k] == sep[k] {
      assert text[i..i + |sep|][k] == text[i + k] == s[i - lo + k];
    }
  }

  /** Trimming cuts no occurrence of a text that begins and ends without white space. */
  lemma OccursTrimmed(s: string, sep: string, i: nat)
    requires OccursAt(s, sep, i) && sep != "" && !IsSpace(sep[0]) && !IsSpace(sep[|sep| - 1])
    ensures Contains(Trim(s), sep)
  {
    var lo := TrimMeans(s);
    var hi := lo + |Trim(s)|;
    assert s[i] == s[i..i + |sep|][0] == sep[0];
    assert s[i + |sep| - 1] == s[i..i + |sep|][|sep| - 1] == sep[|sep| - 1];
    assert forall k :: 0 <= k < lo ==> s[..lo][k] == s[k];
    assert forall k :: hi <= k < |s| ==> s[hi..][k - hi] == s[k];
    OccursWithin(s, lo, hi, sep, i);
  }

  /** Index of the first occurrence, or -1. */
  function IndexOf(text: string, sep: string): (k: int)
    ensures k >= 0 ==> OccursAt(text, sep, k)
    ensures k < 0 ==> k == -1
  {
    if |text| < |sep| then -1
    else if text[..|sep|] == sep then 0
    else if text == "" then -1
    else
      var r := IndexOf(text[1..], sep);
      if r < 0 then -1 else r + 1
  }

  lemma {:induction false} IndexOfFirst(text: string, sep: string, i: nat)
    requires OccursAt(text, sep, i)
    ensures 0 <= IndexOf(text, sep) <= i
  {
    if i > 0 {
      assert text[1..][i - 1..i - 1 + |sep|] == text[i..i + |sep|];
      IndexOfFirst(text[1..], sep, i - 1);
    }
  }

  /** The text cut at each leftmost occurrence of the separator. */
  function Split(text: string, sep: string): (parts: seq<string>)
    requires sep != ""
    ensures parts != []
    decreases |text|
  {
    var k := IndexOf(text, sep);
    if k < 0 then [text] else [text[..k]] + Split(text[k + |sep|..], sep)
  }

  function Join(parts: seq<string>, sep: string): string {
    if parts == [] then ""
    else if |parts| == 1 then parts[0]
    else parts[0] + sep + Join(parts[1..], sep)
  }

  lemma {:induction false} JoinSplit(text: string, sep: string)
    requires sep != ""
    ensures Join(Split(text, sep), sep) == text
    decreases |text|
  {
    var k := IndexOf(text, sep);
    if k >= 0 {
      var rest := Split(text[k + |sep|..], sep);
      assert Split(text, sep)[1..] == rest;
      JoinSplit(text[k + |sep|..], sep);
      assert text == text[..k] + text[k..k + |sep|] + text[k + |sep|..];
    }
  }

  /** No piece of a split still holds the separator. */
  lemma {:induction false} PiecesFree(text: string, sep: string)
    requires sep != ""
    ensures forall p :: p in Split(text, sep) ==> !Contains(p, sep)
    decreases |text|
  {
    var k := IndexOf(text, sep);
    if k < 0 {
      if Contains(text, sep) {
        var i: nat :| OccursAt(text, sep, i);
        IndexOfFirst(text, sep, i);
      }
    } else {
      PiecesFree(text[k + |sep|..], sep);
      if Contains(text[..k], sep) {
        var i: nat :| OccursAt(text[..k], sep, i);
        assert OccursAt(text, sep, i);
        IndexOfFirst(text, sep, i);
      }
    }
  }

  /** The separator's first character appears nowhere else in it, so two occurrences never overlap. */
  predicate Borderless(sep: string) {
    sep != "" && forall i :: 0 < i < |sep| ==> sep[i] != sep[0]
  }

  lemma NoStraddle(a: string, sep: string, rest: string, k: nat)
    requires Borderless(sep) && k < |a| < k + |sep| <= |a + sep + rest|
    ensures !OccursAt(a + sep + rest, sep, k)
  {
    var text := a + sep + rest;
    assert text[|a|] == sep[0] != sep[|a| - k];
    assert text[k..k + |sep|][|a| - k] == text[|a|];
  }

  lemma FirstSeparator(a: string, sep: string, rest: string)
    requires Borderless(sep) && !Contains(a, sep)
    ensures IndexOf(a + sep + rest, sep) == |a|
  {
    var text := a + sep + rest;
    assert OccursAt(text, sep, |a|);
    IndexOfFirst(text, sep, |a|);
    forall k: nat | k < |a| ensures !OccursAt(text, sep, k) {
      if k + |sep| <= |a| {
        assert text[k..k + |sep|] == a[k..k + |sep|];
        assert !OccursAt(a, sep, k);
      } else {
        NoStraddle(a, sep, rest, k);
      }
    }
  }

  lemma AbsentIndex(s: string, sep: string)
    requires !Contains(s, sep)
    ensures IndexOf(s, sep) < 0
  {
  }

  lemma SplitFirst(a: string, sep: string, rest: string)
    requires Borderless(sep) && !Contains(a, sep)
    ensures Split(a + sep + rest, sep) == [a] + Split(rest, sep)
  {
    FirstSeparator(a, sep, rest);
    Pieces(a, sep, rest);
  }

  lemma Pieces(a: string, sep: string, rest: string)
    ensures (a + sep + rest)[..|a|] == a && (a + sep + rest)[|a| + |sep|..] == rest
  {
  }

  /** Splitting undoes joining. */
  lemma {:induction false} SplitJoin(parts: seq<string>, sep: string)
    requires Borderless(sep) && parts != []
    requires forall p :: p in parts ==> !Contains(p, sep)
    ensures Split(Join(parts, sep), sep) == parts
  {
    assert parts == [parts[0]] + parts[1..];
    if |parts| == 1 {
      AbsentIndex(parts[0], sep);
    } else {
      SplitJoin(parts[1..], sep);
      SplitFirst(parts[0], sep, Join(parts[1..], sep));
    }
  }

  lemma {:induction false} JoinConcat(p: seq<string>, q: seq<string>, sep: string)
    requires p != [] && q != []
    ensures Join(p + q, sep) == Join(p, sep) + sep + Join(q, sep)
  {
    if |p| == 1 {
      assert (p + q)[1..] == q;
    } else {
      assert (p + q)[1..] == p[1..] + q;
      JoinConcat(p[1..], q, sep);
      assert p[0] + sep + (Join(p[1..], sep) + sep + Join(q, sep)) == p[0] + sep + Join(p[1..], sep) + sep + Join(q, sep);
    }
  }
}
