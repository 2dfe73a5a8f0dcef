/** Reply bubbles: how an agent's reply segments are joined into one outbound text
    (internal/agent/loop.go) and cut apart again by the channel (internal/channels/base.go). */
module Bubbles {
  import opened Text

  const SPLIT_MESSAGE_MARKER := "<|split|>"

  /** The non-blank parts, as they are. */
  function Spoken(parts: seq<string>): seq<string> {
    if parts == [] then []
    else Spoken(parts[..|parts| - 1]) + Kept(parts[|parts| - 1], parts[|parts| - 1])
  }

  /** The non-blank parts, trimmed. */
  function Trims(parts: seq<string>): seq<string> {
    if parts == [] then []
    else Trims(parts[..|parts| - 1]) + Kept(parts[|parts| - 1], Trim(parts[|parts| - 1]))
  }

  function Kept(p: string, shown: string): seq<string> {
    if Trim(p) == "" then [] else [shown]
  }

  /** What is spoken of a list, and what a list trims to, piece by piece and in order: a part that is more than
      white space, as it is or trimmed, and nothing of any other. */
  lemma {:induction false} SpokenInOrder(a: seq<string>, b: seq<string>)
    ensures Spoken(a + b) == Spoken(a) + Spoken(b)
    decreases |b|
  {
    if b == [] {
      assert a + b == a;
    } else {
      SpokenInOrder(a, b[..|b| - 1]);
      LastOf(a, b);
      Regroup(Spoken(a), Spoken(b[..|b| - 1]), Kept(b[|b| - 1], b[|b| - 1]));
    }
  }

  lemma {:induction false} TrimsInOrder(a: seq<string>, b: seq<string>)
    ensures Trims(a + b) == Trims(a) + Trims(b)
    decreases |b|
  {
    if b == [] {
      assert a + b == a;
    } else {
      TrimsInOrder(a, b[..|b| - 1]);
      LastOf(a, b);
      Regroup(Trims(a), Trims(b[..|b| - 1]), Kept(b[|b| - 1], Trim(b[|b| - 1])));
    }
  }

  lemma LastOf(a: seq<string>, b: seq<string>)
    requires b != []
    ensures (a + b)[..|a + b| - 1] == a + b[..|b| - 1] && (a + b)[|a + b| - 1] == b[|b| - 1]
  {
  }

  lemma Regroup(a: seq<string>, b: seq<string>, c: seq<string>)
    ensures a + b + c == a + (b + c)
  {
  }

  lemma SpokenOne(p: string)
    ensures Spoken([p]) == if Trim(p) == "" then [] else [p]
    ensures Trims([p]) == if Trim(p) == "" then [] else [Trim(p)]
  {
    assert [p][..0] == [];
  }

  function Joined(parts: seq<string>): string {
    Join(Spoken(parts), SPLIT_MESSAGE_MARKER)
  }

  function Chunks(text: string): seq<string> {
    Trims(Split(text, SPLIT_MESSAGE_MARKER))
  }

  method JoinReplyParts(parts: seq<string>) returns (r: string)
    ensures r == Joined(parts)
  {
    var out := [];
    for i := 0 to |parts|
      invariant out == Spoken(parts[..i])
    {
      assert parts[..i + 1][..i] == parts[..i];
      if Trim(parts[i]) != "" {
        out := out + [parts[i]];
      }
    }
    assert parts[..|parts|] == parts;
    if |out| == 0 {
      return "";
    }
    if |out| == 1 {
      return out[0];
    }
    return Join(out, SPLIT_MESSAGE_MARKER);
  }

  /** A further part that is not blank comes last, behind a marker if anything was said before. */
  lemma JoinedEndsWith(parts: seq<string>, c: string)
    requires Trim(c) != ""
    ensures Joined(parts + [c]) == (if Spoken(parts) == [] then "" else Joined(parts) + SPLIT_MESSAGE_MARKER) + c
    ensures |c| <= |Joined(parts + [c])| && Joined(parts + [c])[|Joined(parts + [c])| - |c|..] == c
  {
    assert (parts + [c])[..|parts|] == parts;
    if Spoken(parts) != [] {
      JoinConcat(Spoken(parts), [c], SPLIT_MESSAGE_MARKER);
    }
  }

  method SplitOutboundText(text: string) returns (out: seq<string>)
    ensures out == Chunks(text)
  {
    var parts := Split(text, SPLIT_MESSAGE_MARKER);
    out := [];
    for i := 0 to |parts|
      invariant out == Trims(parts[..i])
    {
      assert parts[..i + 1][..i] == parts[..i];
      var p := Trim(parts[i]);
      if p == "" {
        continue;
      }
      out := out + [p];
    }
    assert parts[..|parts|] == parts;
  }

  lemma {:induction false} TrimsOfSpoken(parts: seq<string>)
    ensures Trims(Spoken(parts)) == Trims(parts)
  {
    if parts != [] {
      var front, p := parts[..|parts| - 1], parts[|parts| - 1];
      TrimsOfSpoken(front);
      if Trim(p) != "" {
        assert (Spoken(front) + [p])[..|Spoken(front)|] == Spoken(front);
      } else {
        assert Spoken(parts) == Spoken(front);
      }
    }
  }

  lemma {:induction false} SpokenFrom(parts: seq<string>)
    ensures forall p :: p in Spoken(parts) <==> p in parts && Trim(p) != ""
  {
    if parts != [] {
      SpokenFrom(parts[..|parts| - 1]);
      assert parts == parts[..|parts| - 1] + [parts[|parts| - 1]];
    }
  }

  lemma {:induction false} TrimsFrom(parts: seq<string>)
    ensures forall t :: t in Trims(parts) <==> t != "" && exists p :: p in parts && Trim(p) == t
  {
    if parts != [] {
      var front, last := parts[..|parts| - 1], parts[|parts| - 1];
      TrimsFrom(front);
      assert parts == front + [last];
      forall t | t != "" && exists p :: p in parts && Trim(p) == t
        ensures t in Trims(parts)
      {
        var p :| p in parts && Trim(p) == t;
        if p in front {
          assert t in Trims(front);
        }
      }
    }
  }

  /** The marker holds no white space, so trimming neither makes nor breaks one. */
  lemma TrimKeepsMarker(s: string)
    ensures Contains(Trim(s), SPLIT_MESSAGE_MARKER) <==> Contains(s, SPLIT_MESSAGE_MARKER)
  {
    MarkerTrimmed(s, SPLIT_MESSAGE_MARKER);
  }

  lemma MarkerTrimmed(s: string, m: string)
    requires m != "" && !IsSpace(m[0]) && !IsSpace(m[|m| - 1])
    ensures Contains(Trim(s), m) <==> Contains(s, m)
  {
    var lo := TrimMeans(s);
    if Contains(Trim(s), m) {
      var i: nat :| OccursAt(Trim(s), m, i);
      OccursInside(s, lo, lo + |Trim(s)|, m, i);
    }
    if Contains(s, m) {
      var i: nat :| OccursAt(s, m, i);
      OccursTrimmed(s, m, i);
    }
  }

  /** Every bubble is trimmed, non-empty and free of the marker. */
  lemma ChunksClean(text: string)
    ensures forall t :: t in Chunks(text) ==> t != "" && Trimmed(t) && !Contains(t, SPLIT_MESSAGE_MARKER)
  {
    var parts := Split(text, SPLIT_MESSAGE_MARKER);
    TrimsFrom(parts);
    PiecesFree(text, SPLIT_MESSAGE_MARKER);
    forall t | t in Chunks(text)
      ensures t != "" && Trimmed(t) && !Contains(t, SPLIT_MESSAGE_MARKER)
    {
      var p :| p in parts && Trim(p) == t;
      TrimKeepsMarker(p);
      var lo := TrimMeans(p);
    }
  }

  /** The bubbles of a joined reply are its non-blank parts, trimmed, exactly when no part holds the
      marker itself. */
  lemma BubblesUndoJoinIff(parts: seq<string>)
    ensures Chunks(Joined(parts)) == Trims(parts) <==>
            forall p :: p in parts ==> !Contains(p, SPLIT_MESSAGE_MARKER)
  {
    var m := SPLIT_MESSAGE_MARKER;
    if forall p :: p in parts ==> !Contains(p, m) {
      BubblesUndoJoin(parts);
    } else {
      var p :| p in parts && Contains(p, m);
      TrimKeepsMarker(p);
      TrimsFrom(parts);
      assert Trim(p) in Trims(parts);
      ChunksClean(Joined(parts));
    }
  }

  lemma EmptyReply()
    ensures Chunks("") == []
  {
    assert Split("", SPLIT_MESSAGE_MARKER) == [""];
    assert Trims([""][..0]) == [];
  }

  lemma BubblesUndoJoin(parts: seq<string>)
    requires forall p :: p in parts ==> !Contains(p, SPLIT_MESSAGE_MARKER)
    ensures Chunks(Joined(parts)) == Trims(parts)
  {
    if Spoken(parts) == [] {
      TrimsOfSpoken(parts);
      EmptyReply();
    } else {
      SplitSpoken(parts, SPLIT_MESSAGE_MARKER);
    }
  }

  lemma SplitSpoken(parts: seq<string>, marker: string)
    requires Borderless(marker) && Spoken(parts) != []
    requires forall p :: p in parts ==> !Contains(p, marker)
    ensures Trims(Split(Join(Spoken(parts), marker), marker)) == Trims(parts)
  {
    TrimsOfSpoken(parts);
    SpokenFrom(parts);
    SplitJoin(Spoken(parts), marker);
  }
}
