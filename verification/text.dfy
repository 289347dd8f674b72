/**
 * String helpers used by the dotted-path extractor: ASCII lower-casing (the key
 * normalisation of a case-insensitive header map) and splitting on every '.'
 * exactly as `str.split(".")` does, with no quote awareness.
 */
module Text {

  /** Lower-case one ASCII letter; every other character is left as it is. */
  function LowerChar(c: char): char
  {
    if 'A' <= c <= 'Z' then (c as int + 32) as char else c
  }

  /** `s.lower()` restricted to ASCII letters. */
  function Lower(s: string): (r: string)
    ensures |r| == |s|
    ensures forall i :: 0 <= i < |s| ==> r[i] == LowerChar(s[i])
  {
    if s == [] then [] else [LowerChar(s[0])] + Lower(s[1..])
  }

  /** Lower-casing twice is lower-casing once. */
  lemma LowerIdempotent(s: string)
    ensures Lower(Lower(s)) == Lower(s)
  {
  }

  /** Number of '.' characters in `s`. */
  function Dots(s: string): nat
  {
    if s == [] then 0 else (if s[0] == '.' then 1 else 0) + Dots(s[1..])
  }

  /**
   * `s.split(".")`: the pieces between consecutive dots, in order. An empty
   * string gives one empty piece and adjacent dots give empty pieces.
   */
  function Split(s: string): (r: seq<string>)
    ensures |r| >= 1
  {
    if s == [] then [""]
    else
      var rest := Split(s[1..]);
      if s[0] == '.' then [""] + rest
      else [[s[0]] + rest[0]] + rest[1..]
  }

  /** `".".join(segs)`. */
  function Join(segs: seq<string>): string
  {
    if segs == [] then ""
    else if |segs| == 1 then segs[0]
    else segs[0] + "." + Join(segs[1..])
  }

  /** Joining the pieces with '.' gives back the original path. */
  lemma {:induction false} JoinSplit(s: string)
    ensures Join(Split(s)) == s
  {
    if s != [] {
      var rest := Split(s[1..]);
      JoinSplit(s[1..]);
      if s[0] == '.' {
        assert Split(s) == [""] + rest;
        assert Join(Split(s)) == "" + "." + Join(rest);
      } else if |rest| == 1 {
        assert Split(s) == [[s[0]] + rest[0]];
      } else {
        assert Split(s) == [[s[0]] + rest[0]] + rest[1..];
        assert Join(rest) == rest[0] + "." + Join(rest[1..]);
      }
    }
  }

  /** No piece contains a dot. */
  lemma {:induction false} SplitPiecesHaveNoDot(s: string)
    ensures forall i :: 0 <= i < |Split(s)| ==> '.' !in Split(s)[i]
  {
    if s != [] {
      SplitPiecesHaveNoDot(s[1..]);
      var rest := Split(s[1..]);
      if s[0] != '.' {
        assert Split(s) == [[s[0]] + rest[0]] + rest[1..];
        assert '.' !in rest[0];
      }
    }
  }

  /** There is exactly one piece more than there are dots: one step per piece. */
  lemma {:induction false} SplitCount(s: string)
    ensures |Split(s)| == Dots(s) + 1
  {
    if s != [] {
      SplitCount(s[1..]);
    }
  }

  /** A string without a dot is a single piece. */
  lemma {:induction false} SplitDotFree(a: string)
    requires '.' !in a
    ensures Split(a) == [a]
  {
    if a != [] {
      SplitDotFree(a[1..]);
      assert [a[0]] + a[1..] == a;
    }
  }

  /** Splitting `p + "." + q` gives the pieces of `p` followed by the pieces of `q`. */
  lemma {:induction false} SplitConcat(p: string, q: string)
    ensures Split(p + "." + q) == Split(p) + Split(q)
  {
    if p == [] {
      assert p + "." + q == "." + q;
      assert ("." + q)[1..] == q;
    } else {
      assert (p + "." + q)[0] == p[0];
      assert (p + "." + q)[1..] == p[1..] + "." + q;
      SplitConcat(p[1..], q);
    }
  }

  /** Splitting undoes joining, for dot-free segments. */
  lemma {:induction false} SplitJoin(segs: seq<string>)
    requires |segs| >= 1
    requires forall i :: 0 <= i < |segs| ==> '.' !in segs[i]
    ensures Split(Join(segs)) == segs
  {
    SplitDotFree(segs[0]);
    if |segs| > 1 {
      SplitJoin(segs[1..]);
      SplitConcat(segs[0], Join(segs[1..]));
      assert segs == [segs[0]] + segs[1..];
    }
  }

  /** A double-quoted header name stays one piece and keeps its quote characters. */
  lemma QuotedSegmentKeepsQuotes()
    ensures Split("headers.\"Content-Type\"") == ["headers", "\"Content-Type\""]
  {
    var segs := ["headers", "\"Content-Type\""];
    assert Join(segs) == "headers.\"Content-Type\"";
    SplitJoin(segs);
  }

  /** Quotes do not protect a dot: a quoted key containing one is cut in two. */
  lemma QuotedDotIsSplit()
    ensures Split("body.\"a.b\"") == ["body", "\"a", "b\""]
  {
    var segs := ["body", "\"a", "b\""];
    assert Join(segs) == "body.\"a.b\"";
    SplitJoin(segs);
  }
}
