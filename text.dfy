/** String helpers the client relies on: ASCII case folding, substring search
    (what Ruby's `=~` with a literal pattern and `String#[]` do), and the
    slash-separated request paths. */
module Text {

  /** Case folding of one character as an ASCII case-insensitive match does it. */
  function Fold(c: char): (d: char)
    ensures 'A' <= c <= 'Z' ==> 'a' <= d <= 'z' && d as int == c as int + 32
    ensures !('A' <= c <= 'Z') ==> d == c
  {
    if 'A' <= c <= 'Z' then (c as int + 32) as char else c
  }

  /** The string with every character folded. */
  function Lower(s: string): (t: string)
    ensures |t| == |s|
    ensures forall i :: 0 <= i < |s| ==> t[i] == Fold(s[i])
  {
    seq(|s|, i requires 0 <= i < |s| => Fold(s[i]))
  }

  predicate StartsWith(s: string, p: string) {
    |p| <= |s| && s[..|p|] == p
  }

  /** Substring search, scanning the start positions of `s` from left to right. */
  predicate Contains(s: string, p: string)
    decreases |s|
  {
    if StartsWith(s, p) then true
    else if s == [] then false
    else Contains(s[1..], p)
  }

  /** `p` occurs in `s` starting at offset `i`. */
  predicate OccursAt(s: string, p: string, i: nat) {
    i + |p| <= |s| && s[i..i + |p|] == p
  }

  /** The search finds `p` exactly when `p` occurs in `s` at some offset. */
  lemma {:induction false} ContainsIffOccurs(s: string, p: string)
    ensures Contains(s, p) <==> exists i: nat :: OccursAt(s, p, i)
  {
    if StartsWith(s, p) {
      assert OccursAt(s, p, 0);
    } else if s == [] {
    } else {
      ContainsIffOccurs(s[1..], p);
      if Contains(s, p) {
        var i: nat :| OccursAt(s[1..], p, i);
        assert s[i + 1..i + 1 + |p|] == s[1..][i..i + |p|];
        assert OccursAt(s, p, i + 1);
      }
      if exists i: nat :: OccursAt(s, p, i) {
        var i: nat :| OccursAt(s, p, i);
        assert i != 0;
        assert s[1..][i - 1..i - 1 + |p|] == s[i..i + |p|];
        assert OccursAt(s[1..], p, i - 1);
      }
    }
  }

  /** A pattern as long as the text occurs in it only at offset 0, so a
      differing first character rules it out. */
  lemma AbsentWhenFirstDiffers(s: string, p: string)
    requires |s| == |p| && 0 < |p| && s[0] != p[0]
    ensures !exists i: nat :: OccursAt(s, p, i)
  {
  }

  /** A path built from segments: "/" before each one, segments inserted verbatim. */
  function Path(segments: seq<string>): string {
    if segments == [] then "" else "/" + segments[0] + Path(segments[1..])
  }

  lemma PathCons(head: string, tail: seq<string>)
    ensures Path([head] + tail) == "/" + head + Path(tail)
  {
    assert ([head] + tail)[1..] == tail;
  }

  // Path of a fixed number of segments, unfolded one segment at a time.

  lemma PathOfOne(h: string)
    ensures Path([h]) == "/" + h
  {
    PathCons(h, []);
  }

  lemma PathOfTwo(g: string, h: string)
    ensures Path([g, h]) == "/" + g + ("/" + h)
  {
    PathOfOne(h);
    PathCons(g, [h]);
  }

  lemma PathOfThree(f: string, g: string, h: string)
    ensures Path([f, g, h]) == "/" + f + ("/" + g + ("/" + h))
  {
    PathOfTwo(g, h);
    PathCons(f, [g, h]);
  }

  lemma PathOfFour(e: string, f: string, g: string, h: string)
    ensures Path([e, f, g, h]) == "/" + e + ("/" + f + ("/" + g + ("/" + h)))
  {
    PathOfThree(f, g, h);
    PathCons(e, [f, g, h]);
  }

  lemma PathOfFive(d: string, e: string, f: string, g: string, h: string)
    ensures Path([d, e, f, g, h]) == "/" + d + ("/" + e + ("/" + f + ("/" + g + ("/" + h))))
  {
    PathOfFour(e, f, g, h);
    PathCons(d, [e, f, g, h]);
  }

  lemma PathOfSix(c: string, d: string, e: string, f: string, g: string, h: string)
    ensures Path([c, d, e, f, g, h]) == "/" + c + ("/" + d + ("/" + e + ("/" + f + ("/" + g + ("/" + h)))))
  {
    PathOfFive(d, e, f, g, h);
    PathCons(c, [d, e, f, g, h]);
  }

  lemma PathOfSeven(b: string, c: string, d: string, e: string, f: string, g: string, h: string)
    ensures Path([b, c, d, e, f, g, h]) == "/" + b + ("/" + c + ("/" + d + ("/" + e + ("/" + f + ("/" + g + ("/" + h))))))
  {
    PathOfSix(c, d, e, f, g, h);
    PathCons(b, [c, d, e, f, g, h]);
  }

  lemma PathOfEight(a: string, b: string, c: string, d: string, e: string, f: string, g: string, h: string)
    ensures Path([a, b, c, d, e, f, g, h]) == "/" + a + ("/" + b + ("/" + c + ("/" + d + ("/" + e + ("/" + f + ("/" + g + ("/" + h)))))))
  {
    PathOfSeven(b, c, d, e, f, g, h);
    PathCons(a, [b, c, d, e, f, g, h]);
  }

  // A string interpolated the way the request paths are: a literal lead for
  // the fixed segments, ending in '/', then values separated by "/key/" pieces.

  lemma Interpolated1(f1: string, f2: string, f3: string, lead: string, a: string)
    requires lead == "/" + f1 + "/" + f2 + "/" + f3 + "/"
    ensures Path([f1, f2, f3, a]) == lead + a
  {
    PathOfFour(f1, f2, f3, a);
  }

  lemma Interpolated2(f1: string, f2: string, f3: string, lead: string, a: string, k1: string, b: string)
    requires lead == "/" + f1 + "/" + f2 + "/" + f3 + "/"
    ensures Path([f1, f2, f3, a, k1, b]) == lead + a + ("/" + k1 + "/") + b
  {
    PathOfSix(f1, f2, f3, a, k1, b);
  }

  lemma Interpolated3(f1: string, f2: string, f3: string, lead: string, a: string, k1: string, b: string, k2: string, c: string)
    requires lead == "/" + f1 + "/" + f2 + "/" + f3 + "/"
    ensures Path([f1, f2, f3, a, k1, b, k2, c]) == lead + a + ("/" + k1 + "/") + b + ("/" + k2 + "/") + c
  {
    PathOfEight(f1, f2, f3, a, k1, b, k2, c);
  }

  lemma InterpolatedAfterFive(f1: string, f2: string, f3: string, f4: string, f5: string, lead: string, a: string)
    requires lead == "/" + f1 + "/" + f2 + "/" + f3 + "/" + f4 + "/" + f5 + "/"
    ensures Path([f1, f2, f3, f4, f5, a]) == lead + a
  {
    PathOfSix(f1, f2, f3, f4, f5, a);
  }

  /** Joining two runs of segments is concatenating their paths. */
  lemma {:induction false} PathAppend(xs: seq<string>, ys: seq<string>)
    ensures Path(xs + ys) == Path(xs) + Path(ys)
  {
    if xs != [] {
      assert (xs + ys)[1..] == xs[1..] + ys;
      PathAppend(xs[1..], ys);
    } else {
      assert xs + ys == ys;
    }
  }

  /** The leading part of `s` up to, not including, its first '/'. */
  function Field(s: string): (f: string)
    ensures |f| <= |s| && f == s[..|f|]
    ensures '/' !in f
    ensures |f| < |s| ==> s[|f|] == '/'
  {
    if s == [] || s[0] == '/' then "" else [s[0]] + Field(s[1..])
  }

  /** Reads a path back into its segments: each '/' starts a new segment. */
  function Segments(p: string): seq<string>
    decreases |p|
  {
    if p == [] then [] else
    var f := Field(p[1..]);
    [f] + Segments(p[1 + |f|..])
  }

  lemma {:induction false} FieldUpToSlash(f: string, rest: string)
    requires '/' !in f
    requires rest == [] || rest[0] == '/'
    ensures Field(f + rest) == f
  {
    if f != [] {
      assert (f + rest)[1..] == f[1..] + rest;
      FieldUpToSlash(f[1..], rest);
      assert [f[0]] + f[1..] == f;
    }
  }

  /** Segments inverts Path as long as no segment itself contains '/'. */
  lemma {:induction false} SegmentsOfPath(segments: seq<string>)
    requires forall i :: 0 <= i < |segments| ==> '/' !in segments[i]
    ensures Segments(Path(segments)) == segments
  {
    if segments != [] {
      var head, tail := segments[0], segments[1..];
      var p := Path(segments);
      assert p == "/" + head + Path(tail);
      assert p[1..] == head + Path(tail);
      FieldUpToSlash(head, Path(tail));
      assert p[1 + |head|..] == Path(tail);
      assert forall i :: 0 <= i < |tail| ==> '/' !in tail[i] by {
        forall i | 0 <= i < |tail| ensures '/' !in tail[i] {
          assert tail[i] == segments[i + 1];
        }
      }
      SegmentsOfPath(tail);
      assert Segments(p) == [head] + tail;
    }
  }

  // Reading back paths of a fixed number of slash-free segments.

  lemma SegmentsOfFour(a: string, b: string, c: string, d: string)
    requires '/' !in a && '/' !in b && '/' !in c && '/' !in d
    ensures Segments(Path([a, b, c, d])) == [a, b, c, d]
  {
    var s := [a, b, c, d];
    assert forall i :: 0 <= i < |s| ==> '/' !in s[i];
    SegmentsOfPath(s);
  }

  lemma SegmentsOfSix(a: string, b: string, c: string, d: string, e: string, f: string)
    requires '/' !in a && '/' !in b && '/' !in c && '/' !in d && '/' !in e && '/' !in f
    ensures Segments(Path([a, b, c, d, e, f])) == [a, b, c, d, e, f]
  {
    var s := [a, b, c, d, e, f];
    assert forall i :: 0 <= i < |s| ==> '/' !in s[i];
    SegmentsOfPath(s);
  }

  lemma SegmentsOfEight(a: string, b: string, c: string, d: string, e: string, f: string, g: string, h: string)
    requires '/' !in a && '/' !in b && '/' !in c && '/' !in d && '/' !in e && '/' !in f && '/' !in g && '/' !in h
    ensures Segments(Path([a, b, c, d, e, f, g, h])) == [a, b, c, d, e, f, g, h]
  {
    var s := [a, b, c, d, e, f, g, h];
    assert forall i :: 0 <= i < |s| ==> '/' !in s[i];
    SegmentsOfPath(s);
  }
}
