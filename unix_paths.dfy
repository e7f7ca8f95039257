/**
 * Unix path text as `java.io.File` and the Unix `java.nio.file.Path` keep it:
 * every run of separators becomes one separator and a trailing separator is
 * dropped, except in the root path `/`. Neither removes `.` or `..`.
 */
module UnixPaths {

  /** No two separators in a row. */
  predicate SingleSeparators(s: string) {
    |s| < 2 || (!(s[0] == '/' && s[1] == '/') && SingleSeparators(s[1..]))
  }

  /** No doubled separator, and no trailing separator unless the path is `/`. */
  predicate IsNormal(s: string) {
    SingleSeparators(s) && (|s| > 1 ==> s[|s| - 1] != '/')
  }

  /**
   * The names of a path: its maximal runs of characters other than the
   * separator, in order. Each is non-empty and holds no separator.
   */
  function Segments(s: string): (r: seq<string>)
    ensures s != [] && s[0] != '/' ==> r != [] && r[0] != [] && r[0][0] == s[0]
  {
    if s == [] then []
    else if s[0] == '/' then Segments(s[1..])
    else
      var rest := Segments(s[1..]);
      if |s| > 1 && s[1] != '/' then [[s[0]] + rest[0]] + rest[1..]
      else [[s[0]]] + rest
  }

  /** No name holds a separator, and none is empty. */
  lemma {:induction false} SegmentsAreNames(s: string)
    ensures forall i :: 0 <= i < |Segments(s)| ==> Segments(s)[i] != [] && '/' !in Segments(s)[i]
  {
    if s != [] {
      SegmentsAreNames(s[1..]);
    }
  }

  /** One separator between two paths keeps their names apart: the names of the join are theirs, in order. */
  lemma {:induction false} SegmentsJoin(a: string, b: string)
    ensures Segments(a + "/" + b) == Segments(a) + Segments(b)
  {
    var s := a + "/" + b;
    if a == [] {
      assert s[1..] == b;
    } else {
      assert s[1..] == a[1..] + "/" + b;
      SegmentsJoin(a[1..], b);
      if a[0] != '/' && |a| > 1 && a[1] != '/' {
        assert s[1] == a[1];
      }
    }
  }

  /** A path followed by an absolute one: the names of the whole are the names of the parts. */
  lemma {:induction false} SegmentsAppend(a: string, b: string)
    requires b != [] && b[0] == '/'
    ensures Segments(a + b) == Segments(a) + Segments(b)
  {
    var rest := b[1..];
    SegmentsJoin(a, rest);
    assert a + "/" + rest == a + b;
  }

  /**
   * Every run of separators replaced by one separator, keeping the first and
   * last character; `CollapseSingle` and `CollapseSegments` state the rest.
   */
  function Collapse(s: string): (r: string)
    ensures |r| <= |s| && (r == [] <==> s == [])
    ensures s != [] ==> r[0] == s[0] && r[|r| - 1] == s[|s| - 1]
  {
    if |s| <= 1 then s
    else if s[0] == '/' && s[1] == '/' then Collapse(s[1..])
    else [s[0]] + Collapse(s[1..])
  }

  /** After `Collapse` no separator is doubled. */
  lemma {:induction false} CollapseSingle(s: string)
    ensures SingleSeparators(Collapse(s))
  {
    if |s| > 1 {
      CollapseSingle(s[1..]);
      if !(s[0] == '/' && s[1] == '/') {
        var r := [s[0]] + Collapse(s[1..]);
        assert r[1..] == Collapse(s[1..]);
      }
    }
  }

  /** `Collapse` removes separators only where another one follows: the names are unchanged. */
  lemma {:induction false} CollapseSegments(s: string)
    ensures Segments(Collapse(s)) == Segments(s)
  {
    if |s| > 1 {
      CollapseSegments(s[1..]);
      if !(s[0] == '/' && s[1] == '/') {
        var r := [s[0]] + Collapse(s[1..]);
        assert r[1..] == Collapse(s[1..]);
      }
    }
  }

  /** A path with no doubled separator is left alone by `Collapse`. */
  lemma {:induction false} CollapseKeepsSingle(s: string)
    requires SingleSeparators(s)
    ensures Collapse(s) == s
  {
    if |s| > 1 {
      CollapseKeepsSingle(s[1..]);
      assert s == [s[0]] + s[1..];
    }
  }

  /**
   * Dropping the trailing separator of a path without doubled separators
   * leaves a normal path with the same first character and the same names.
   */
  lemma DropTrailing(t: string)
    requires SingleSeparators(t) && |t| > 1 && t[|t| - 1] == '/'
    ensures IsNormal(t[..|t| - 1]) && t[..|t| - 1][0] == t[0]
    ensures Segments(t[..|t| - 1]) == Segments(t)
  {
    var r := t[..|t| - 1];
    DropTrailingNormal(t);
    assert t == r + "/" + [];
    SegmentsJoin(r, []);
  }

  /** The normal-form half of `DropTrailing`, by induction along the path. */
  lemma {:induction false} DropTrailingNormal(t: string)
    requires SingleSeparators(t) && |t| > 1 && t[|t| - 1] == '/'
    ensures IsNormal(t[..|t| - 1])
  {
    if |t| > 2 {
      DropTrailingNormal(t[1..]);
      assert t[1..][..|t| - 2] == t[..|t| - 1][1..];
    }
  }

  /** `normalize` of the Unix file system: doubled and trailing separators removed. */
  function Normalize(s: string): (r: string)
    ensures IsNormal(r)
    ensures Segments(r) == Segments(s)
    ensures r == [] <==> s == []
    ensures s != [] ==> (r[0] == '/' <==> s[0] == '/')
  {
    var t := Collapse(s);
    CollapseSingle(s);
    CollapseSegments(s);
    if |t| > 1 && t[|t| - 1] == '/' then
      DropTrailing(t);
      t[..|t| - 1]
    else t
  }

  /** A normal path is its own normal form. */
  lemma NormalizeKeepsNormal(s: string)
    requires IsNormal(s)
    ensures Normalize(s) == s
  {
    CollapseKeepsSingle(s);
  }

  /** Normalising twice is normalising once. */
  lemma NormalizeIdempotent(s: string)
    ensures Normalize(Normalize(s)) == Normalize(s)
  {
    NormalizeKeepsNormal(Normalize(s));
  }

  /** Two paths without doubled separators, joined where no separator doubles, have none either. */
  lemma {:induction false} JoinSingle(a: string, b: string)
    requires SingleSeparators(a) && SingleSeparators(b) && a != [] && b != []
    requires !(a[|a| - 1] == '/' && b[0] == '/')
    ensures SingleSeparators(a + b)
  {
    if |a| == 1 {
      assert (a + b)[1..] == b;
    } else {
      JoinSingle(a[1..], b);
      assert (a + b)[1..] == a[1..] + b;
    }
  }

  /** The last character of a normal path other than `/` is not a separator. */
  lemma NormalEnd(a: string)
    requires IsNormal(a) && a != [] && a != "/"
    ensures a[|a| - 1] != '/'
  {
    if |a| == 1 {
      assert a == [a[0]];
    }
  }
}
