/**
  String operations the core relies on, with the semantics of Rust's `str::split`
  (a string pattern, matched leftmost-first and without overlap), `[String]::join`
  and the fact that lets a URL's path segments be read back out of it.
 */
module Text {
  import opened Wrappers

  /** `sep` occurs in `s` starting at index `j`. */
  predicate OccursAt(s: string, sep: string, j: nat) {
    j + |sep| <= |s| && s[j..j + |sep|] == sep
  }

  ghost predicate Contains(s: string, sep: string) {
    exists j: nat :: OccursAt(s, sep, j)
  }

  /** Occurrences in the tail of `s` are the occurrences in `s` shifted by one. */
  lemma OccursAtTail(s: string, sep: string)
    requires |s| > 0
    ensures forall j: nat :: OccursAt(s[1..], sep, j) <==> OccursAt(s, sep, j + 1)
    ensures forall j: nat :: 1 <= j ==> (OccursAt(s, sep, j) <==> OccursAt(s[1..], sep, j - 1))
  {
    forall j: nat ensures OccursAt(s[1..], sep, j) <==> OccursAt(s, sep, j + 1) {
      if j + 1 + |sep| <= |s| {
        assert s[1..][j..j + |sep|] == s[j + 1..j + 1 + |sep|];
      }
    }
  }

  /** An occurrence in `p` is an occurrence in every extension of `p`. */
  lemma OccursInExtension(p: string, x: string, sep: string)
    ensures forall j: nat :: OccursAt(p, sep, j) ==> OccursAt(p + x, sep, j)
  {
    forall j: nat | OccursAt(p, sep, j) ensures OccursAt(p + x, sep, j) {
      assert (p + x)[j..j + |sep|] == p[j..j + |sep|];
    }
  }

  /** The leftmost occurrence of `sep` in `s`, if there is one. */
  function Find(s: string, sep: string): (r: Option<nat>)
    requires |sep| > 0
    ensures r.Some? ==> OccursAt(s, sep, r.value)
    ensures r.Some? ==> forall j: nat :: j < r.value ==> !OccursAt(s, sep, j)
    ensures r.None? <==> !Contains(s, sep)
    decreases |s|
  {
    if |s| < |sep| then None
    else if s[..|sep|] == sep then Some(0)
    else
      var t := Find(s[1..], sep);
      OccursAtTail(s, sep);
      assert !OccursAt(s, sep, 0);
      if t.None? then None else Some(t.value + 1)
  }

  /** Find is pinned down by its contract: the least index where `sep` occurs. */
  lemma FindLeast(s: string, sep: string, k: nat)
    requires |sep| > 0
    requires OccursAt(s, sep, k)
    requires forall j: nat :: j < k ==> !OccursAt(s, sep, j)
    ensures Find(s, sep) == Some(k)
  {
  }

  /** Rust `join(sep)`: the parts with `sep` between neighbours. */
  function Join(parts: seq<string>, sep: string): string
    decreases |parts|
  {
    if |parts| == 0 then ""
    else if |parts| == 1 then parts[0]
    else parts[0] + sep + Join(parts[1..], sep)
  }

  /**
    A piece that precedes a separator in a leftmost-first split: the first
    occurrence of `sep` in `p + sep` is the final one. For a one-character
    separator this says just that `p` does not contain it.
   */
  ghost predicate LeftmostPiece(p: string, sep: string)
    requires |sep| > 0
  {
    !Contains(p + sep[..|sep| - 1], sep)
  }

  /** What the pieces of a split look like, independently of how they are computed. */
  ghost predicate ValidSplit(parts: seq<string>, sep: string)
    requires |sep| > 0
  {
    && |parts| >= 1
    && (forall i :: 0 <= i < |parts| - 1 ==> LeftmostPiece(parts[i], sep))
    && !Contains(parts[|parts| - 1], sep)
  }

  /** The text before the leftmost occurrence is a leftmost piece. */
  lemma PieceBeforeLeftmost(s: string, sep: string, k: nat)
    requires |sep| > 0
    requires OccursAt(s, sep, k)
    requires forall j: nat :: j < k ==> !OccursAt(s, sep, j)
    ensures LeftmostPiece(s[..k], sep)
  {
    var u := s[..k] + sep[..|sep| - 1];
    assert u == s[..k + |sep| - 1];
    forall j: nat ensures !OccursAt(u, sep, j) {
      if j + |sep| <= |u| {
        assert u[j..j + |sep|] == s[j..j + |sep|];
        assert !OccursAt(s, sep, j);
      }
    }
  }

  /**
    Rust `s.split(sep)` collected into a vector: never empty, joins back to `s`,
    and its pieces are exactly those of a leftmost-first split.
   */
  function Split(s: string, sep: string): (r: seq<string>)
    requires |sep| > 0
    ensures Join(r, sep) == s
    ensures ValidSplit(r, sep)
    decreases |s|
  {
    match Find(s, sep)
    case None => [s]
    case Some(k) =>
      var rest := Split(s[k + |sep|..], sep);
      PieceBeforeLeftmost(s, sep, k);
      AroundOccurrence(s, sep, k);
      PrependPiece(s[..k], sep, rest);
      [s[..k]] + rest
  }

  /** A string is what precedes an occurrence, the separator, and what follows. */
  lemma AroundOccurrence(s: string, sep: string, k: nat)
    requires OccursAt(s, sep, k)
    ensures s == s[..k] + sep + s[k + |sep|..]
  {
    assert s == s[..k] + s[k..k + |sep|] + s[k + |sep|..];
  }

  /** A leftmost piece in front of a valid split makes a valid split. */
  lemma PrependPiece(p: string, sep: string, rest: seq<string>)
    requires |sep| > 0
    requires LeftmostPiece(p, sep)
    requires ValidSplit(rest, sep)
    ensures Join([p] + rest, sep) == p + sep + Join(rest, sep)
    ensures ValidSplit([p] + rest, sep)
  {
    assert ([p] + rest)[1..] == rest;
    var parts := [p] + rest;
    forall i | 0 <= i < |parts| - 1 ensures LeftmostPiece(parts[i], sep) {
      if i > 0 {
        assert parts[i] == rest[i - 1];
      }
    }
  }

  /** No piece of a split contains the separator. */
  lemma PiecesAvoidSeparator(parts: seq<string>, sep: string)
    requires |sep| > 0
    requires ValidSplit(parts, sep)
    ensures forall i :: 0 <= i < |parts| ==> !Contains(parts[i], sep)
  {
    forall i | 0 <= i < |parts| - 1 ensures !Contains(parts[i], sep) {
      OccursInExtension(parts[i], sep[..|sep| - 1], sep);
    }
  }

  /** A string without the separator splits into itself alone. */
  lemma SplitWithoutSeparator(s: string, sep: string)
    requires |sep| > 0
    ensures !Contains(s, sep) ==> Split(s, sep) == [s]
  {
  }

  /** Splitting inverts joining: a split is the unique valid split that joins to `s`. */
  lemma {:induction false} SplitOfJoin(parts: seq<string>, sep: string)
    requires |sep| > 0
    requires ValidSplit(parts, sep)
    ensures Split(Join(parts, sep), sep) == parts
    decreases |parts|
  {
    if |parts| > 1 {
      var p, rest := parts[0], parts[1..];
      var s := Join(parts, sep);
      assert s == p + sep + Join(rest, sep);
      assert ValidSplit(rest, sep) by {
        forall i | 0 <= i < |rest| - 1 ensures LeftmostPiece(rest[i], sep) {
          assert rest[i] == parts[i + 1];
        }
        assert rest[|rest| - 1] == parts[|parts| - 1];
      }
      assert OccursAt(s, sep, |p|) by {
        assert s[|p|..|p| + |sep|] == sep;
      }
      var u := p + sep[..|sep| - 1];
      assert LeftmostPiece(p, sep);
      assert u == s[..|p| + |sep| - 1];
      forall j: nat | j < |p| ensures !OccursAt(s, sep, j) {
        assert s[j..j + |sep|] == u[j..j + |sep|];
        assert !OccursAt(u, sep, j);
      }
      FindLeast(s, sep, |p|);
      assert s[..|p|] == p;
      assert s[|p| + |sep|..] == Join(rest, sep);
      SplitOfJoin(rest, sep);
    }
  }

  /** Joining a part in front of at least one more puts the separator between them. */
  lemma JoinCons(x: string, rest: seq<string>, sep: string)
    requires |rest| > 0
    ensures Join([x] + rest, sep) == x + (sep + Join(rest, sep))
  {
    assert ([x] + rest)[1..] == rest;
    assert Join([x] + rest, sep) == x + sep + Join(rest, sep);
  }

  /** Rust-style count of leftmost-first, non-overlapping occurrences. */
  function Count(s: string, sep: string): nat
    requires |sep| > 0
    decreases |s|
  {
    if |s| < |sep| then 0
    else if s[..|sep|] == sep then 1 + Count(s[|sep|..], sep)
    else Count(s[1..], sep)
  }

  /** A prefix free of occurrences does not change the count. */
  lemma {:induction false} CountSkips(s: string, sep: string, k: nat)
    requires |sep| > 0
    requires k <= |s|
    requires forall j: nat :: j < k ==> !OccursAt(s, sep, j)
    ensures Count(s, sep) == Count(s[k..], sep)
    decreases k
  {
    if k > 0 {
      assert !OccursAt(s, sep, 0);
      if |s| >= |sep| {
        assert s[0..|sep|] == s[..|sep|];
      }
      OccursAtTail(s, sep);
      CountSkips(s[1..], sep, k - 1);
      assert s[1..][k - 1..] == s[k..];
    }
  }

  /** A split has one more piece than the separator has occurrences. */
  lemma {:induction false} SplitCount(s: string, sep: string)
    requires |sep| > 0
    ensures |Split(s, sep)| == 1 + Count(s, sep)
    decreases |s|
  {
    match Find(s, sep)
    case None =>
      forall j: nat | j < |s| ensures !OccursAt(s, sep, j) { }
      CountSkips(s, sep, |s|);
    case Some(k) =>
      CountSkips(s, sep, k);
      assert s[k..][..|sep|] == sep;
      assert s[k..][|sep|..] == s[k + |sep|..];
      SplitCount(s[k + |sep|..], sep);
  }

  /** `s` has no '/' in it: a single URL path segment. */
  predicate NoSlash(s: string) {
    '/' !in s
  }

  /** A slash-free string does not contain "/". */
  lemma NoSlashAvoidsSlash(x: string)
    requires NoSlash(x)
    ensures !Contains(x, "/")
  {
    forall j: nat ensures !OccursAt(x, "/", j) {
      if j + 1 <= |x| {
        assert x[j..j + 1][0] == x[j];
      }
    }
  }

  /** Slash-free segments joined with '/' split back into the same segments. */
  lemma SplitOfSlashJoin(segments: seq<string>)
    requires |segments| > 0
    requires forall i :: 0 <= i < |segments| ==> NoSlash(segments[i])
    ensures Split(Join(segments, "/"), "/") == segments
  {
    forall i | 0 <= i < |segments| ensures !Contains(segments[i], "/") {
      NoSlashAvoidsSlash(segments[i]);
    }
    assert forall i :: 0 <= i < |segments| - 1 ==> segments[i] + "/"[..0] == segments[i];
    SplitOfJoin(segments, "/");
  }

  /** Equal strings with a common prefix have equal remainders. */
  lemma CancelPrefix(p: string, x: string, y: string)
    requires p + x == p + y
    ensures x == y
  {
    assert x == (p + x)[|p|..];
    assert y == (p + y)[|p|..];
  }

  /** Equal strings with a common suffix have equal beginnings. */
  lemma CancelSuffix(x: string, y: string, q: string)
    requires x + q == y + q
    ensures x == y
  {
    assert x == (x + q)[..|x|];
    assert y == (y + q)[..|y|];
  }

  /**
    Whatever the parts may contain, a join with the same parts around one
    position determines the part at that position.
   */
  lemma {:induction false} JoinDeterminesPart(front: seq<string>, x1: string, x2: string, rest: seq<string>,
                                              sep: string)
    requires |rest| > 0
    requires Join(front + [x1] + rest, sep) == Join(front + [x2] + rest, sep)
    ensures x1 == x2
    decreases |front|
  {
    if front == [] {
      assert front + [x1] + rest == [x1] + rest;
      assert front + [x2] + rest == [x2] + rest;
      JoinCons(x1, rest, sep);
      JoinCons(x2, rest, sep);
      CancelSuffix(x1, x2, sep + Join(rest, sep));
    } else {
      var f, tail := front[0], front[1..];
      assert front + [x1] + rest == [f] + (tail + [x1] + rest);
      assert front + [x2] + rest == [f] + (tail + [x2] + rest);
      JoinCons(f, tail + [x1] + rest, sep);
      JoinCons(f, tail + [x2] + rest, sep);
      CancelPrefix(f, sep + Join(tail + [x1] + rest, sep), sep + Join(tail + [x2] + rest, sep));
      CancelPrefix(sep, Join(tail + [x1] + rest, sep), Join(tail + [x2] + rest, sep));
      JoinDeterminesPart(tail, x1, x2, rest, sep);
    }
  }
}
