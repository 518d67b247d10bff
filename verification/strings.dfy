/** The few functions of Go's `strings` package the controller relies on. */
module Strings {
  import opened Wrappers

  predicate OccursAt(s: string, sep: string, i: nat) {
    i + |sep| <= |s| && s[i..i + |sep|] == sep
  }

  predicate Occurs(s: string, sep: string) {
    exists i: nat :: i <= |s| && OccursAt(s, sep, i)
  }

  /** The leftmost occurrence of `sep` at or after position `i`. */
  function FirstFrom(s: string, sep: string, i: nat): (r: Option<nat>)
    requires i <= |s|
    ensures r.Some? ==> i <= r.value <= |s| && OccursAt(s, sep, r.value)
    ensures r.Some? ==> forall j: nat :: i <= j < r.value ==> !OccursAt(s, sep, j)
    ensures r.None? ==> forall j: nat :: i <= j ==> !OccursAt(s, sep, j)
    decreases |s| - i
  {
    if OccursAt(s, sep, i) then Some(i)
    else if i == |s| then None
    else FirstFrom(s, sep, i + 1)
  }

  /** strings.Split for a non-empty separator: cut at leftmost occurrences, which never overlap. */
  function Split(s: string, sep: string): (pieces: seq<string>)
    requires sep != ""
    ensures |pieces| >= 1
    decreases |s|
  {
    match FirstFrom(s, sep, 0)
    case None => [s]
    case Some(i) => [s[..i]] + Split(s[i + |sep|..], sep)
  }

  function Join(pieces: seq<string>, sep: string): string
    requires pieces != []
  {
    if |pieces| == 1 then pieces[0] else pieces[0] + sep + Join(pieces[1..], sep)
  }

  /** The last character of `sep` occurs nowhere else in it, so two occurrences cannot overlap. */
  predicate Delimiter(sep: string) {
    sep != "" && sep[|sep| - 1] !in sep[..|sep| - 1]
  }

  lemma {:induction false} JoinOfSplit(s: string, sep: string)
    requires sep != ""
    ensures Join(Split(s, sep), sep) == s
    decreases |s|
  {
    match FirstFrom(s, sep, 0)
    case None =>
    case Some(i) =>
      var rest := s[i + |sep|..];
      var tail := Split(rest, sep);
      JoinOfSplit(rest, sep);
      assert ([s[..i]] + tail)[1..] == tail;
      assert Join([s[..i]] + tail, sep) == s[..i] + sep + rest;
      assert s == s[..i] + s[i..i + |sep|] + rest;
  }

  lemma {:induction false} PiecesHaveNoSeparator(s: string, sep: string)
    requires sep != ""
    ensures forall p :: p in Split(s, sep) ==> !Occurs(p, sep)
    decreases |s|
  {
    match FirstFrom(s, sep, 0)
    case None =>
    case Some(i) =>
      PiecesHaveNoSeparator(s[i + |sep|..], sep);
      forall j: nat | j + |sep| <= i ensures !OccursAt(s[..i], sep, j) {
        assert !OccursAt(s, sep, j);
        assert s[..i][j..j + |sep|] == s[j..j + |sep|];
      }
  }

  /** A separator appended to a piece without one is the first separator: it cannot straddle the boundary. */
  lemma SeparatorIsFirst(piece: string, sep: string, rest: string)
    requires Delimiter(sep) && !Occurs(piece, sep)
    ensures FirstFrom(piece + sep + rest, sep, 0) == Some(|piece|)
  {
    var s := piece + sep + rest;
    assert OccursAt(s, sep, |piece|);
    forall j: nat | j < |piece| ensures !OccursAt(s, sep, j) {
      if j + |sep| <= |piece| {
        assert piece[j..j + |sep|] == s[j..j + |sep|];
        assert !OccursAt(piece, sep, j);
      } else {
        var last := |sep| - 1;
        assert s[j + last] == sep[j + last - |piece|];
        assert sep[j + last - |piece|] in sep[..last];
        assert s[j..j + |sep|][last] != sep[last];
      }
    }
  }

  lemma {:induction false} SplitOfJoin(pieces: seq<string>, sep: string)
    requires pieces != [] && Delimiter(sep)
    requires forall p :: p in pieces ==> !Occurs(p, sep)
    ensures Split(Join(pieces, sep), sep) == pieces
    decreases |pieces|
  {
    var s := Join(pieces, sep);
    if |pieces| == 1 {
      assert !Occurs(s, sep);
    } else {
      var rest := Join(pieces[1..], sep);
      SeparatorIsFirst(pieces[0], sep, rest);
      assert s[..|pieces[0]|] == pieces[0];
      assert s[|pieces[0]| + |sep|..] == rest;
      SplitOfJoin(pieces[1..], sep);
    }
  }

  /** A one-character string that does not occur leaves the text whole. */
  lemma NoCharNoOccurrence(s: string, c: char)
    requires c !in s
    ensures !Occurs(s, [c])
  {
    forall i: nat | i < |s| ensures !OccursAt(s, [c], i) {
      assert s[i..i + 1][0] == s[i];
    }
  }

  lemma FirstAt(a: string, x: string, c: char)
    requires c !in a
    ensures FirstFrom(a + [c] + x, [c], 0) == Some(|a|)
  {
    NoCharNoOccurrence(a, c);
    SeparatorIsFirst(a, [c], x);
  }

  /** Two texts cut at the first `c` agree on both sides when the left sides have no `c`. */
  lemma CutAtFirst(a: string, x: string, b: string, y: string, c: char)
    requires c !in a && c !in b
    requires a + [c] + x == b + [c] + y
    ensures a == b && x == y
  {
    var s := a + [c] + x;
    assert s == b + [c] + y;
    FirstAt(a, x, c);
    FirstAt(b, y, c);
    assert a == s[..|a|] && b == s[..|b|];
    assert x == s[|a| + 1..] && y == s[|b| + 1..];
  }

  function TrimLeft(s: string, cut: set<char>): string {
    if s != "" && s[0] in cut then TrimLeft(s[1..], cut) else s
  }

  function TrimRight(s: string, cut: set<char>): string {
    if s != "" && s[|s| - 1] in cut then TrimRight(s[..|s| - 1], cut) else s
  }

  /** strings.Trim */
  function Trim(s: string, cut: set<char>): string {
    TrimRight(TrimLeft(s, cut), cut)
  }

  predicate Trimmed(s: string, cut: set<char>) {
    s != "" ==> s[0] !in cut && s[|s| - 1] !in cut
  }

  predicate AllIn(s: string, cut: set<char>) {
    forall i :: 0 <= i < |s| ==> s[i] in cut
  }

  lemma {:induction false} TrimLeftOf(left: string, s: string, cut: set<char>)
    requires AllIn(left, cut) && (s != "" ==> s[0] !in cut)
    ensures TrimLeft(left + s, cut) == s
    decreases |left|
  {
    if left == "" {
      assert left + s == s;
    } else {
      assert (left + s)[1..] == left[1..] + s;
      TrimLeftOf(left[1..], s, cut);
    }
  }

  lemma {:induction false} TrimRightOf(s: string, right: string, cut: set<char>)
    requires AllIn(right, cut) && (s != "" ==> s[|s| - 1] !in cut)
    ensures TrimRight(s + right, cut) == s
    decreases |right|
  {
    if right == "" {
      assert s + right == s;
    } else {
      var n := |right| - 1;
      assert (s + right)[..|s + right| - 1] == s + right[..n];
      TrimRightOf(s, right[..n], cut);
    }
  }

  /** What is cut off is what stands around a text that neither begins nor ends with such characters. */
  lemma TrimOf(left: string, s: string, right: string, cut: set<char>)
    requires AllIn(left, cut) && AllIn(right, cut) && Trimmed(s, cut)
    ensures Trim(left + s + right, cut) == s
  {
    if s == "" {
      assert left + s + right == (left + right) + "";
      TrimLeftOf(left + right, "", cut);
      TrimRightOf("", "", cut);
      assert (left + right) + "" == left + right;
    } else {
      assert left + s + right == left + (s + right);
      TrimLeftOf(left, s + right, cut);
      TrimRightOf(s, right, cut);
    }
  }
}
