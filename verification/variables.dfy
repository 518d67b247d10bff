/** writeDefinition of pkg/bmg/templating.go: merging dotted variables into the vars tree. A Go map is iterated in
    an arbitrary order, so the merge is a relation over every order of the keys. */
module Variables {
  import opened Wrappers
  import Strings

  datatype Tree = Leaf(text: string) | Node(children: map<string, Tree>)

  type Path = seq<string>

  /** A dotted name is a path of map keys. */
  function PathOf(key: string): Path {
    Strings.Split(key, ".")
  }

  /** A name without a dot is one key; a dot separates the first key from the path below it. */
  lemma PathOfDotted(a: string, b: string)
    requires '.' !in a
    ensures PathOf(a) == [a]
    ensures PathOf(a + "." + b) == [a] + PathOf(b)
  {
    Strings.NoCharNoOccurrence(a, '.');
    assert !Strings.Occurs(a, ".");
    Strings.FirstAt(a, b, '.');
    var s := a + "." + b;
    assert s[..|a|] == a && s[|a| + 1..] == b;
  }

  /** A name with one dot, at place `i`. */
  lemma PathOfTwo(s: string, i: nat, a: string, b: string)
    requires i < |s| && s[i] == '.' && s[..i] == a && s[i + 1..] == b && '.' !in a && '.' !in b
    ensures PathOf(s) == [a, b]
  {
    PathOfDotted(a, b);
    PathOfDotted(b, "");
    assert s == a + "." + b;
  }

  /** JSONPath Set: missing intermediate maps are created, a scalar on the way is an error (None). */
  function SetAt(t: Tree, path: Path, v: string): Option<Tree>
    decreases path
  {
    if path == [] then Some(Leaf(v))
    else if t.Leaf? then None
    else
      var child := if path[0] in t.children then t.children[path[0]] else Node(map[]);
      var set_ := SetAt(child, path[1..], v);
      if set_.Some? then Some(Node(t.children[path[0] := set_.value])) else None
  }

  function Get(t: Tree, path: Path): Option<Tree>
    decreases path
  {
    if path == [] then Some(t)
    else if t.Leaf? || path[0] !in t.children then None
    else Get(t.children[path[0]], path[1..])
  }

  /** Every proper prefix of the path is a map or absent. */
  predicate Settable(t: Tree, path: Path)
    decreases path
  {
    path == [] || (t.Node? && (path[0] in t.children ==> Settable(t.children[path[0]], path[1..])))
  }

  predicate Incomparable(p: Path, q: Path) {
    !(p <= q) && !(q <= p)
  }

  lemma TailsIncomparable(p: Path, q: Path)
    requires Incomparable(p, q) && p[0] == q[0]
    ensures Incomparable(p[1..], q[1..])
  {
    assert p == [p[0]] + p[1..] && q == [q[0]] + q[1..];
  }

  lemma {:induction false} SetSucceeds(t: Tree, path: Path, v: string)
    ensures SetAt(t, path, v).Some? <==> Settable(t, path)
    decreases path
  {
    if path != [] && t.Node? {
      if path[0] in t.children {
        SetSucceeds(t.children[path[0]], path[1..], v);
      } else {
        SetSucceeds(Node(map[]), path[1..], v);
      }
    }
  }

  /** Setting a path stores the value there and leaves every incomparable path as it was. */
  lemma {:induction false} GetAfterSet(t: Tree, path: Path, v: string, other: Path)
    requires SetAt(t, path, v).Some?
    ensures Get(SetAt(t, path, v).value, path) == Some(Leaf(v))
    ensures Incomparable(path, other) ==> Get(SetAt(t, path, v).value, other) == Get(t, other)
    decreases path
  {
    if path != [] {
      var child := if path[0] in t.children then t.children[path[0]] else Node(map[]);
      if Incomparable(path, other) && path[0] == other[0] {
        TailsIncomparable(path, other);
        GetAfterSet(child, path[1..], v, other[1..]);
      } else {
        GetAfterSet(child, path[1..], v, path[1..]);
      }
    }
  }

  /** Setting one path neither opens nor blocks an equal or incomparable one. */
  lemma {:induction false} SettableAfterSet(t: Tree, path: Path, v: string, other: Path)
    requires SetAt(t, path, v).Some?
    requires path == other || Incomparable(path, other)
    ensures Settable(SetAt(t, path, v).value, other) <==> Settable(t, other)
    decreases path
  {
    if path != [] && path[0] == other[0] {
      var child := if path[0] in t.children then t.children[path[0]] else Node(map[]);
      if path != other {
        TailsIncomparable(path, other);
      }
      SettableAfterSet(child, path[1..], v, other[1..]);
    }
  }

  /** A scalar in the way stays in the way: no later assignment can make a blocked path settable. */
  lemma {:induction false} BlockedAfterSet(t: Tree, path: Path, v: string, other: Path)
    requires SetAt(t, path, v).Some? && !Settable(t, other)
    ensures !Settable(SetAt(t, path, v).value, other)
    decreases path
  {
    if path != [] && path[0] == other[0] {
      BlockedAfterSet(t.children[path[0]], path[1..], v, other[1..]);
    }
  }

  /** Assigning a path blocks every longer path below it. */
  lemma {:induction false} SetBlocksBelow(t: Tree, path: Path, v: string, below: Path)
    requires SetAt(t, path, v).Some? && path < below
    ensures !Settable(SetAt(t, path, v).value, below)
    decreases path
  {
    if path != [] {
      var child := if path[0] in t.children then t.children[path[0]] else Node(map[]);
      assert path[1..] < below[1..];
      SetBlocksBelow(child, path[1..], v, below[1..]);
    }
  }

  function Then(t: Option<Tree>, path: Path, v: string): Option<Tree> {
    if t.Some? then SetAt(t.value, path, v) else None
  }

  lemma {:induction false} SetsCommute(t: Tree, p: Path, v: string, q: Path, w: string)
    requires Incomparable(p, q)
    ensures Then(SetAt(t, p, v), q, w) == Then(SetAt(t, q, w), p, v)
    decreases p
  {
    if t.Node? {
      var cp := if p[0] in t.children then t.children[p[0]] else Node(map[]);
      var cq := if q[0] in t.children then t.children[q[0]] else Node(map[]);
      var sp, sq := SetAt(cp, p[1..], v), SetAt(cq, q[1..], w);
      if p[0] == q[0] {
        TailsIncomparable(p, q);
        SetsCommute(cp, p[1..], v, q[1..], w);
        if sp.Some? && sq.Some? {
          var both := Then(sp, q[1..], w);
          if both.Some? {
            assert t.children[p[0] := sp.value][q[0] := both.value] == t.children[q[0] := both.value];
            assert t.children[q[0] := sq.value][p[0] := both.value] == t.children[p[0] := both.value];
          }
        }
      } else if sp.Some? && sq.Some? {
        assert t.children[p[0] := sp.value][q[0] := sq.value] == t.children[q[0] := sq.value][p[0] := sp.value];
      }
    }
  }

  /** One pass over `data` visiting the keys in the given order. */
  function Merge(t: Option<Tree>, order: seq<string>, data: map<string, string>): Option<Tree>
    requires forall k :: k in order ==> k in data
    decreases |order|
  {
    if order == [] then t
    else Merge(Then(t, PathOf(order[0]), data[order[0]]), order[1..], data)
  }

  lemma {:induction false} MergeAppend(t: Option<Tree>, a: seq<string>, b: seq<string>, data: map<string, string>)
    requires forall k :: k in a + b ==> k in data
    ensures (forall k :: k in a ==> k in data) && (forall k :: k in b ==> k in data)
    ensures Merge(t, a + b, data) == Merge(Merge(t, a, data), b, data)
    decreases |a|
  {
    assert forall k :: k in a ==> k in a + b;
    assert forall k :: k in b ==> k in a + b;
    if a == [] {
      assert a + b == b;
    } else {
      assert (a + b)[1..] == a[1..] + b && (a + b)[0] == a[0];
      MergeAppend(Then(t, PathOf(a[0]), data[a[0]]), a[1..], b, data);
    }
  }

  /** `order` visits each of `keys` once. */
  ghost predicate Visits(order: seq<string>, keys: set<string>) {
    Distinct(order) && forall k :: k in order <==> k in keys
  }

  /** No key's path is a prefix of another's. */
  ghost predicate PrefixFree(keys: set<string>) {
    forall k, l :: k in keys && l in keys && k != l ==> Incomparable(PathOf(k), PathOf(l))
  }

  lemma PathInjective(k: string, l: string)
    requires PathOf(k) == PathOf(l)
    ensures k == l
  {
    Strings.JoinOfSplit(k, ".");
    Strings.JoinOfSplit(l, ".");
  }

  lemma {:induction false} AnOrder(keys: set<string>) returns (order: seq<string>)
    ensures Visits(order, keys)
    decreases |keys|
  {
    if keys == {} {
      order := [];
    } else {
      var k :| k in keys;
      var rest := AnOrder(keys - {k});
      VisitsBoth([k], rest, {k}, keys - {k});
      assert {k} + (keys - {k}) == keys;
      order := [k] + rest;
    }
  }

  lemma {:induction false} MoveToFront(t: Option<Tree>, left: seq<string>, key: string, right: seq<string>,
                                       data: map<string, string>)
    requires forall k :: k in left || k == key || k in right ==> k in data
    requires forall k :: k in left ==> Incomparable(PathOf(k), PathOf(key))
    ensures Merge(t, left + [key] + right, data) == Merge(t, [key] + left + right, data)
    decreases |left|
  {
    if left == [] {
      assert left + [key] + right == [key] + left + right;
    } else {
      var k, rest := left[0], left[1..];
      var path, v := PathOf(k), data[k];
      assert left + [key] + right == [k] + (rest + [key] + right);
      MergeFirst(t, k, rest + [key] + right, data);
      MoveToFront(Then(t, path, v), rest, key, right, data);
      assert [key] + rest + right == [key] + (rest + right);
      MergeFirst(Then(t, path, v), key, rest + right, data);
      assert [key] + left + right == [key] + ([k] + (rest + right));
      MergeFirst(t, key, [k] + (rest + right), data);
      MergeFirst(Then(t, PathOf(key), data[key]), k, rest + right, data);
      if t.Some? {
        SetsCommute(t.value, path, v, PathOf(key), data[key]);
      }
    }
  }

  lemma MergeFirst(t: Option<Tree>, k: string, rest: seq<string>, data: map<string, string>)
    requires k in data && forall x :: x in rest ==> x in data
    ensures Merge(t, [k] + rest, data) == Merge(Then(t, PathOf(k), data[k]), rest, data)
  {
    assert ([k] + rest)[1..] == rest;
  }

  lemma VisitsRest(a: seq<string>, keys: set<string>)
    requires a != [] && Visits(a, keys)
    ensures a[0] in keys && Visits(a[1..], keys - {a[0]})
  {
    assert a[0] in a;
    forall x ensures x in a[1..] <==> x in keys - {a[0]} {
      assert a == [a[0]] + a[1..];
      assert x in a <==> x == a[0] || x in a[1..];
    }
  }

  lemma VisitsBoth(a: seq<string>, b: seq<string>, keys: set<string>, more: set<string>)
    requires Visits(a, keys) && Visits(b, more) && keys !! more
    ensures Visits(a + b, keys + more)
  {
    forall i, j | 0 <= i < j < |a + b| ensures (a + b)[i] != (a + b)[j] {
      assert i < |a| <= j ==> a[i] in a && b[j - |a|] in b;
    }
  }

  lemma Extract(b: seq<string>, keys: set<string>, k: string) returns (left: seq<string>, right: seq<string>)
    requires Visits(b, keys) && k in keys
    ensures b == left + [k] + right && Visits(left + right, keys - {k})
    ensures forall x :: x in left || x in right ==> x in keys && x != k
  {
    assert k in b;
    var i :| 0 <= i < |b| && b[i] == k;
    left, right := b[..i], b[i + 1..];
    var rest := left + right;
    forall x ensures x in rest <==> x in keys - {k} {
      assert b == left + [k] + right;
      assert x in b <==> x in left || x == k || x in right;
    }
    forall m, n | 0 <= m < n < |rest| ensures rest[m] != rest[n] {
      var m' := if m < i then m else m + 1;
      var n' := if n < i then n else n + 1;
      assert b[m'] == rest[m] && b[n'] == rest[n];
    }
  }

  /** The merge of prefix-free keys is the same for every iteration order. */
  lemma {:induction false} OrderIndependent(t: Option<Tree>, a: seq<string>, b: seq<string>, keys: set<string>,
                                            data: map<string, string>)
    requires Visits(a, keys) && Visits(b, keys) && keys <= data.Keys && PrefixFree(keys)
    ensures Merge(t, a, data) == Merge(t, b, data)
    decreases |a|
  {
    assert b != [] ==> b[0] in b;
    if a != [] {
      VisitsRest(a, keys);
      var k := a[0];
      var left, right := Extract(b, keys, k);
      MoveToFront(t, left, k, right, data);
      assert ([k] + left + right)[1..] == left + right;
      OrderIndependent(Then(t, PathOf(k), data[k]), a[1..], left + right, keys - {k}, data);
    }
  }

  lemma {:induction false} ErrorStays(order: seq<string>, data: map<string, string>)
    requires forall k :: k in order ==> k in data
    ensures Merge(None, order, data) == None
    decreases |order|
  {
    if order != [] {
      ErrorStays(order[1..], data);
    }
  }

  lemma {:induction false} BlockedMergeFails(t: Tree, order: seq<string>, key: string, data: map<string, string>)
    requires (forall k :: k in order ==> k in data) && key in order && !Settable(t, PathOf(key))
    ensures Merge(Some(t), order, data) == None
    decreases |order|
  {
    var first := PathOf(order[0]);
    SetSucceeds(t, first, data[order[0]]);
    var next := SetAt(t, first, data[order[0]]);
    if next.None? {
      ErrorStays(order[1..], data);
    } else {
      BlockedAfterSet(t, first, data[order[0]], PathOf(key));
      BlockedMergeFails(next.value, order[1..], key, data);
    }
  }

  /** Keys that are not prefix-free have an order that fails: the shorter path first. */
  lemma ClashingOrder(t: Tree, keys: set<string>, data: map<string, string>) returns (order: seq<string>)
    requires keys <= data.Keys && !PrefixFree(keys)
    ensures Visits(order, keys) && Merge(Some(t), order, data) == None
  {
    var k, l :| k in keys && l in keys && k != l && PathOf(k) <= PathOf(l);
    if PathOf(k) == PathOf(l) {
      PathInjective(k, l);
    }
    var rest := AnOrder(keys - {k});
    assert l in rest;
    VisitsBoth([k], rest, {k}, keys - {k});
    order := [k] + rest;
    assert {k} + (keys - {k}) == keys && order[1..] == rest;
    var next := SetAt(t, PathOf(k), data[k]);
    if next.Some? {
      SetBlocksBelow(t, PathOf(k), data[k], PathOf(l));
      BlockedMergeFails(next.value, rest, l, data);
    } else {
      ErrorStays(rest, data);
    }
  }

  /** Every iteration order of `keys` ends in the same result. */
  ghost predicate OrdersAgree(t: Tree, keys: set<string>, data: map<string, string>)
    requires keys <= data.Keys
  {
    forall a, b :: Visits(a, keys) && Visits(b, keys) ==> Merge(Some(t), a, data) == Merge(Some(t), b, data)
  }

  /** Exactly when the iteration order is irrelevant: the keys are prefix-free, or no order succeeds anyway. */
  lemma OrderIndependentExactly(t: Tree, keys: set<string>, data: map<string, string>)
    requires keys <= data.Keys
    ensures OrdersAgree(t, keys, data) <==>
            PrefixFree(keys) || (forall a :: Visits(a, keys) ==> Merge(Some(t), a, data) == None)
  {
    if PrefixFree(keys) {
      forall a, b | Visits(a, keys) && Visits(b, keys) ensures Merge(Some(t), a, data) == Merge(Some(t), b, data) {
        OrderIndependent(Some(t), a, b, keys, data);
      }
    } else {
      var failing := ClashingOrder(t, keys, data);
    }
  }

  /** What one pass leaves behind, for prefix-free keys. */
  lemma {:induction false} MergeResult(t: Tree, order: seq<string>, keys: set<string>, data: map<string, string>)
    requires Visits(order, keys) && keys <= data.Keys && PrefixFree(keys)
    ensures var r := Merge(Some(t), order, data);
            && (r.Some? <==> forall k :: k in keys ==> Settable(t, PathOf(k)))
            && (r.Some? ==> forall k :: k in keys ==> Get(r.value, PathOf(k)) == Some(Leaf(data[k])))
            && (r.Some? ==> forall p: Path ::
                  (forall k :: k in keys ==> Incomparable(PathOf(k), p)) ==> Get(r.value, p) == Get(t, p))
            && (r.Some? ==> forall p: Path ::
                  (forall k :: k in keys ==> PathOf(k) == p || Incomparable(PathOf(k), p)) ==>
                    (Settable(r.value, p) <==> Settable(t, p)))
    decreases |order|
  {
    if order != [] {
      var k := order[0];
      var path, v := PathOf(k), data[k];
      SetSucceeds(t, path, v);
      VisitsRest(order, keys);
      var next := SetAt(t, path, v);
      if next.None? {
        ErrorStays(order[1..], data);
      } else {
        var u := next.value;
        MergeResult(u, order[1..], keys - {k}, data);
        GetAfterSet(t, path, v, path);
        forall p: Path | path == p || Incomparable(path, p) ensures Settable(u, p) <==> Settable(t, p) {
          SettableAfterSet(t, path, v, p);
        }
        forall p: Path | Incomparable(path, p) ensures Get(u, p) == Get(t, p) {
          GetAfterSet(t, path, v, p);
        }
      }
    }
  }

  /** This entry of the vars Secret is merged: all are, or those named by importOnlyKeys when it is not empty. */
  predicate Wanted(secret: map<string, string>, importOnlyKeys: seq<string>, k: string) {
    k in secret && (importOnlyKeys == [] || k in importOnlyKeys)
  }

  /** The Secret keys the merge reads. */
  function Imported(secret: map<string, string>, importOnlyKeys: seq<string>): (keys: set<string>)
    ensures forall k :: k in keys <==> Wanted(secret, importOnlyKeys, k)
  {
    if importOnlyKeys == [] then secret.Keys else set k | k in secret.Keys && k in importOnlyKeys
  }

  /** The inner loop over one source. Which order Go picked is returned as a ghost witness. */
  method MergeSource(vars: Tree, data: map<string, string>, keys: set<string>)
    returns (result: Option<Tree>, ghost order: seq<string>)
    requires keys <= data.Keys
    ensures Visits(order, keys) && result == Merge(Some(vars), order, data)
  {
    var pending := keys;
    var tree := vars;
    order := [];
    while pending != {}
      invariant pending <= keys && Visits(order, keys - pending)
      invariant Merge(Some(vars), order, data) == Some(tree)
    {
      var path :| path in pending;
      var next := SetAt(tree, PathOf(path), data[path]);
      ghost var before := order;
      MergeAppend(Some(vars), before, [path], data);
      assert [path][1..] == [];
      assert Merge(Some(tree), [path], data) == Merge(next, [], data);
      VisitsBoth(before, [path], keys - pending, {path});
      order := before + [path];
      pending := pending - {path};
      assert Visits(order, keys - pending);
      if next.None? {
        ghost var rest := AnOrder(pending);
        VisitsBoth(order, rest, keys - pending, pending);
        assert (keys - pending) + pending == keys;
        MergeAppend(Some(vars), order, rest, data);
        ErrorStays(rest, data);
        order := order + rest;
        return None, order;
      }
      tree := next.value;
    }
    return Some(tree), order;
  }

  /** writeDefinition: additional variables first, then the imported entries of the vars Secret. */
  method WriteDefinition(vars: Tree, additional: map<string, string>, secret: Option<map<string, string>>,
                         importOnlyKeys: seq<string>)
    returns (result: Option<Tree>)
    ensures var data := if secret.Some? then secret.value else map[];
            var imported := set k | k in data && Wanted(data, importOnlyKeys, k);
            PrefixFree(additional.Keys + imported) ==> Definition(vars, additional, data, imported, result)
  {
    var data := if secret.Some? then secret.value else map[];
    var imported := Imported(data, importOnlyKeys);
    assert imported == set k | k in data && Wanted(data, importOnlyKeys, k);
    ghost var first, second;
    result, first := MergeSource(vars, additional, additional.Keys);
    if result.Some? {
      var tree := result.value;
      result, second := MergeSource(tree, data, imported);
      if PrefixFree(additional.Keys + imported) {
        TwoSources(vars, additional, data, imported, first, second);
      }
    } else if PrefixFree(additional.Keys + imported) {
      MergeResult(vars, first, additional.Keys, additional);
    }
  }

  /** What the merged tree must be: defined exactly when every key can be set; an imported Secret entry wins over an
      additional variable, which wins over the original; everything incomparable with the keys is untouched. */
  ghost predicate Definition(vars: Tree, additional: map<string, string>, secret: map<string, string>,
                             imported: set<string>, result: Option<Tree>)
    requires imported <= secret.Keys
  {
    && (result.Some? <==> forall k :: k in additional.Keys + imported ==> Settable(vars, PathOf(k)))
    && (result.Some? ==> forall k :: k in imported ==> Get(result.value, PathOf(k)) == Some(Leaf(secret[k])))
    && (result.Some? ==> forall k :: k in additional.Keys - imported ==>
          Get(result.value, PathOf(k)) == Some(Leaf(additional[k])))
    && (result.Some? ==> forall p: Path ::
          (forall k :: k in additional.Keys + imported ==> Incomparable(PathOf(k), p)) ==>
            Get(result.value, p) == Get(vars, p))
  }

  /** Of two sources with prefix-free names, each is prefix-free, and a name of one is a name of the other or unrelated
      to all of them. */
  lemma PartsPrefixFree(a: set<string>, b: set<string>)
    requires PrefixFree(a + b)
    ensures PrefixFree(a) && PrefixFree(b)
    ensures forall k, l :: k in a && l in b ==> PathOf(k) == PathOf(l) || Incomparable(PathOf(k), PathOf(l))
    ensures forall k, l :: k in a - b && l in b ==> Incomparable(PathOf(l), PathOf(k))
  {
  }

  lemma TwoSources(vars: Tree, additional: map<string, string>, secret: map<string, string>, imported: set<string>,
                   first: seq<string>, second: seq<string>)
    requires Visits(first, additional.Keys) && Visits(second, imported) && imported <= secret.Keys
    requires PrefixFree(additional.Keys + imported)
    requires Merge(Some(vars), first, additional).Some?
    ensures Definition(vars, additional, secret, imported,
                       Merge(Merge(Some(vars), first, additional), second, secret))
  {
    PartsPrefixFree(additional.Keys, imported);
    MergeResult(vars, first, additional.Keys, additional);
    var middle := Merge(Some(vars), first, additional).value;
    MergeResult(middle, second, imported, secret);
    var result := Merge(Some(middle), second, secret);
    forall k | k in imported ensures Settable(middle, PathOf(k)) <==> Settable(vars, PathOf(k)) {
      assert forall l :: l in additional.Keys ==> PathOf(l) == PathOf(k) || Incomparable(PathOf(l), PathOf(k));
    }
    if result.Some? {
      forall k | k in additional.Keys - imported ensures Get(result.value, PathOf(k)) == Some(Leaf(additional[k])) {
        assert forall l :: l in imported ==> Incomparable(PathOf(l), PathOf(k));
      }
      forall p: Path | forall k :: k in additional.Keys + imported ==> Incomparable(PathOf(k), p)
        ensures Get(result.value, p) == Get(vars, p)
      {
        assert forall k :: k in imported ==> Incomparable(PathOf(k), p);
        assert forall k :: k in additional.Keys ==> Incomparable(PathOf(k), p);
      }
    }
  }
}
