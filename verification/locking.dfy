/** pkg/locking: lock identifiers, sessions and the in-memory locker. */
module Locking {
  import opened Wrappers
  import Strings

  /** ctrl.Request: the namespaced name of the object a reconciler is called for. */
  datatype Request = Request(namespace: string, name: string)

  const ERR_ALREADY_LOCKED := "Already locked"

  datatype LockSession = LockSession(id: string, err: Option<string>) {
    predicate AlreadyLocked() {
      err == Some(ERR_ALREADY_LOCKED)
    }

    predicate HasFailure() {
      err.Some? && err.value != ERR_ALREADY_LOCKED
    }
  }

  /** createLockingId: the printed form of the namespaced name. */
  function LockId(req: Request): string {
    req.namespace + "/" + req.name
  }

  /** A text containing `c` splits around its first occurrence. */
  lemma SplitAround(s: string, c: char) returns (left: string, right: string)
    requires c in s
    ensures s == left + [c] + right && c !in left
  {
    var i :| 0 <= i < |s| && s[i] == c;
    if c in s[..i] {
      left, right := SplitAround(s[..i], c);
      right := right + s[i..];
      assert s == s[..i] + s[i..];
    } else {
      left, right := s[..i], s[i + 1..];
    }
  }

  /** Namespaces without a separator keep requests apart, whatever their names. */
  lemma LockIdInjective(a: Request, b: Request)
    requires '/' !in a.namespace && '/' !in b.namespace
    requires LockId(a) == LockId(b)
    ensures a == b
  {
    Strings.CutAtFirst(a.namespace, a.name, b.namespace, b.name, '/');
  }

  /** A request without any separator shares its lock with no other one, of whatever shape. */
  lemma LockIdUnique(a: Request, b: Request)
    requires '/' !in a.namespace && '/' !in a.name
    requires LockId(a) == LockId(b)
    ensures a == b
  {
    if '/' in b.namespace {
      var left, right := SplitAround(b.namespace, '/');
      assert LockId(b) == left + "/" + (right + "/" + b.name);
      assert (right + "/" + b.name)[|right|] == '/';
      Strings.CutAtFirst(a.namespace, a.name, left, right + "/" + b.name, '/');
    } else {
      LockIdInjective(a, b);
    }
  }

  /** A request shares its lock with a different one exactly when one of its parts contains the separator. */
  lemma LockIdCollision(a: Request)
    ensures (exists b :: b != a && LockId(b) == LockId(a)) <==> ('/' in a.namespace || '/' in a.name)
  {
    if '/' in a.namespace {
      var left, right := SplitAround(a.namespace, '/');
      var b := Request(left, right + "/" + a.name);
      assert LockId(b) == LockId(a) && |b.namespace| < |a.namespace|;
    } else if '/' in a.name {
      var left, right := SplitAround(a.name, '/');
      var b := Request(a.namespace + "/" + left, right);
      assert LockId(b) == LockId(a) && |a.namespace| < |b.namespace|;
    } else {
      forall b | LockId(b) == LockId(a) ensures b == a {
        LockIdUnique(a, b);
      }
    }
  }

  /** The list without the first occurrence of `key`. */
  function Remove(s: seq<string>, key: string): seq<string> {
    if s == [] then []
    else if s[0] == key then s[1..]
    else [s[0]] + Remove(s[1..], key)
  }

  lemma {:induction false} RemoveAt(s: seq<string>, key: string, i: nat)
    requires i < |s| && s[i] == key && key !in s[..i]
    ensures Remove(s, key) == s[..i] + s[i + 1..]
  {
    if i > 0 {
      assert s[1..][..i - 1] == s[..i][1..];
      RemoveAt(s[1..], key, i - 1);
    }
  }

  lemma {:induction false} RemoveAbsent(s: seq<string>, key: string)
    requires key !in s
    ensures Remove(s, key) == s
  {
    if s != [] {
      RemoveAbsent(s[1..], key);
    }
  }

  /** On a duplicate-free list, removing by identifier removes that identifier and nothing else. */
  lemma {:induction false} RemoveExact(s: seq<string>, key: string)
    requires Distinct(s)
    ensures Distinct(Remove(s, key))
    ensures forall x :: x in Remove(s, key) <==> x in s && x != key
  {
    if s != [] {
      RemoveExact(s[1..], key);
      if s[0] != key {
        assert s[0] !in s[1..];
      }
    }
  }

  /** Releasing an identifier just added restores the list. */
  lemma {:induction false} RemoveAdded(s: seq<string>, key: string)
    requires key !in s
    ensures Remove(s + [key], key) == s
  {
    RemoveAt(s + [key], key, |s|);
  }

  /** append(s[:index], s[index+1:]...): everything behind `index` moves one place down in the shared array. */
  method ShiftDown(s: array<string>, index: nat, n: nat)
    requires index < n <= s.Length
    modifies s
    ensures forall j :: 0 <= j < index ==> s[j] == old(s[j])
    ensures forall j :: index <= j < n - 1 ==> s[j] == old(s[j + 1])
    ensures forall j :: n - 1 <= j < s.Length ==> s[j] == old(s[j])
  {
    var k := index;
    while k + 1 < n
      invariant index <= k < n
      invariant forall j :: 0 <= j < index ==> s[j] == old(s[j])
      invariant forall j :: index <= j < k ==> s[j] == old(s[j + 1])
      invariant forall j :: k <= j < s.Length ==> s[j] == old(s[j])
    {
      s[k] := s[k + 1];
      k := k + 1;
    }
  }

  /** removeFromList: a Go slice is a prefix of length `n` of its backing array, which is shifted in place. */
  method RemoveFromList(s: array<string>, n: nat, key: string) returns (m: nat)
    requires n <= s.Length
    modifies s
    ensures m <= n && s[..m] == Remove(old(s[..n]), key)
    ensures m == if key in old(s[..n]) then n - 1 else n
    ensures s[m..] == old(s[m..])
  {
    ghost var was := s[..n];
    var index := 0;
    while index < n && s[index] != key
      invariant index <= n && key !in s[..index]
    {
      index := index + 1;
    }
    if index == n {
      RemoveAbsent(was, key);
      return n;
    }
    RemoveAt(was, key, index);
    assert was[index] in was;
    ShiftDown(s, index, n);
    m := n - 1;
    assert s[..m] == was[..index] + was[index + 1..];
  }

  /** The process-local locker: a list of identifiers kept in a growing buffer. */
  class InMemoryLocker {
    var buffer: array<string>
    var count: nat

    ghost predicate Valid()
      reads this, buffer
    {
      count <= buffer.Length && Distinct(buffer[..count])
    }

    ghost function Locks(): seq<string>
      reads this, buffer
      requires Valid()
    {
      buffer[..count]
    }

    constructor ()
      ensures Valid() && fresh(buffer) && Locks() == []
    {
      buffer := new string[0];
      count := 0;
    }

    method IsLocked(ident: string) returns (locked: bool)
      requires Valid()
      ensures locked <==> ident in Locks()
    {
      for i := 0 to count
        invariant ident !in buffer[..i]
      {
        if buffer[i] == ident {
          return true;
        }
      }
      return false;
    }

    method Obtain(req: Request) returns (session: LockSession)
      requires Valid()
      modifies this, buffer
      ensures Valid() && (buffer == old(buffer) || fresh(buffer))
      ensures session.id == LockId(req) && !session.HasFailure()
      ensures session.AlreadyLocked() <==> LockId(req) in old(Locks())
      ensures Locks() == if session.AlreadyLocked() then old(Locks()) else old(Locks()) + [LockId(req)]
    {
      var ident := LockId(req);
      var locked := IsLocked(ident);
      if locked {
        return LockSession(ident, Some(ERR_ALREADY_LOCKED));
      }
      if count == buffer.Length {
        var grown := new string[2 * count + 1];
        forall i | 0 <= i < count {
          grown[i] := buffer[i];
        }
        buffer := grown;
        assert buffer[..count] == old(Locks());
      }
      buffer[count] := ident;
      count := count + 1;
      assert buffer[..count] == old(Locks()) + [ident];
      return LockSession(ident, None);
    }

    /** Removes by identifier alone, whoever asks: only a session that obtained the lock may call it. */
    method Done(session: LockSession)
      requires Valid()
      modifies this, buffer
      ensures Valid() && buffer == old(buffer)
      ensures Locks() == Remove(old(Locks()), session.id)
    {
      RemoveExact(buffer[..count], session.id);
      count := RemoveFromList(buffer, count, session.id);
    }
  }

  /** Obtain and Done bracket a critical section: a second request is refused in between and served after. */
  method LockCycle(locker: InMemoryLocker, req: Request)
    requires locker.Valid() && LockId(req) !in locker.Locks()
    modifies locker, locker.buffer
    ensures locker.Valid() && locker.Locks() == old(locker.Locks())
  {
    var first := locker.Obtain(req);
    var second := locker.Obtain(req);
    assert !first.AlreadyLocked() && second.AlreadyLocked();
    RemoveAdded(old(locker.Locks()), first.id);
    locker.Done(first);
  }
}
