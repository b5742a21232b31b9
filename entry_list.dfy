/**
 * The ordered, id-keyed lists the four collection editors manage. Every editor builds a new list from
 * the old one in one of three ways, which this module defines once for any entry type:
 *   - append: `[...data, entry]`;
 *   - update by id: `data.map(x => x.id === id ? edited(x) : x)`;
 *   - remove by id: `data.filter(x => x.id !== id)`.
 * `key` extracts an entry's id.
 */
module EntryList {
  import opened Common

  predicate HasId<T>(s: seq<T>, key: T -> Id, id: Id)
  {
    exists i :: 0 <= i < |s| && key(s[i]) == id
  }

  /** No two entries share an id. */
  predicate UniqueIds<T>(s: seq<T>, key: T -> Id)
  {
    forall i, j :: 0 <= i < j < |s| ==> key(s[i]) != key(s[j])
  }

  /** Appending an entry whose id is not yet used keeps the ids unique and makes the id present. */
  lemma AppendFreshKeepsUnique<T>(s: seq<T>, key: T -> Id, e: T)
    requires UniqueIds(s, key) && !HasId(s, key, key(e))
    ensures UniqueIds(s + [e], key) && HasId(s + [e], key, key(e))
  {
    var t := s + [e];
    assert t[|s|] == e;
    forall i, j | 0 <= i < j < |t| ensures key(t[i]) != key(t[j]) {
      if j == |s| {
        assert t[i] == s[i];
      } else {
        assert t[i] == s[i] && t[j] == s[j];
      }
    }
  }

  /** `s.filter(x => key(x) !== id)`: the entries with another id, and nothing else. */
  function Without<T>(s: seq<T>, key: T -> Id, id: Id): (r: seq<T>)
    ensures |r| <= |s|
    ensures !HasId(r, key, id)
  {
    if s == [] then []
    else (if key(s[0]) == id then [] else [s[0]]) + Without(s[1..], key, id)
  }

  /** The result of a removal holds exactly the entries of the list whose id differs. */
  lemma {:induction false} WithoutMembers<T>(s: seq<T>, key: T -> Id, id: Id, x: T)
    ensures x in Without(s, key, id) <==> x in s && key(x) != id
  {
    if s != [] {
      WithoutMembers(s[1..], key, id, x);
      assert s == [s[0]] + s[1..];
    }
  }

  /** Filtering distributes over concatenation: the kept entries stay in their original order. */
  lemma {:induction false} WithoutConcat<T>(a: seq<T>, b: seq<T>, key: T -> Id, id: Id)
    ensures Without(a + b, key, id) == Without(a, key, id) + Without(b, key, id)
  {
    if a == [] {
      assert a + b == b;
    } else {
      var c := a + b;
      var head := if key(a[0]) == id then [] else [a[0]];
      assert c[0] == a[0] && c[1..] == a[1..] + b;
      WithoutConcat(a[1..], b, key, id);
      calc {
        Without(c, key, id);
        head + Without(a[1..] + b, key, id);
        head + (Without(a[1..], key, id) + Without(b, key, id));
        (head + Without(a[1..], key, id)) + Without(b, key, id);
        Without(a, key, id) + Without(b, key, id);
      }
    }
  }

  /** Removing an id that is absent returns the list unchanged. */
  lemma {:induction false} WithoutAbsent<T>(s: seq<T>, key: T -> Id, id: Id)
    requires !HasId(s, key, id)
    ensures Without(s, key, id) == s
  {
    if s != [] {
      assert key(s[0]) != id;
      assert !HasId(s[1..], key, id) by {
        forall i | 0 <= i < |s[1..]| ensures key(s[1..][i]) != id {
          assert s[1..][i] == s[i + 1];
        }
      }
      WithoutAbsent(s[1..], key, id);
      assert [s[0]] + s[1..] == s;
    }
  }

  /** Removing twice is removing once. */
  lemma WithoutIdempotent<T>(s: seq<T>, key: T -> Id, id: Id)
    ensures Without(Without(s, key, id), key, id) == Without(s, key, id)
  {
    WithoutAbsent(Without(s, key, id), key, id);
  }

  lemma WithoutSplice<T>(a: seq<T>, x: T, b: seq<T>, key: T -> Id)
    requires !HasId(a, key, key(x)) && !HasId(b, key, key(x))
    ensures Without(a + [x] + b, key, key(x)) == a + b
  {
    var id := key(x);
    var ax := a + [x];
    WithoutConcat(ax, b, key, id);
    WithoutConcat(a, [x], key, id);
    assert Without([x], key, id) == [];
    WithoutAbsent(a, key, id);
    WithoutAbsent(b, key, id);
    assert Without(ax, key, id) == a;
  }

  /** With unique ids, no entry before position i has the id of entry i. */
  lemma UniqueNotBefore<T>(s: seq<T>, key: T -> Id, i: nat)
    requires UniqueIds(s, key) && i < |s|
    ensures !HasId(s[..i], key, key(s[i]))
  {
    var a := s[..i];
    forall j | 0 <= j < |a| ensures key(a[j]) != key(s[i]) {
      assert a[j] == s[j];
    }
  }

  /** With unique ids, no entry after position i has the id of entry i. */
  lemma UniqueNotAfter<T>(s: seq<T>, key: T -> Id, i: nat)
    requires UniqueIds(s, key) && i < |s|
    ensures !HasId(s[i + 1..], key, key(s[i]))
  {
    var b := s[i + 1..];
    forall j | 0 <= j < |b| ensures key(b[j]) != key(s[i]) {
      assert b[j] == s[i + 1 + j];
    }
  }

  /** When no other entry has the id of entry i, removing that id cuts out exactly entry i. */
  lemma WithoutOnly<T>(s: seq<T>, key: T -> Id, i: nat)
    requires i < |s| && !HasId(s[..i], key, key(s[i])) && !HasId(s[i + 1..], key, key(s[i]))
    ensures Without(s, key, key(s[i])) == s[..i] + s[i + 1..]
  {
    WithoutSplice(s[..i], s[i], s[i + 1..], key);
    assert s[..i] + [s[i]] + s[i + 1..] == s;
  }

  /** With unique ids, removing the id of entry i cuts out exactly that entry. */
  lemma WithoutAt<T>(s: seq<T>, key: T -> Id, i: nat)
    requires UniqueIds(s, key) && i < |s|
    ensures Without(s, key, key(s[i])) == s[..i] + s[i + 1..]
  {
    UniqueNotBefore(s, key, i);
    UniqueNotAfter(s, key, i);
    WithoutOnly(s, key, i);
  }

  /** Removing keeps the remaining ids unique. */
  lemma {:induction false} WithoutKeepsUnique<T>(s: seq<T>, key: T -> Id, id: Id)
    requires UniqueIds(s, key)
    ensures UniqueIds(Without(s, key, id), key)
  {
    if s != [] {
      var rest := s[1..];
      assert UniqueIds(rest, key) by {
        forall i, j | 0 <= i < j < |rest| ensures key(rest[i]) != key(rest[j]) {
          assert rest[i] == s[i + 1] && rest[j] == s[j + 1];
        }
      }
      WithoutKeepsUnique(rest, key, id);
      var w := Without(rest, key, id);
      if key(s[0]) != id {
        var r := [s[0]] + w;
        forall i, j | 0 <= i < j < |r| ensures key(r[i]) != key(r[j]) {
          if i == 0 {
            WithoutMembers(rest, key, id, w[j - 1]);
            assert r[j] == w[j - 1] && w[j - 1] in rest;
            var k :| 0 <= k < |rest| && rest[k] == w[j - 1];
            assert rest[k] == s[k + 1];
          } else {
            assert r[i] == w[i - 1] && r[j] == w[j - 1];
          }
        }
      }
    }
  }

  /** `s.map(x => key(x) === id ? f(x) : x)`: same length, `f` applied exactly at the matching positions. */
  function MapWhere<T>(s: seq<T>, key: T -> Id, id: Id, f: T -> T): (r: seq<T>)
    ensures |r| == |s|
    ensures forall i :: 0 <= i < |s| ==> r[i] == if key(s[i]) == id then f(s[i]) else s[i]
  {
    if s == [] then []
    else [if key(s[0]) == id then f(s[0]) else s[0]] + MapWhere(s[1..], key, id, f)
  }

  /** An update whose id matches no entry returns the list unchanged. */
  lemma MapWhereAbsent<T>(s: seq<T>, key: T -> Id, id: Id, f: T -> T)
    requires !HasId(s, key, id)
    ensures MapWhere(s, key, id, f) == s
  {
  }

  /** An update that does not touch ids keeps every id in place, hence keeps them unique. */
  lemma MapWhereKeepsIds<T>(s: seq<T>, key: T -> Id, id: Id, f: T -> T)
    requires forall x :: key(f(x)) == key(x)
    ensures forall i :: 0 <= i < |s| ==> key(MapWhere(s, key, id, f)[i]) == key(s[i])
    ensures UniqueIds(s, key) ==> UniqueIds(MapWhere(s, key, id, f), key)
  {
  }

  /** One editor operation on a collection, with the id it was given. */
  datatype Op<!T> = Append(entry: T) | Update(id: Id, f: T -> T) | Remove(id: Id)

  function ApplyOp<T>(s: seq<T>, key: T -> Id, op: Op<T>): seq<T>
  {
    match op
    case Append(e) => s + [e]
    case Update(id, f) => MapWhere(s, key, id, f)
    case Remove(id) => Without(s, key, id)
  }

  function Replay<T>(s: seq<T>, key: T -> Id, ops: seq<Op<T>>): seq<T>
    decreases |ops|
  {
    if ops == [] then s else Replay(ApplyOp(s, key, ops[0]), key, ops[1..])
  }

  /** An append uses an id not already present; an update leaves ids alone. */
  ghost predicate OpRespectsIds<T(!new)>(s: seq<T>, key: T -> Id, op: Op<T>)
  {
    match op
    case Append(e) => !HasId(s, key, key(e))
    case Update(_, f) => forall x :: key(f(x)) == key(x)
    case Remove(_) => true
  }

  ghost predicate OpsRespectIds<T(!new)>(s: seq<T>, key: T -> Id, ops: seq<Op<T>>)
    decreases |ops|
  {
    ops == [] || (OpRespectsIds(s, key, ops[0]) && OpsRespectIds(ApplyOp(s, key, ops[0]), key, ops[1..]))
  }

  /** Any session of appends with fresh ids, id-preserving updates and removals keeps ids unique. */
  lemma {:induction false} ReplayKeepsUnique<T(!new)>(s: seq<T>, key: T -> Id, ops: seq<Op<T>>)
    requires UniqueIds(s, key) && OpsRespectIds(s, key, ops)
    ensures UniqueIds(Replay(s, key, ops), key)
    decreases |ops|
  {
    if ops != [] {
      var t := ApplyOp(s, key, ops[0]);
      match ops[0] {
        case Append(e) => AppendFreshKeepsUnique(s, key, e);
        case Update(id, f) => MapWhereKeepsIds(s, key, id, f);
        case Remove(id) => WithoutKeepsUnique(s, key, id);
      }
      ReplayKeepsUnique(t, key, ops[1..]);
    }
  }
}
