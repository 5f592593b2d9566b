// The record-list operations every store of the back office is built from:
// `find` by id, `findIndex` + assignment at that index, `filter` out by id, and `push`.
// `key` extracts the `id` field of a record.

module Store {
  import opened Wrappers
  import Lists

  /** The callback `(r) => r.id === id`. */
  function HasKey<T>(key: T -> string, id: string): T -> bool {
    x => key(x) == id
  }

  /** The callback `(r) => r.id !== id`. */
  function LacksKey<T>(key: T -> string, id: string): T -> bool {
    x => key(x) != id
  }

  /** `list.findIndex((r) => r.id === id)` */
  function Position<T>(s: seq<T>, key: T -> string, id: string): (i: int)
    ensures -1 <= i < |s|
    ensures i >= 0 ==> key(s[i]) == id && forall j :: 0 <= j < i ==> key(s[j]) != id
    ensures i == -1 <==> forall j :: 0 <= j < |s| ==> key(s[j]) != id
  {
    Lists.FindIndex(s, HasKey(key, id))
  }

  /** `list.find((r) => r.id === id)`: the first record with that id, if any. */
  function Lookup<T>(s: seq<T>, key: T -> string, id: string): (r: Option<T>)
    ensures r.None? <==> Position(s, key, id) == -1
    ensures r.Some? ==> r.value == s[Position(s, key, id)] && key(r.value) == id
  {
    Lists.FindAtFindIndex(s, HasKey(key, id));
    Lists.Find(s, HasKey(key, id))
  }

  /**
   * `const i = list.findIndex(...); if (i !== -1) list[i] = f(list[i])`: the first record
   * with the id is replaced by its image under `f`, everything else stays.
   */
  function Replace<T>(s: seq<T>, key: T -> string, id: string, f: T -> T): (r: seq<T>)
    ensures |r| == |s|
    ensures forall j :: 0 <= j < |s| && j != Position(s, key, id) ==> r[j] == s[j]
    ensures Position(s, key, id) >= 0 ==> r[Position(s, key, id)] == f(s[Position(s, key, id)])
    ensures Position(s, key, id) == -1 ==> r == s
  {
    Lists.UpdateFirstFrame(s, HasKey(key, id), f);
    Lists.UpdateFirst(s, HasKey(key, id), f)
  }

  /** `list.filter((r) => r.id !== id)` */
  function Remove<T>(s: seq<T>, key: T -> string, id: string): (r: seq<T>)
    ensures |r| <= |s|
    ensures forall j :: 0 <= j < |r| ==> key(r[j]) != id
  {
    Lists.Filter(s, LacksKey(key, id))
  }

  // ---------------------------------------------------------------- properties

  /** Removing keeps every record with another id, and nothing but records of the list. */
  lemma RemoveKeepsOthers<T>(s: seq<T>, key: T -> string, id: string)
    ensures forall x :: x in Remove(s, key, id) ==> x in s
    ensures forall j :: 0 <= j < |s| && key(s[j]) != id ==> s[j] in Remove(s, key, id)
    ensures Lookup(Remove(s, key, id), key, id).None?
  {
    Lists.FilterMembership(s, LacksKey(key, id));
  }

  /** Removing keeps the order of the survivors: removing from a concatenation removes from each part. */
  lemma RemoveConcat<T>(a: seq<T>, b: seq<T>, key: T -> string, id: string)
    ensures Remove(a + b, key, id) == Remove(a, key, id) + Remove(b, key, id)
  {
    Lists.FilterConcat(a, b, LacksKey(key, id));
  }

  /** Deleting keeps the survivors in order: the one at index `i` moves to index `|Remove(s[..i])|`, ahead of every later one. */
  lemma RemoveOrder<T>(s: seq<T>, key: T -> string, id: string, i: int, j: int)
    requires 0 <= i < j <= |s| && key(s[i]) != id
    ensures |Remove(s[..i], key, id)| < |Remove(s[..j], key, id)| <= |Remove(s, key, id)|
    ensures Remove(s, key, id)[|Remove(s[..i], key, id)|] == s[i]
  {
    Lists.FilterOrder(s, LacksKey(key, id), i, j);
  }

  /** Removing a second time changes nothing. */
  lemma RemoveIdempotent<T>(s: seq<T>, key: T -> string, id: string)
    ensures Remove(Remove(s, key, id), key, id) == Remove(s, key, id)
  {
    Lists.FilterIdempotent(s, LacksKey(key, id));
  }

  /** Looking up in a list with a first record: that record if it has the id, a lookup in the rest otherwise. */
  lemma LookupCons<T>(x: T, rest: seq<T>, key: T -> string, id: string)
    ensures Lookup([x] + rest, key, id) == if key(x) == id then Some(x) else Lookup(rest, key, id)
  {
    var s := [x] + rest;
    assert s[0] == x && s[1..] == rest;
    if key(x) != id {
      var k := Position(rest, key, id);
      if k >= 0 {
        assert s[k + 1] == rest[k];
        assert Position(s, key, id) == k + 1;
      } else {
        assert forall j :: 1 <= j < |s| ==> s[j] == rest[j - 1];
      }
    }
  }

  /** The other ids are found exactly as before a removal. */
  lemma {:induction false} LookupAfterRemove<T>(s: seq<T>, key: T -> string, id: string, other: string)
    requires other != id
    ensures Lookup(Remove(s, key, id), key, other) == Lookup(s, key, other)
  {
    if s != [] {
      var t := Remove(s[1..], key, id);
      LookupAfterRemove(s[1..], key, id, other);
      assert s == [s[0]] + s[1..];
      LookupCons(s[0], s[1..], key, other);
      if key(s[0]) == id {
        assert Remove(s, key, id) == t;
      } else {
        assert Remove(s, key, id) == [s[0]] + t;
        LookupCons(s[0], t, key, other);
      }
    }
  }

  /**
   * After a `push`, an id is found in the old records if it was there; the new record is
   * found only when no earlier record carries its id.
   */
  lemma LookupAfterAppend<T>(s: seq<T>, x: T, key: T -> string, id: string)
    ensures Lookup(s + [x], key, id) ==
      if Lookup(s, key, id).Some? then Lookup(s, key, id)
      else if key(x) == id then Some(x)
      else None
  {
    var i := Position(s + [x], key, id);
    if Lookup(s, key, id).Some? {
      var k := Position(s, key, id);
      assert (s + [x])[k] == s[k];
      assert i == k;
    } else if key(x) == id {
      assert (s + [x])[|s|] == x;
      assert i == |s|;
    }
  }

  /** A replacement that keeps the id leaves the record found under that id as `f` of the old one. */
  lemma LookupAfterReplace<T>(s: seq<T>, key: T -> string, id: string, f: T -> T)
    requires forall x :: key(f(x)) == key(x)
    ensures Lookup(Replace(s, key, id, f), key, id) ==
      if Lookup(s, key, id).Some? then Some(f(Lookup(s, key, id).value)) else None
  {
    var i := Position(s, key, id);
    var r := Replace(s, key, id, f);
    if i >= 0 {
      assert key(r[i]) == id;
      assert Position(r, key, id) == i;
    }
  }

  /** A replacement that keeps ids leaves the records found under the other ids as they were. */
  lemma LookupOtherAfterReplace<T>(s: seq<T>, key: T -> string, id: string, f: T -> T, other: string)
    requires forall x :: key(f(x)) == key(x)
    requires other != id
    ensures Lookup(Replace(s, key, id, f), key, other) == Lookup(s, key, other)
  {
    var r := Replace(s, key, id, f);
    assert forall j :: 0 <= j < |s| ==> key(r[j]) == key(s[j]);
    var k := Position(s, key, other);
    if k >= 0 {
      assert Position(r, key, other) == k;
    } else {
      assert Position(r, key, other) == -1;
    }
  }

  /** Replacing twice with an idempotent `f` that keeps ids is replacing once. */
  lemma ReplaceIdempotent<T>(s: seq<T>, key: T -> string, id: string, f: T -> T)
    requires forall x :: key(f(x)) == key(x)
    requires forall x :: f(f(x)) == f(x)
    ensures Replace(Replace(s, key, id, f), key, id, f) == Replace(s, key, id, f)
  {
    var r := Replace(s, key, id, f);
    assert forall j :: 0 <= j < |s| ==> key(r[j]) == key(s[j]);
    assert Position(r, key, id) == Position(s, key, id);
  }
}
