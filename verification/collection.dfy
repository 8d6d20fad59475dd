/** The keyed-collection operations that the admin dashboard repeats for all four entity kinds.
    Generic in the record type `T`; `key` extracts the record's string `id`. */
module Collection {
  import opened Seqs

  /** `collection.find(x => x.id === id)` succeeds. */
  predicate HasId<T>(s: seq<T>, key: T -> string, id: string) {
    exists i :: 0 <= i < |s| && key(s[i]) == id
  }

  function KeyIs<T>(key: T -> string, id: string): T -> bool {
    x => key(x) == id
  }

  function KeyIsNot<T>(key: T -> string, id: string): T -> bool {
    x => key(x) != id
  }

  /** No two records share an id. */
  ghost predicate UniqueIds<T>(s: seq<T>, key: T -> string) {
    forall i, j :: 0 <= i < j < |s| ==> key(s[i]) != key(s[j])
  }

  /** `prev.map(x => x.id === d.id ? d : x)`. */
  function ReplaceById<T>(s: seq<T>, key: T -> string, d: T): (r: seq<T>)
    ensures |r| == |s|
    ensures forall i :: 0 <= i < |s| && key(s[i]) == key(d) ==> r[i] == d
    ensures forall i :: 0 <= i < |s| && key(s[i]) != key(d) ==> r[i] == s[i]
  {
    if s == [] then [] else [if key(s[0]) == key(d) then d else s[0]] + ReplaceById(s[1..], key, d)
  }

  /** The save handlers: a draft whose id is already in the collection replaces every record with
      that id in place; any other draft is appended. */
  function Save<T>(s: seq<T>, key: T -> string, d: T): (r: seq<T>)
    ensures HasId(s, key, key(d)) ==> |r| == |s|
    ensures HasId(s, key, key(d)) ==>
      forall i :: 0 <= i < |s| ==> r[i] == if key(s[i]) == key(d) then d else s[i]
    ensures !HasId(s, key, key(d)) ==> r == s + [d]
    ensures forall i :: 0 <= i < |r| && key(r[i]) == key(d) ==> r[i] == d
    ensures HasId(r, key, key(d))
  {
    if HasId(s, key, key(d)) then ReplaceById(s, key, d)
    else
      assert (s + [d])[|s|] == d;
      s + [d]
  }

  /** The delete handlers: when the confirmation is accepted, keep exactly the records whose id differs. */
  function Delete<T>(s: seq<T>, key: T -> string, id: string, confirmed: bool): (r: seq<T>)
    ensures !confirmed ==> r == s
    ensures !HasId(s, key, id) ==> r == s
    ensures confirmed ==> !HasId(r, key, id)
    ensures confirmed ==> forall i :: 0 <= i < |s| && key(s[i]) != id ==> s[i] in r
    ensures confirmed ==> IsSubsequence(r, s)
    ensures multiset(r) <= multiset(s)
    ensures confirmed ==> |r| == |s| - CountWhere(s, KeyIs(key, id))
  {
    if !confirmed then s
    else
      FilterAll(s, KeyIsNot(key, id));
      FilterLength(s, KeyIsNot(key, id));
      CountComplement(s, key, id);
      FilterKeeps(s, KeyIsNot(key, id));
      FilterIsSubsequence(s, KeyIsNot(key, id));
      Filter(s, KeyIsNot(key, id))
  }

  /** Every record either has the id or does not. */
  lemma {:induction false} CountComplement<T>(s: seq<T>, key: T -> string, id: string)
    ensures CountWhere(s, KeyIs(key, id)) + CountWhere(s, KeyIsNot(key, id)) == |s|
    decreases |s|
  {
    if s != [] {
      CountComplement(s[1..], key, id);
    }
  }

  /** With unique ids, a present id is carried by exactly one record. */
  lemma {:induction false} CountUniqueId<T>(s: seq<T>, key: T -> string, id: string)
    requires UniqueIds(s, key)
    ensures CountWhere(s, KeyIs(key, id)) == if HasId(s, key, id) then 1 else 0
    decreases |s|
  {
    if s != [] {
      assert UniqueIds(s[1..], key) by {
        forall i, j | 0 <= i < j < |s[1..]| ensures key(s[1..][i]) != key(s[1..][j]) {
          assert s[1..][i] == s[i + 1] && s[1..][j] == s[j + 1];
        }
      }
      CountUniqueId(s[1..], key, id);
      if key(s[0]) == id {
        assert !HasId(s[1..], key, id) by {
          forall i | 0 <= i < |s[1..]| ensures key(s[1..][i]) != id {
            assert s[1..][i] == s[i + 1];
          }
        }
      } else if HasId(s, key, id) {
        var i :| 0 <= i < |s| && key(s[i]) == id;
        assert key(s[1..][i - 1]) == id;
      } else {
        assert !HasId(s[1..], key, id) by {
          forall i | 0 <= i < |s[1..]| ensures key(s[1..][i]) != id {
            assert s[1..][i] == s[i + 1];
          }
        }
      }
    }
  }

  /** Deleting a present id from a collection with unique ids removes exactly one record. */
  lemma DeleteRemovesOne<T>(s: seq<T>, key: T -> string, id: string)
    requires UniqueIds(s, key) && HasId(s, key, id)
    ensures |Delete(s, key, id, true)| == |s| - 1
  {
    CountUniqueId(s, key, id);
  }

  /** Saving keeps ids unique, so a save never produces a duplicate entry. */
  lemma SavePreservesUniqueIds<T>(s: seq<T>, key: T -> string, d: T)
    requires UniqueIds(s, key)
    ensures UniqueIds(Save(s, key, d), key)
  {
    var r := Save(s, key, d);
    if HasId(s, key, key(d)) {
      assert forall i :: 0 <= i < |s| ==> key(r[i]) == key(s[i]);
    } else {
      assert forall i :: 0 <= i < |s| ==> r[i] == s[i];
    }
  }

  /** Saving the same draft twice is the same as saving it once. */
  lemma SaveIdempotent<T>(s: seq<T>, key: T -> string, d: T)
    ensures Save(Save(s, key, d), key, d) == Save(s, key, d)
  {
    var r := Save(s, key, d);
    var r2 := Save(r, key, d);
    assert |r2| == |r|;
    forall i | 0 <= i < |r| ensures r2[i] == r[i] {
    }
  }

  /** Adding a record with a fresh id and then deleting that id gives the original collection back. */
  lemma SaveNewThenDelete<T>(s: seq<T>, key: T -> string, d: T)
    requires !HasId(s, key, key(d))
    ensures Delete(Save(s, key, d), key, key(d), true) == s
  {
    FilterConcat(s, [d], KeyIsNot(key, key(d)));
    FilterAll(s, KeyIsNot(key, key(d)));
  }
}
