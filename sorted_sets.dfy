/**
 * The part of NodeBB's database the plugin uses: sorted sets addressed by
 * string keys. A set's members are strings, held in ascending score order.
 * Scores are `Date.now()` at insertion, so the order is the order of the
 * latest insertion; a key the store has never written reads as empty.
 */
module SortedSets {
  import opened Base

  predicate Distinct(s: seq<string>) {
    forall i, j :: 0 <= i < j < |s| ==> s[i] != s[j]
  }

  /** `s` without `x`, the other members in their order. */
  function Remove(s: seq<string>, x: string): (r: seq<string>)
    ensures forall y :: y in r <==> y in s && y != x
    ensures x !in s ==> r == s
    ensures Distinct(s) ==> Distinct(r)
  {
    if s == [] then []
    else
      var rest := Remove(s[1..], x);
      assert Distinct(s) ==> Distinct(s[1..]) && s[0] !in s[1..] by {
        if Distinct(s) {
          forall k | 0 <= k < |s| - 1 ensures s[1..][k] != s[0] {
            assert s[1..][k] == s[k + 1];
          }
        }
      }
      (if s[0] == x then [] else [s[0]]) + rest
  }

  /** `a` is `b` with some elements left out. */
  predicate IsSubsequence(a: seq<string>, b: seq<string>)
    decreases |b|
  {
    if b == [] then a == []
    else (a != [] && a[0] == b[0] && IsSubsequence(a[1..], b[1..])) || IsSubsequence(a, b[1..])
  }

  lemma {:induction false} SubsequenceOfItself(s: seq<string>)
    ensures IsSubsequence(s, s)
  {
    if s != [] {
      SubsequenceOfItself(s[1..]);
    }
  }

  /** Removing a member keeps the other members in their order. */
  lemma {:induction false} RemoveKeepsOrder(s: seq<string>, x: string)
    ensures IsSubsequence(Remove(s, x), s)
  {
    if s != [] {
      RemoveKeepsOrder(s[1..], x);
      var r := Remove(s, x);
      if s[0] == x {
        assert r == Remove(s[1..], x);
      } else {
        assert r[0] == s[0] && r[1..] == Remove(s[1..], x);
      }
    }
  }

  /** Removing a member of a duplicate-free set shortens it by exactly one. */
  lemma {:induction false} RemoveShortens(s: seq<string>, x: string)
    requires Distinct(s) && x in s
    ensures |Remove(s, x)| == |s| - 1
  {
    if s[0] != x {
      assert Distinct(s[1..]) by {
        forall i, j | 0 <= i < j < |s| - 1 ensures s[1..][i] != s[1..][j] {
          assert s[1..][i] == s[i + 1] && s[1..][j] == s[j + 1];
        }
      }
      assert x in s[1..] by {
        var k :| 0 <= k < |s| && s[k] == x;
        assert s[1..][k - 1] == x;
      }
      RemoveShortens(s[1..], x);
    } else {
      assert x !in s[1..] by {
        forall k | 0 <= k < |s| - 1 ensures s[1..][k] != x {
          assert s[1..][k] == s[k + 1];
        }
      }
    }
  }

  /** No sorted set of the store holds a member twice. */
  predicate AllDistinct(sets: map<string, seq<string>>) {
    forall k | k in sets :: Distinct(sets[k])
  }

  /** The members stored under `key`, empty when the key was never written. */
  function RangeIn(sets: map<string, seq<string>>, key: string): seq<string> {
    if key in sets then sets[key] else []
  }

  /** The sorted-set store. */
  class Db {
    /** Every sorted set, by key. */
    var sets: map<string, seq<string>>
    /** The keys on which the store currently reports an error. */
    var faulty: set<string>

    ghost predicate Valid()
      reads this
    {
      AllDistinct(sets)
    }

    constructor (faulty: set<string>)
      ensures Valid() && sets == map[] && this.faulty == faulty
    {
      sets := map[];
      this.faulty := faulty;
    }

    function Range(key: string): seq<string>
      reads this
    {
      RangeIn(sets, key)
    }

    /** `db.getSortedSetRange(key, 0, -1)`. */
    function GetSortedSetRange(key: string): Result<seq<string>>
      reads this
    {
      if key in faulty then Err(StoreError(key)) else Ok(Range(key))
    }

    /** `db.isSortedSetMember(key, member)`. */
    function IsSortedSetMember(key: string, member: string): Result<bool>
      reads this
    {
      if key in faulty then Err(StoreError(key)) else Ok(member in Range(key))
    }

    /**
     * `db.sortedSetAdd(key, Date.now(), member)`: a new member goes last; an
     * existing one gets the newer score and so also moves last, without a
     * second copy.
     */
    method SortedSetAdd(key: string, member: string) returns (err: Option<Error>)
      requires Valid()
      modifies this`sets
      ensures Valid()
      ensures err == (if key in faulty then Some(StoreError(key)) else None)
      ensures sets == if err.Some? then old(sets)
                      else old(sets)[key := Remove(old(Range(key)), member) + [member]]
    {
      if key in faulty {
        return Some(StoreError(key));
      }
      var kept := Remove(Range(key), member);
      sets := sets[key := kept + [member]];
      err := None;
    }

    /** `db.sortedSetRemove(key, member)`. */
    method SortedSetRemove(key: string, member: string) returns (err: Option<Error>)
      requires Valid()
      modifies this`sets
      ensures Valid()
      ensures err == (if key in faulty then Some(StoreError(key)) else None)
      ensures sets == if err.Some? then old(sets)
                      else old(sets)[key := Remove(old(Range(key)), member)]
    {
      if key in faulty {
        return Some(StoreError(key));
      }
      sets := sets[key := Remove(Range(key), member)];
      err := None;
    }
  }
}
