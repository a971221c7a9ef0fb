/**
 * Category subscriptions: one sorted set of uids per category, the
 * user-deletion cascade, and the audience a dispatch goes to.
 */
module Subscriptions {
  import opened Base
  import opened JsValues
  import opened SortedSets

  /** The key of a category's subscriber set: `'cid:' + cid + ':subscribed:uids'`. */
  function SubscribersKey(cid: Id): string {
    "cid:" + ToStr(cid) + ":subscribed:uids"
  }

  /** The key of the list of every category id. */
  const CategoriesKey: string := "categories:cid"

  /** Distinct category strings have distinct subscriber sets. */
  lemma SubscribersKeyInjective(a: Id, b: Id)
    requires SubscribersKey(a) == SubscribersKey(b)
    ensures ToStr(a) == ToStr(b)
  {
    var ka, kb := SubscribersKey(a), SubscribersKey(b);
    assert |ToStr(a)| == |ToStr(b)|;
    assert ToStr(a) == ka[4..|ka| - 16];
    assert ToStr(b) == kb[4..|kb| - 16];
  }

  /** No subscriber set shares its key with the category list. */
  lemma SubscribersKeyIsNotCategoriesKey(cid: Id)
    ensures SubscribersKey(cid) != CategoriesKey
  {
    assert SubscribersKey(cid)[1] == 'i' != CategoriesKey[1];
  }

  /** `isSubscribed(uid, cid)`: whether the uid, as a string, is in the category's set. */
  function IsSubscribed(db: Db, uid: Id, cid: Id): (r: Result<bool>)
    reads db
    ensures r.Err? <==> SubscribersKey(cid) in db.faulty
    ensures r.Ok? ==> (r.value <==> ToStr(uid) in db.Range(SubscribersKey(cid)))
  {
    db.IsSortedSetMember(SubscribersKey(cid), ToStr(uid))
  }

  /** `subscribe(uid, cid)`. */
  method Subscribe(db: Db, uid: Id, cid: Id) returns (err: Option<Error>)
    requires db.Valid()
    modifies db`sets
    ensures db.Valid()
    ensures err == (if SubscribersKey(cid) in db.faulty then Some(StoreError(SubscribersKey(cid))) else None)
    ensures db.sets == if err.Some? then old(db.sets)
                       else old(db.sets)[SubscribersKey(cid) := Remove(old(db.Range(SubscribersKey(cid))), ToStr(uid)) + [ToStr(uid)]]
    ensures err.None? ==> IsSubscribed(db, uid, cid) == Ok(true)
    ensures err.None? ==> forall m :: m in db.Range(SubscribersKey(cid)) <==>
                                      m in old(db.Range(SubscribersKey(cid))) || m == ToStr(uid)
    ensures err.None? ==> |db.Range(SubscribersKey(cid))| ==
                          |old(db.Range(SubscribersKey(cid)))| + (if ToStr(uid) in old(db.Range(SubscribersKey(cid))) then 0 else 1)
    ensures forall k :: k != SubscribersKey(cid) || err.Some? ==> db.Range(k) == old(db.Range(k))
  {
    ghost var old_members := db.Range(SubscribersKey(cid));
    err := db.SortedSetAdd(SubscribersKey(cid), ToStr(uid));
    if ToStr(uid) in old_members {
      assert Distinct(old_members) by {
        if SubscribersKey(cid) in old(db.sets) {
          assert Distinct(old(db.sets)[SubscribersKey(cid)]);
        }
      }
      RemoveShortens(old_members, ToStr(uid));
    }
  }

  /** `unsubscribe(uid, cid)`; removing a non-member changes nothing. */
  method Unsubscribe(db: Db, uid: Id, cid: Id) returns (err: Option<Error>)
    requires db.Valid()
    modifies db`sets
    ensures db.Valid()
    ensures err == (if SubscribersKey(cid) in db.faulty then Some(StoreError(SubscribersKey(cid))) else None)
    ensures db.sets == if err.Some? then old(db.sets)
                       else old(db.sets)[SubscribersKey(cid) := Remove(old(db.Range(SubscribersKey(cid))), ToStr(uid))]
    ensures err.None? ==> IsSubscribed(db, uid, cid) == Ok(false)
    ensures err.None? ==> db.Range(SubscribersKey(cid)) == Remove(old(db.Range(SubscribersKey(cid))), ToStr(uid))
    ensures ToStr(uid) !in old(db.Range(SubscribersKey(cid))) ==> db.Range(SubscribersKey(cid)) == old(db.Range(SubscribersKey(cid)))
    ensures forall k :: k != SubscribersKey(cid) || err.Some? ==> db.Range(k) == old(db.Range(k))
  {
    err := db.SortedSetRemove(SubscribersKey(cid), ToStr(uid));
  }

  /** `subscribe` then `unsubscribe` of the same pair leaves the pair unsubscribed. */
  method SubscribeThenUnsubscribe(db: Db, uid: Id, cid: Id) returns (r: Result<bool>)
    requires db.Valid()
    modifies db`sets
    ensures db.Valid()
    ensures SubscribersKey(cid) !in db.faulty ==> r == Ok(false)
    ensures forall k :: k != SubscribersKey(cid) ==> db.Range(k) == old(db.Range(k))
  {
    var e1 := Subscribe(db, uid, cid);
    var e2 := Unsubscribe(db, uid, cid);
    r := IsSubscribed(db, uid, cid);
  }

  // ---------------------------------------------------------------------------
  // User-deletion cascade

  /** The subscriber-set keys of a list of category ids, in order. */
  function CategoryKeys(cids: seq<string>): (keys: seq<string>)
    ensures |keys| == |cids|
    ensures forall i :: 0 <= i < |cids| ==> keys[i] == SubscribersKey(Str(cids[i]))
  {
    seq(|cids|, i requires 0 <= i < |cids| => SubscribersKey(Str(cids[i])))
  }

  /**
   * How many categories `eachSeries` gets through: every one before the
   * first whose store operation fails.
   */
  function Reached(cids: seq<string>, faulty: set<string>): (n: nat)
    ensures n <= |cids|
    ensures forall i :: 0 <= i < n ==> SubscribersKey(Str(cids[i])) !in faulty
    ensures n < |cids| ==> SubscribersKey(Str(cids[n])) in faulty
  {
    if cids == [] || SubscribersKey(Str(cids[0])) in faulty then 0
    else 1 + Reached(cids[1..], faulty)
  }

  /** The store after `member` is removed from each set in `keys`, one key after the other. */
  function StripAll(sets: map<string, seq<string>>, member: string, keys: seq<string>): map<string, seq<string>>
  {
    if keys == [] then sets
    else
      var before := StripAll(sets, member, keys[..|keys| - 1]);
      var k := keys[|keys| - 1];
      before[k := Remove(RangeIn(before, k), member)]
  }

  /**
   * Stripping a member touches exactly the listed sets, and in each of them
   * removes that member and nothing else, keeping the order.
   */
  lemma {:induction false} StripAllRange(sets: map<string, seq<string>>, member: string, keys: seq<string>, k: string)
    ensures RangeIn(StripAll(sets, member, keys), k) ==
            if k in keys then Remove(RangeIn(sets, k), member) else RangeIn(sets, k)
  {
    if keys != [] {
      var init := keys[..|keys| - 1];
      StripAllRange(sets, member, init, k);
      if k == keys[|keys| - 1] && k in init {
        var once := Remove(RangeIn(sets, k), member);
        assert member !in once;
      }
      assert k in keys <==> k in init || k == keys[|keys| - 1];
    }
  }

  lemma {:induction false} StripAllValid(sets: map<string, seq<string>>, member: string, keys: seq<string>)
    requires AllDistinct(sets)
    ensures AllDistinct(StripAll(sets, member, keys))
  {
    if keys != [] {
      StripAllValid(sets, member, keys[..|keys| - 1]);
      var before := StripAll(sets, member, keys[..|keys| - 1]);
      var k := keys[|keys| - 1];
      assert Distinct(RangeIn(before, k)) by {
        if k in before {
          assert Distinct(before[k]);
        }
      }
    }
  }

  lemma StripAllStep(sets: map<string, seq<string>>, member: string, cids: seq<string>, i: nat)
    requires i < |cids|
    ensures var before := StripAll(sets, member, CategoryKeys(cids[..i]));
            var k := SubscribersKey(Str(cids[i]));
            StripAll(sets, member, CategoryKeys(cids[..i + 1])) == before[k := Remove(RangeIn(before, k), member)]
  {
    var keys := CategoryKeys(cids[..i + 1]);
    assert keys[..i] == CategoryKeys(cids[..i]);
  }

  /** One more category unsubscribed extends the cascade by that category's key. */
  lemma CascadeStep(start: map<string, seq<string>>, member: string, cids: seq<string>, i: nat,
                    before: map<string, seq<string>>, after: map<string, seq<string>>)
    requires i < |cids|
    requires before == StripAll(start, member, CategoryKeys(cids[..i]))
    requires after == before[SubscribersKey(Str(cids[i])) := Remove(RangeIn(before, SubscribersKey(Str(cids[i]))), member)]
    ensures after == StripAll(start, member, CategoryKeys(cids[..i + 1]))
  {
    StripAllStep(start, member, cids, i);
  }

  /**
   * `onUserDelete(data)`: read every category id, then unsubscribe the uid
   * from each in order; the first error stops the walk and is only logged,
   * and is what this returns.
   */
  method OnUserDelete(db: Db, uid: Id) returns (logged: Option<Error>)
    requires db.Valid()
    modifies db`sets
    ensures db.Valid()
    ensures match old(db.GetSortedSetRange(CategoriesKey))
            case Err(e) => logged == Some(e) && db.sets == old(db.sets)
            case Ok(cids) =>
              var n := Reached(cids, db.faulty);
              db.sets == StripAll(old(db.sets), ToStr(uid), CategoryKeys(cids[..n])) &&
              logged == (if n < |cids| then Some(StoreError(SubscribersKey(Str(cids[n])))) else None)
  {
    var listing := db.GetSortedSetRange(CategoriesKey);
    if listing.Err? {
      return Some(listing.error);
    }
    var cids := listing.value;
    ghost var start := db.sets;
    ghost var member := ToStr(uid);
    ghost var n := Reached(cids, db.faulty);
    var i := 0;
    while i < |cids|
      invariant i <= n
      invariant AllDistinct(db.sets)
      invariant db.sets == StripAll(start, member, CategoryKeys(cids[..i]))
    {
      ghost var before := db.sets;
      ghost var key := SubscribersKey(Str(cids[i]));
      var err := Unsubscribe(db, uid, Str(cids[i]));
      if err.Some? {
        assert key in db.faulty;
        assert i == n;
        return err;
      }
      CascadeStep(start, member, cids, i, before, db.sets);
      i := i + 1;
    }
    assert cids[..i] == cids;
    logged := None;
  }

  /**
   * When the cascade runs through, the uid is a member of no listed category,
   * every other member of those categories is still there in the same order,
   * and every other set, the category list included, is untouched.
   */
  lemma CascadeOutcome(sets: map<string, seq<string>>, uid: Id, cids: seq<string>, k: string)
    ensures var after := StripAll(sets, ToStr(uid), CategoryKeys(cids));
            (forall c :: c in cids ==> ToStr(uid) !in RangeIn(after, SubscribersKey(Str(c)))) &&
            (forall m :: m != ToStr(uid) ==> (m in RangeIn(after, k) <==> m in RangeIn(sets, k))) &&
            IsSubsequence(RangeIn(after, k), RangeIn(sets, k)) &&
            (k !in CategoryKeys(cids) ==> RangeIn(after, k) == RangeIn(sets, k)) &&
            RangeIn(after, CategoriesKey) == RangeIn(sets, CategoriesKey)
  {
    var keys := CategoryKeys(cids);
    forall c | c in cids ensures ToStr(uid) !in RangeIn(StripAll(sets, ToStr(uid), keys), SubscribersKey(Str(c))) {
      var i :| 0 <= i < |cids| && cids[i] == c;
      assert keys[i] == SubscribersKey(Str(c));
      StripAllRange(sets, ToStr(uid), keys, SubscribersKey(Str(c)));
    }
    StripAllRange(sets, ToStr(uid), keys, k);
    RemoveKeepsOrder(RangeIn(sets, k), ToStr(uid));
    SubsequenceOfItself(RangeIn(sets, k));
    StripAllRange(sets, ToStr(uid), keys, CategoriesKey);
    forall i | 0 <= i < |keys| ensures keys[i] != CategoriesKey {
      SubscribersKeyIsNotCategoriesKey(Str(cids[i]));
    }
  }

  // ---------------------------------------------------------------------------
  // Audience

  /** The elements of `s` that `keep` accepts, in their order (`Array.prototype.filter`). */
  function Filter(s: seq<string>, keep: string -> bool): seq<string> {
    if s == [] then []
    else (if keep(s[0]) then [s[0]] else []) + Filter(s[1..], keep)
  }

  /** A filter keeps exactly the accepted elements. */
  lemma {:induction false} FilterMembers(s: seq<string>, keep: string -> bool)
    ensures forall x :: x in Filter(s, keep) <==> x in s && keep(x)
  {
    if s != [] {
      FilterMembers(s[1..], keep);
      assert forall x :: x in s <==> x == s[0] || x in s[1..];
    }
  }

  /** A filter drops elements but never reorders or adds any. */
  lemma {:induction false} FilterIsSubsequence(s: seq<string>, keep: string -> bool)
    ensures IsSubsequence(Filter(s, keep), s)
  {
    if s != [] {
      FilterIsSubsequence(s[1..], keep);
      var r := Filter(s, keep);
      if keep(s[0]) {
        assert r[0] == s[0] && r[1..] == Filter(s[1..], keep);
      } else {
        assert r == Filter(s[1..], keep);
      }
    }
  }

  lemma FilterCons(x: string, rest: seq<string>, keep: string -> bool)
    ensures Filter([x] + rest, keep) == (if keep(x) then [x] else []) + Filter(rest, keep)
  {
    assert ([x] + rest)[0] == x && ([x] + rest)[1..] == rest;
  }

  /** Filtering keeps order: it distributes over concatenation. */
  lemma {:induction false} FilterAppend(a: seq<string>, b: seq<string>, keep: string -> bool)
    ensures Filter(a + b, keep) == Filter(a, keep) + Filter(b, keep)
  {
    if a == [] {
      assert a + b == b;
    } else {
      var x, rest := a[0], a[1..];
      assert a == [x] + rest;
      assert a + b == [x] + (rest + b);
      FilterCons(x, rest + b, keep);
      FilterCons(x, rest, keep);
      FilterAppend(rest, b, keep);
    }
  }

  /** A duplicate-free sequence filters to a duplicate-free sequence. */
  lemma {:induction false} FilterDistinct(s: seq<string>, keep: string -> bool)
    requires Distinct(s)
    ensures Distinct(Filter(s, keep))
  {
    if s != [] {
      assert Distinct(s[1..]) by {
        forall i, j | 0 <= i < j < |s| - 1 ensures s[1..][i] != s[1..][j] {
          assert s[1..][i] == s[i + 1] && s[1..][j] == s[j + 1];
        }
      }
      FilterDistinct(s[1..], keep);
      FilterMembers(s[1..], keep);
      assert s[0] !in s[1..] by {
        forall k | 0 <= k < |s| - 1 ensures s[1..][k] != s[0] {
          assert s[1..][k] == s[k + 1];
        }
      }
    }
  }

  /** Filters that agree on every element give the same result. */
  lemma {:induction false} FilterAgree(s: seq<string>, f: string -> bool, g: string -> bool)
    requires forall x :: f(x) == g(x)
    ensures Filter(s, f) == Filter(s, g)
  {
    if s != [] {
      FilterAgree(s[1..], f, g);
    }
  }

  /** A filter that accepts every element returns its input. */
  lemma {:induction false} FilterKeepsAll(s: seq<string>, keep: string -> bool)
    requires forall x :: x in s ==> keep(x)
    ensures Filter(s, keep) == s
  {
    if s != [] {
      FilterKeepsAll(s[1..], keep);
    }
  }

  /** Whether a stored uid counts as the excluded author: `parseInt(uid, 10) === parseInt(exceptUid, 10)`. */
  predicate IsExcluded(uid: string, exceptUid: Id) {
    SameNumber(ParseIntString(uid), ParseInt(exceptUid))
  }

  /** The subscribers without every uid numerically equal to `exceptUid`. */
  function Audience(uids: seq<string>, exceptUid: Id): seq<string> {
    Filter(uids, uid => !IsExcluded(uid, exceptUid))
  }

  /** `getSubscribers(cid, exceptUid)`: the store's error, or the audience in stored order. */
  function GetSubscribers(db: Db, cid: Id, exceptUid: Id): (r: Result<seq<string>>)
    reads db
    ensures r.Err? <==> SubscribersKey(cid) in db.faulty
    ensures r.Ok? ==> IsSubsequence(r.value, db.Range(SubscribersKey(cid)))
    ensures r.Ok? ==> forall x :: x in r.value <==>
                                  x in db.Range(SubscribersKey(cid)) && !IsExcluded(x, exceptUid)
  {
    match db.GetSortedSetRange(SubscribersKey(cid))
    case Err(e) => Err(e)
    case Ok(uids) =>
      var keep := uid => !IsExcluded(uid, exceptUid);
      FilterIsSubsequence(uids, keep);
      FilterMembers(uids, keep);
      Ok(Audience(uids, exceptUid))
  }

  /** Every recipient appears once: a valid store holds no duplicate member. */
  lemma GetSubscribersDistinct(db: Db, cid: Id, exceptUid: Id)
    requires db.Valid()
    requires GetSubscribers(db, cid, exceptUid).Ok?
    ensures Distinct(GetSubscribers(db, cid, exceptUid).value)
  {
    var key := SubscribersKey(cid);
    if key in db.sets {
      assert Distinct(db.sets[key]);
    }
    FilterDistinct(db.Range(key), uid => !IsExcluded(uid, exceptUid));
  }

  /**
   * An author id that `parseInt` reads as NaN (no digits at all) excludes
   * nobody, since NaN equals nothing.
   */
  lemma NaNAuthorExcludesNobody(uids: seq<string>, exceptUid: Id)
    requires ParseInt(exceptUid) == NaN
    ensures Audience(uids, exceptUid) == uids
  {
    FilterKeepsAll(uids, uid => !IsExcluded(uid, exceptUid));
  }

  /**
   * The audience is the same whether the author arrives as the number `n`
   * or as any digit string of value `n` (`"7"`, `"007"`).
   */
  lemma AudienceIgnoresAuthorForm(uids: seq<string>, n: nat, s: string)
    requires s != [] && AllDigits(s) && DigitsValue(s) == n
    ensures Audience(uids, Str(s)) == Audience(uids, Num(n))
  {
    NumberAndDigitStringAgree(n, s);
    FilterAgree(uids, uid => !IsExcluded(uid, Str(s)), uid => !IsExcluded(uid, Num(n)));
  }

  lemma ExcludedByTwo(uid: string, d: nat)
    requires uid == DecimalString(d)
    ensures IsExcluded(uid, Num(2)) <==> d == 2
  {
    ParseDecimalString(d);
    ParseDecimalString(2);
  }

  lemma FilterDropsMiddle(a: string, b: string, c: string, keep: string -> bool)
    requires keep(a) && !keep(b) && keep(c)
    ensures Filter([a, b, c], keep) == [a, c]
  {
    FilterCons(a, [b, c], keep);
    FilterCons(b, [c], keep);
    FilterCons(c, [], keep);
    assert [a] + [b, c] == [a, b, c];
    assert [b] + [c] == [b, c];
    assert [c] + [] == [c];
  }

  /** Subscribers "1", "2", "3" without author 2, given as a number or as a string, leave "1", "3". */
  lemma AudienceExample()
    ensures Audience(["1", "2", "3"], Num(2)) == ["1", "3"]
    ensures Audience(["1", "2", "3"], Str("2")) == ["1", "3"]
  {
    assert DecimalString(1) == "1" && DecimalString(2) == "2" && DecimalString(3) == "3";
    ExcludedByTwo("1", 1);
    ExcludedByTwo("2", 2);
    ExcludedByTwo("3", 3);
    FilterDropsMiddle("1", "2", "3", uid => !IsExcluded(uid, Num(2)));
    assert DigitsValue("2") == 2;
    AudienceIgnoresAuthorForm(["1", "2", "3"], 2, "2");
  }
}
