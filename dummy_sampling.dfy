/**
 * getRandomItems and getRandomTags (src/services/dummyData.js:49-64): draw pool
 * elements into a JavaScript Set, in insertion order, until it is large enough.
 */
module DummySampling {
  import opened Wrappers
  import opened RandomDraws
  import opened DummyPools

  /** `selected.add(x)` on a Set kept as its insertion-ordered contents. */
  function AddToSet(sel: seq<string>, x: string): seq<string> {
    if x in sel then sel else sel + [x]
  }

  function Min(a: int, b: int): int { if a <= b then a else b }

  function Max(a: int, b: int): int { if a <= b then b else a }

  datatype Sampled = Sampled(picked: seq<string>, rest: seq<Draw>, complete: bool)

  /**
   * What `while (selected.size < target) selected.add(pool[floor(r * |pool|)])`
   * does with the draws rs, starting from `sel`: `complete` is false only when the
   * stream ran out first.
   */
  function Sample(pool: seq<string>, target: int, sel: seq<string>, rs: seq<Draw>): (r: Sampled)
    requires |pool| > 0
    ensures r.complete ==> |r.picked| >= target
    ensures !r.complete ==> r.rest == [] && |r.picked| < target
    decreases |rs|
  {
    if |sel| >= target then Sampled(sel, rs, true)
    else if rs == [] then Sampled(sel, [], false)
    else Sample(pool, target, AddToSet(sel, pool[Pick(rs[0], |pool|)]), rs[1..])
  }

  predicate AllIn(s: seq<string>, pool: seq<string>) {
    forall i :: 0 <= i < |s| ==> s[i] in pool
  }

  /** A sample keeps distinct pool elements, never overshoots its target, and reaches it when complete. */
  lemma {:induction false} SampleSound(pool: seq<string>, target: int, sel: seq<string>, rs: seq<Draw>)
    requires |pool| > 0 && Distinct(sel) && AllIn(sel, pool)
    ensures var r := Sample(pool, target, sel, rs);
      && Distinct(r.picked) && AllIn(r.picked, pool)
      && sel <= r.picked
      && |r.picked| <= Max(target, |sel|)
      && (r.complete <==> |r.picked| >= target)
      && IsSuffix(r.rest, rs)
    decreases |rs|
  {
    if |sel| >= target {
    } else if rs == [] {
    } else {
      var x := pool[Pick(rs[0], |pool|)];
      var sel' := AddToSet(sel, x);
      assert Distinct(sel') && AllIn(sel', pool);
      SampleSound(pool, target, sel', rs[1..]);
      var r := Sample(pool, target, sel', rs[1..]);
      assert IsSuffix(r.rest, rs) by {
        assert rs[1..][|rs| - 1 - |r.rest|..] == rs[|rs| - |r.rest|..];
      }
    }
  }

  /**
   * When the Set-filling loop stops depends only on which pool positions are drawn:
   * the draws left once `target` distinct positions out of `size` have been seen,
   * or None when the stream runs out first.
   */
  function IndexSample(size: nat, target: int, seen: seq<nat>, rs: seq<Draw>): Option<seq<Draw>>
    requires size > 0
    decreases |rs|
  {
    if |seen| >= target then Some(rs)
    else if rs == [] then None
    else
      var k := Pick(rs[0], size);
      IndexSample(size, target, if k in seen then seen else seen + [k], rs[1..])
  }

  /** Over a pool of distinct names, the loop stops exactly where its positions say it does. */
  lemma {:induction false} SampleByIndex(pool: seq<string>, target: int, sel: seq<string>, seen: seq<nat>, rs: seq<Draw>)
    requires |pool| > 0 && Distinct(pool)
    requires |seen| == |sel| && forall k :: 0 <= k < |sel| ==> seen[k] < |pool| && sel[k] == pool[seen[k]]
    ensures Sample(pool, target, sel, rs).complete <==> IndexSample(|pool|, target, seen, rs).Some?
    ensures Sample(pool, target, sel, rs).complete ==> Sample(pool, target, sel, rs).rest == IndexSample(|pool|, target, seen, rs).value
    decreases |rs|
  {
    if |sel| >= target || rs == [] {
    } else {
      var k := Pick(rs[0], |pool|);
      assert pool[k] in sel <==> k in seen by {
        if pool[k] in sel {
          var j :| 0 <= j < |sel| && sel[j] == pool[k];
          assert pool[seen[j]] == pool[k];
        }
        if k in seen {
          var j :| 0 <= j < |seen| && seen[j] == k;
          assert sel[j] == pool[k];
        }
      }
      var sel' := AddToSet(sel, pool[k]);
      var seen' := if k in seen then seen else seen + [k];
      assert forall j :: 0 <= j < |sel'| ==> seen'[j] < |pool| && sel'[j] == pool[seen'[j]];
      SampleByIndex(pool, target, sel', seen', rs[1..]);
    }
  }

  /** The first occurrence of x removed from s. */
  function RemoveFirst(s: seq<string>, x: string): (r: seq<string>)
    requires x in s
    ensures |r| == |s| - 1
    ensures forall y :: y in s && y != x ==> y in r
  {
    if s[0] == x then s[1..] else [s[0]] + RemoveFirst(s[1..], x)
  }

  /** Pigeonhole: distinct elements of a pool are no more than the pool. */
  lemma {:induction false} DistinctWithinPool(s: seq<string>, pool: seq<string>)
    requires Distinct(s) && AllIn(s, pool)
    ensures |s| <= |pool|
  {
    if s != [] {
      var pool' := RemoveFirst(pool, s[0]);
      forall i | 0 <= i < |s[1..]| ensures s[1..][i] in pool' {
        assert s[1..][i] == s[i + 1] != s[0];
      }
      DistinctWithinPool(s[1..], pool');
    }
  }

  /** A target larger than the pool is never reached: the JavaScript loop would spin forever. */
  lemma OverlargeTargetNeverCompletes(pool: seq<string>, target: int, rs: seq<Draw>)
    requires |pool| > 0 && target > |pool|
    ensures !Sample(pool, target, [], rs).complete
  {
    SampleSound(pool, target, [], rs);
    var r := Sample(pool, target, [], rs);
    DistinctWithinPool(r.picked, pool);
  }

  /**
   * getRandomItems(category, count): the loop also stops at the pool size.
   * `complete` is false only when the draws ran out.
   */
  method GetRandomItems(category: string, count: int, rs: seq<Draw>)
    returns (items: seq<string>, rest: seq<Draw>, complete: bool)
    requires category in Items && |Items[category]| > 0
    ensures Sampled(items, rest, complete) == Sample(Items[category], Min(count, |Items[category]|), [], rs)
    ensures Distinct(items) && AllIn(items, Items[category])
    ensures |items| <= Max(0, Min(count, |Items[category]|))
    ensures complete <==> |items| == Max(0, Min(count, |Items[category]|))
    ensures IsSuffix(rest, rs)
  {
    var pool := Items[category];
    var target := Min(count, |pool|);
    items, rest := [], rs;
    while |items| < target && rest != []
      invariant Sample(pool, target, items, rest) == Sample(pool, target, [], rs)
      invariant Distinct(items) && AllIn(items, pool)
      invariant |items| <= Max(target, 0)
      invariant IsSuffix(rest, rs)
      decreases |rest|
    {
      var x := pool[Pick(rest[0], |pool|)];
      if x !in items {
        items := items + [x];
      }
      rest := rest[1..];
    }
    complete := |items| >= target;
    SampleSound(pool, target, [], rs);
  }

  /**
   * getRandomTags(count): no pool bound, so a count above |Tags| never completes
   * (in JavaScript the loop does not terminate).
   */
  method GetRandomTags(count: int, rs: seq<Draw>)
    returns (tags: seq<string>, rest: seq<Draw>, complete: bool)
    ensures Sampled(tags, rest, complete) == Sample(Tags, count, [], rs)
    ensures Distinct(tags) && AllIn(tags, Tags)
    ensures complete <==> |tags| == Max(0, count)
    ensures count > |Tags| ==> !complete
    ensures IsSuffix(rest, rs)
  {
    tags, rest := [], rs;
    while |tags| < count && rest != []
      invariant Sample(Tags, count, tags, rest) == Sample(Tags, count, [], rs)
      invariant Distinct(tags) && AllIn(tags, Tags)
      invariant |tags| <= Max(count, 0)
      invariant IsSuffix(rest, rs)
      decreases |rest|
    {
      var x := Tags[Pick(rest[0], |Tags|)];
      if x !in tags {
        tags := tags + [x];
      }
      rest := rest[1..];
    }
    complete := |tags| >= count;
    if count > |Tags| {
      OverlargeTargetNeverCompletes(Tags, count, rs);
    }
  }
}
