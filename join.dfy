/**
 * The left join pandas performs for `left.merge(right, ..., how="left")`,
 * over rows whose join key is given by a key function on each side: the
 * left rows are kept in order, each followed by its matching right rows in
 * right-hand order, or by a single row with the right side missing.
 */
module Join {
  import opened Wrappers

  /** The right rows whose key is `k`, in their original order. */
  function Matches<R, K(==)>(k: K, right: seq<R>, key: R -> K): (ms: seq<R>)
    ensures |ms| <= |right|
    ensures forall r :: r in ms ==> r in right && key(r) == k
    ensures forall i :: 0 <= i < |right| && key(right[i]) == k ==> right[i] in ms
  {
    if right == [] then []
    else (if key(right[0]) == k then [right[0]] else []) + Matches(k, right[1..], key)
  }

  /** The positions of the right rows whose key is `k`. */
  function MatchPositions<R, K(==)>(k: K, right: seq<R>, key: R -> K): set<nat> {
    set i: nat | i < |right| && key(right[i]) == k
  }

  /** Every position moved one place to the right. */
  function Shift(a: set<nat>): set<nat> {
    set x | x in a :: (x + 1) as nat
  }

  lemma {:induction false} ShiftCount(a: set<nat>)
    ensures |Shift(a)| == |a|
    decreases |a|
  {
    if a != {} {
      var x :| x in a;
      ShiftCount(a - {x});
      forall y | y in Shift(a) ensures y in Shift(a - {x}) + {x + 1} {
        var z :| z in a && y == z + 1;
        if z != x {
          assert z in a - {x};
        }
      }
      assert Shift(a) == Shift(a - {x}) + {x + 1};
      assert x + 1 !in Shift(a - {x});
    }
  }

  /** The positions holding `k` are the first one, if it does, and those of the rest moved one place. */
  lemma PositionsSplit<R, K>(k: K, right: seq<R>, key: R -> K)
    requires right != []
    ensures MatchPositions(k, right, key)
      == (if key(right[0]) == k then {0} else {}) + Shift(MatchPositions(k, right[1..], key))
  {
    var rest := MatchPositions(k, right[1..], key);
    forall i | i in MatchPositions(k, right, key) && i > 0 ensures i in Shift(rest) {
      assert right[1..][i - 1] == right[i];
      assert i - 1 in rest;
    }
    forall i | i in Shift(rest) ensures i in MatchPositions(k, right, key) {
      var x :| x in rest && i == x + 1;
      assert right[1..][x] == right[i];
    }
  }

  /** There is one match per right row with the key, duplicates included. */
  lemma {:induction false} MatchesCount<R, K>(k: K, right: seq<R>, key: R -> K)
    ensures |Matches(k, right, key)| == |MatchPositions(k, right, key)|
    decreases |right|
  {
    if right != [] {
      var rest := MatchPositions(k, right[1..], key);
      MatchesCount(k, right[1..], key);
      ShiftCount(rest);
      PositionsSplit(k, right, key);
      var head: set<nat> := if key(right[0]) == k then {0} else {};
      assert head * Shift(rest) == {};
    }
  }

  /** Two right rows with the left row's key give it at least two matches. */
  lemma TwoMatches<R, K>(k: K, right: seq<R>, key: R -> K, i: nat, j: nat)
    requires i < j < |right| && key(right[i]) == k && key(right[j]) == k
    ensures |Matches(k, right, key)| >= 2
  {
    MatchesCount(k, right, key);
    var ps := MatchPositions(k, right, key);
    assert ps == {i, j} + (ps - {i, j});
    assert {i, j} * (ps - {i, j}) == {};
  }

  /** The output rows produced for one left row `l` whose matches are `ms`. */
  function Expand<L, R>(l: L, ms: seq<R>): seq<(L, Option<R>)> {
    if ms == [] then [(l, None)] else seq(|ms|, i requires 0 <= i < |ms| => (l, Some(ms[i])))
  }

  /** `left.merge(right, left_on=..., right_on=..., how="left")` on the rows and their keys. */
  function LeftJoin<L, R, K(==)>(left: seq<L>, lkey: L -> K, right: seq<R>, rkey: R -> K): seq<(L, Option<R>)> {
    if left == [] then []
    else Expand(left[0], Matches(lkey(left[0]), right, rkey)) + LeftJoin(left[1..], lkey, right, rkey)
  }

  /** max(1, n): how many output rows a left row with `n` matches produces. */
  function Fanout(n: nat): (m: nat)
    ensures m >= 1 && m >= n && (n >= 1 ==> m == n)
  {
    if n == 0 then 1 else n
  }

  /** The sum over the left rows of max(1, number of matching right rows). */
  function JoinSize<L, R, K(==)>(left: seq<L>, lkey: L -> K, right: seq<R>, rkey: R -> K): nat {
    if left == [] then 0
    else Fanout(|Matches(lkey(left[0]), right, rkey)|) + JoinSize(left[1..], lkey, right, rkey)
  }

  /** No two right rows share a key. */
  predicate UniqueKeys<R, K(==)>(right: seq<R>, key: R -> K) {
    forall i, j :: 0 <= i < j < |right| ==> key(right[i]) != key(right[j])
  }

  /** The left side of every output row, in output order. */
  function Lefts<L, R>(out: seq<(L, Option<R>)>): (ls: seq<L>)
    ensures |ls| == |out|
  {
    seq(|out|, i requires 0 <= i < |out| => out[i].0)
  }

  /** Each left row contributes max(1, #matches) output rows, so the output has `JoinSize` rows. */
  lemma {:induction false} JoinLength<L, R, K>(left: seq<L>, lkey: L -> K, right: seq<R>, rkey: R -> K)
    ensures |LeftJoin(left, lkey, right, rkey)| == JoinSize(left, lkey, right, rkey)
  {
    if left != [] {
      JoinLength(left[1..], lkey, right, rkey);
    }
  }

  /** A left join never has fewer rows than its left side. */
  lemma {:induction false} JoinAtLeastLeft<L, R, K>(left: seq<L>, lkey: L -> K, right: seq<R>, rkey: R -> K)
    ensures |LeftJoin(left, lkey, right, rkey)| >= |left|
  {
    if left != [] {
      JoinAtLeastLeft(left[1..], lkey, right, rkey);
    }
  }

  lemma {:induction false} MatchesUnique<R, K>(k: K, right: seq<R>, key: R -> K)
    requires UniqueKeys(right, key)
    ensures |Matches(k, right, key)| <= 1
  {
    if right != [] {
      MatchesUnique(k, right[1..], key);
      if key(right[0]) == k {
        forall r | r in right[1..] ensures key(r) != k {
          var j :| 0 <= j < |right[1..]| && right[1..][j] == r;
          assert key(right[0]) != key(right[j + 1]);
        }
        NoMatches(k, right[1..], key);
      }
    }
  }

  lemma NoMatches<R, K>(k: K, right: seq<R>, key: R -> K)
    requires forall r :: r in right ==> key(r) != k
    ensures Matches(k, right, key) == []
  {
  }

  /**
   * With unique right-hand keys the join is one output row per left row, in
   * left order: its left sides are exactly the left rows.
   */
  lemma {:induction false} UniqueJoinKeepsLeft<L, R, K>(left: seq<L>, lkey: L -> K, right: seq<R>, rkey: R -> K)
    requires UniqueKeys(right, rkey)
    ensures |LeftJoin(left, lkey, right, rkey)| == |left|
    ensures Lefts(LeftJoin(left, lkey, right, rkey)) == left
  {
    if left != [] {
      UniqueJoinKeepsLeft(left[1..], lkey, right, rkey);
      MatchesUnique(lkey(left[0]), right, rkey);
      var head := Expand(left[0], Matches(lkey(left[0]), right, rkey));
      var rest := LeftJoin(left[1..], lkey, right, rkey);
      assert |head| == 1 && head[0].0 == left[0];
      assert Lefts(head) == [left[0]];
      LeftsAppend(head, rest);
      assert left == [left[0]] + left[1..];
    }
  }

  lemma LeftsAppend<L, R>(a: seq<(L, Option<R>)>, b: seq<(L, Option<R>)>)
    ensures Lefts(a + b) == Lefts(a) + Lefts(b)
  {
  }

  /**
   * A duplicated right-hand key is observable: if some left row matches two or
   * more right rows, the join has strictly more rows than its left side.
   */
  lemma FanOutGrowsJoin<L, R, K>(left: seq<L>, lkey: L -> K, right: seq<R>, rkey: R -> K, i: nat, a: nat, b: nat)
    requires i < |left| && a < b < |right| && rkey(right[a]) == lkey(left[i]) && rkey(right[b]) == lkey(left[i])
    ensures |LeftJoin(left, lkey, right, rkey)| > |left|
  {
    TwoMatches(lkey(left[i]), right, rkey, a, b);
    ManyMatchesGrowJoin(left, lkey, right, rkey, i);
  }

  lemma {:induction false} ManyMatchesGrowJoin<L, R, K>(left: seq<L>, lkey: L -> K, right: seq<R>, rkey: R -> K, i: nat)
    requires i < |left| && |Matches(lkey(left[i]), right, rkey)| >= 2
    ensures |LeftJoin(left, lkey, right, rkey)| > |left|
  {
    if i == 0 {
      JoinAtLeastLeft(left[1..], lkey, right, rkey);
    } else {
      ManyMatchesGrowJoin(left[1..], lkey, right, rkey, i - 1);
    }
  }

  /**
   * Every output row is a left row paired with a right row of equal key, or
   * with nothing when no right row has that key.
   */
  lemma {:induction false} JoinSound<L, R, K>(left: seq<L>, lkey: L -> K, right: seq<R>, rkey: R -> K)
    ensures forall p :: p in LeftJoin(left, lkey, right, rkey) ==>
      && p.0 in left
      && (p.1.Some? ==> p.1.value in right && rkey(p.1.value) == lkey(p.0))
      && (p.1.None? ==> forall r :: r in right ==> rkey(r) != lkey(p.0))
  {
    if left != [] {
      JoinSound(left[1..], lkey, right, rkey);
      var ms := Matches(lkey(left[0]), right, rkey);
      forall p | p in Expand(left[0], ms)
        ensures p.0 == left[0]
        ensures p.1.Some? ==> p.1.value in right && rkey(p.1.value) == lkey(p.0)
        ensures p.1.None? ==> forall r :: r in right ==> rkey(r) != lkey(p.0)
      {
        if ms == [] {
          forall r | r in right ensures rkey(r) != lkey(left[0]) {
            var j :| 0 <= j < |right| && right[j] == r;
          }
        } else {
          var j :| 0 <= j < |ms| && Expand(left[0], ms)[j] == p;
          assert ms[j] in ms;
        }
      }
    }
  }

  /**
   * Every left row appears in the output: paired with each right row of equal
   * key, and paired with nothing when no right row has its key.
   */
  lemma {:induction false} JoinComplete<L, R, K>(left: seq<L>, lkey: L -> K, right: seq<R>, rkey: R -> K)
    ensures forall i, j :: 0 <= i < |left| && 0 <= j < |right| && rkey(right[j]) == lkey(left[i]) ==>
      (left[i], Some(right[j])) in LeftJoin(left, lkey, right, rkey)
    ensures forall i :: 0 <= i < |left| && (forall r :: r in right ==> rkey(r) != lkey(left[i])) ==>
      (left[i], None) in LeftJoin(left, lkey, right, rkey)
    ensures forall l :: l in left ==> l in Lefts(LeftJoin(left, lkey, right, rkey))
  {
    if left != [] {
      JoinComplete(left[1..], lkey, right, rkey);
      var out := LeftJoin(left, lkey, right, rkey);
      var ms := Matches(lkey(left[0]), right, rkey);
      var head := Expand(left[0], ms);
      var tail := LeftJoin(left[1..], lkey, right, rkey);
      assert out == head + tail;
      forall i, j | 0 <= i < |left| && 0 <= j < |right| && rkey(right[j]) == lkey(left[i])
        ensures (left[i], Some(right[j])) in out
      {
        if i == 0 {
          assert right[j] in ms;
          var k :| 0 <= k < |ms| && ms[k] == right[j];
          assert head[k] == (left[0], Some(right[j]));
        } else {
          assert left[i] == left[1..][i - 1];
        }
      }
      forall i | 0 <= i < |left| && (forall r :: r in right ==> rkey(r) != lkey(left[i]))
        ensures (left[i], None) in out
      {
        if i == 0 {
          NoMatches(lkey(left[0]), right, rkey);
          assert head[0] == (left[0], None);
        } else {
          assert left[i] == left[1..][i - 1];
        }
      }
      forall l | l in left ensures l in Lefts(out) {
        assert head[0].0 == left[0];
        assert Lefts(out)[0] == left[0];
        if l != left[0] {
          assert l in left[1..];
          var k :| 0 <= k < |tail| && Lefts(tail)[k] == l;
          assert Lefts(out)[|head| + k] == l;
        }
      }
    }
  }
}
