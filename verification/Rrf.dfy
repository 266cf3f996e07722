/** Reciprocal rank fusion of the two legs of a memory search. */
module Rrf {
  const RRF_K: nat := 60

  predicate Distinct(s: seq<nat>) {
    forall i, j :: 0 <= i < j < |s| ==> s[i] != s[j]
  }

  /** What one appearance is worth, by its rank counted from 1. */
  type Weights = nat -> real

  /** A better rank is worth more, and every rank is worth something. */
  ghost predicate Falling(w: Weights) {
    forall r: nat, s: nat :: r < s ==> w(r) > w(s) > 0.0
  }

  /** `1.0 / (_RRF_K + rank)` */
  function Reciprocal(rank: nat): real {
    1.0 / (RRF_K + rank) as real
  }

  /** The sum over the appearances of the id in one leg. */
  function LegScore(w: Weights, leg: seq<nat>, id: nat): real {
    if leg == [] then 0.0
    else
      var n := |leg| - 1;
      LegScore(w, leg[..n], id) + if leg[n] == id then w(n + 1) else 0.0
  }

  function Score(w: Weights, ft: seq<nat>, vec: seq<nat>, id: nat): real {
    LegScore(w, ft, id) + LegScore(w, vec, id)
  }

  /** The ids in the order in which they first appear: the key order of the `scores` dictionary. */
  function Keys(ids: seq<nat>): (keys: seq<nat>)
    ensures forall x :: x in keys <==> x in ids
    ensures Distinct(keys)
    ensures Distinct(ids) ==> keys == ids
  {
    if ids == [] then []
    else
      var n := |ids| - 1;
      var before := Keys(ids[..n]);
      assert ids == ids[..n] + [ids[n]];
      if ids[n] in before then before else before + [ids[n]]
  }

  function Scores(w: Weights, ft: seq<nat>, vec: seq<nat>): map<nat, real> {
    map id | id in ft + vec :: Score(w, ft, vec, id)
  }

  function At(scores: map<nat, real>, id: nat): real {
    if id in scores then scores[id] else 0.0
  }

  // ------------------------------------------------- `sorted(..., reverse=True)`

  /** Puts the id behind every id that scores at least as much. */
  function Insert(sorted: seq<nat>, id: nat, scores: map<nat, real>): (r: seq<nat>)
    ensures |r| == |sorted| + 1 && multiset(r) == multiset(sorted) + multiset{id}
  {
    if sorted == [] then [id]
    else
      var n := |sorted| - 1;
      assert sorted == sorted[..n] + [sorted[n]];
      if At(scores, sorted[n]) >= At(scores, id) then sorted + [id] else Insert(sorted[..n], id, scores) + [sorted[n]]
  }

  function SortDesc(keys: seq<nat>, scores: map<nat, real>): (sorted: seq<nat>)
    ensures |sorted| == |keys| && multiset(sorted) == multiset(keys)
  {
    if keys == [] then []
    else
      var n := |keys| - 1;
      assert keys == keys[..n] + [keys[n]];
      Insert(SortDesc(keys[..n], scores), keys[n], scores)
  }

  /** `s[:limit]`, where a negative limit counts from the end. */
  function Slice(s: seq<nat>, limit: int): seq<nat> {
    if limit >= |s| then s
    else if limit >= 0 then s[..limit]
    else if |s| + limit >= 0 then s[..|s| + limit]
    else []
  }

  function Merged(w: Weights, ft: seq<nat>, vec: seq<nat>): seq<nat> {
    SortDesc(Keys(ft + vec), Scores(w, ft, vec))
  }

  function Top(w: Weights, ft: seq<nat>, vec: seq<nat>, limit: int): seq<nat> {
    Slice(Merged(w, ft, vec), limit)
  }

  lemma {:induction false} AbsentScoresNothing(w: Weights, leg: seq<nat>, id: nat)
    requires id !in leg
    ensures LegScore(w, leg, id) == 0.0
  {
    if leg != [] { AbsentScoresNothing(w, leg[..|leg| - 1], id); }
  }

  lemma LegScoreNext(w: Weights, leg: seq<nat>, i: nat, id: nat)
    requires i < |leg|
    ensures LegScore(w, leg[..i + 1], id) == LegScore(w, leg[..i], id) + if leg[i] == id then w(i + 1) else 0.0
  {
    assert leg[..i + 1][..i] == leg[..i];
  }

  /** The dictionary after the ids read so far: its keys, in order of insertion. */
  ghost predicate Keyed(keys: seq<nat>, scores: map<nat, real>, seen: seq<nat>) {
    keys == Keys(seen) && forall id :: id in scores <==> id in seen
  }

  /** The dictionary after some of both legs: the score of every id. */
  ghost predicate Scored(w: Weights, scores: map<nat, real>, ft: seq<nat>, vec: seq<nat>) {
    forall id :: At(scores, id) == LegScore(w, ft, id) + LegScore(w, vec, id)
  }

  lemma KeyedNext(keys: seq<nat>, scores: map<nat, real>, seen: seq<nat>, id: nat, score: real)
    requires Keyed(keys, scores, seen)
    ensures Keyed(if id in scores then keys else keys + [id], scores[id := score], seen + [id])
  {
    assert (seen + [id])[..|seen|] == seen;
  }

  lemma KeyedNextRow(keys: seq<nat>, scores: map<nat, real>, ft: seq<nat>, vec: seq<nat>, i: nat, score: real)
    requires i < |vec| && Keyed(keys, scores, ft + vec[..i])
    ensures Keyed(if vec[i] in scores then keys else keys + [vec[i]], scores[vec[i] := score], ft + vec[..i + 1])
  {
    assert ft + vec[..i + 1] == ft + vec[..i] + [vec[i]];
    KeyedNext(keys, scores, ft + vec[..i], vec[i], score);
  }

  lemma ScoredNextRow(w: Weights, scores: map<nat, real>, ft: seq<nat>, vec: seq<nat>, i: nat)
    requires i < |vec| && Scored(w, scores, ft, vec[..i])
    ensures Scored(w, scores[vec[i] := At(scores, vec[i]) + w(i + 1)], ft, vec[..i + 1])
  {
    forall id
      ensures
        At(scores[vec[i] := At(scores, vec[i]) + w(i + 1)], id) == LegScore(w, ft, id) + LegScore(w, vec[..i + 1], id)
    {
      LegScoreNext(w, vec, i, id);
    }
  }

  lemma NothingScored(w: Weights, none: seq<nat>)
    requires none == []
    ensures Scored(w, map[], none, none)
  {
  }

  /** An empty leg adds nothing, on either side. */
  lemma LegsSwap(w: Weights, scores: map<nat, real>, ft: seq<nat>, none: seq<nat>)
    requires none == [] && Scored(w, scores, none, ft)
    ensures Scored(w, scores, ft, none)
  {
  }

  lemma FusedIsScores(w: Weights, keys: seq<nat>, scores: map<nat, real>, ft: seq<nat>, vec: seq<nat>)
    requires Keyed(keys, scores, ft + vec) && Scored(w, scores, ft, vec)
    ensures scores == Scores(w, ft, vec)
  {
    forall id | id in scores
      ensures scores[id] == Score(w, ft, vec, id)
    {
      assert At(scores, id) == Score(w, ft, vec, id);
    }
  }

  /** `scores[row[0]] += 1.0 / (_RRF_K + rank)`, on a dictionary that starts every key at zero. */
  method AddRow(w: Weights, keys: seq<nat>, scores: map<nat, real>, ghost ft: seq<nat>, vec: seq<nat>, i: nat)
    returns (keys': seq<nat>, scores': map<nat, real>)
    requires i < |vec| && Keyed(keys, scores, ft + vec[..i]) && Scored(w, scores, ft, vec[..i])
    ensures Keyed(keys', scores', ft + vec[..i + 1]) && Scored(w, scores', ft, vec[..i + 1])
  {
    ScoredNextRow(w, scores, ft, vec, i);
    KeyedNextRow(keys, scores, ft, vec, i, At(scores, vec[i]) + w(i + 1));
    keys' := if vec[i] in scores then keys else keys + [vec[i]];
    scores' := scores[vec[i] := At(scores, vec[i]) + w(i + 1)];
  }

  /** The loop over one leg, on top of what another leg has left in the dictionary. */
  method FuseLeg(w: Weights, keys: seq<nat>, scores: map<nat, real>, ghost ft: seq<nat>, vec: seq<nat>)
    returns (keys': seq<nat>, scores': map<nat, real>)
    requires Keyed(keys, scores, ft) && Scored(w, scores, ft, vec[..0])
    ensures Keyed(keys', scores', ft + vec) && Scored(w, scores', ft, vec)
  {
    keys', scores' := keys, scores;
    assert ft + vec[..0] == ft;
    for i := 0 to |vec|
      invariant Keyed(keys', scores', ft + vec[..i])
      invariant Scored(w, scores', ft, vec[..i])
    {
      keys', scores' := AddRow(w, keys', scores', ft, vec, i);
    }
    assert vec[..|vec|] == vec;
  }

  /** The best of the fused ids, under any weights. */
  method MergeBy(w: Weights, ft: seq<nat>, vec: seq<nat>, limit: int) returns (top: seq<nat>)
    ensures top == Top(w, ft, vec, limit)
  {
    ghost var none := ft[..0];
    NothingScored(w, none);
    var keys, scores := FuseLeg(w, [], map[], none, ft);
    assert none + ft == ft && ft[..0] == none && vec[..0] == none;
    LegsSwap(w, scores, ft, none);
    keys, scores := FuseLeg(w, keys, scores, ft, vec);
    FusedIsScores(w, keys, scores, ft, vec);
    top := Slice(SortDesc(keys, scores), limit);
  }

  /** The merge of `recall`. */
  method Merge(ft: seq<nat>, vec: seq<nat>, limit: int) returns (top: seq<nat>)
    ensures top == Top(Reciprocal, ft, vec, limit)
  {
    top := MergeBy(Reciprocal, ft, vec, limit);
  }

  // ------------------------------------------------------------- the sort is a sort

  /** The first stands before the second. */
  ghost predicate Before(s: seq<nat>, a: nat, b: nat) {
    exists i, j :: 0 <= i < j < |s| && s[i] == a && s[j] == b
  }

  /** A better score, or an equal one and an earlier key. */
  ghost predicate Better(keys: seq<nat>, scores: map<nat, real>, a: nat, b: nat) {
    At(scores, a) > At(scores, b) || (At(scores, a) == At(scores, b) && Before(keys, a, b))
  }

  ghost predicate Ranked(sorted: seq<nat>, keys: seq<nat>, scores: map<nat, real>) {
    forall i, j :: 0 <= i < j < |sorted| ==> Better(keys, scores, sorted[i], sorted[j])
  }

  lemma BetterGrows(keys: seq<nat>, scores: map<nat, real>, id: nat, a: nat, b: nat)
    requires Better(keys, scores, a, b)
    ensures Better(keys + [id], scores, a, b)
  {
    if At(scores, a) == At(scores, b) {
      var i, j :| 0 <= i < j < |keys| && keys[i] == a && keys[j] == b;
      var longer := keys + [id];
      assert longer[i] == a && longer[j] == b;
    }
  }

  lemma EarlierIsBetter(keys: seq<nat>, scores: map<nat, real>, id: nat, a: nat)
    requires a in keys && At(scores, a) >= At(scores, id)
    ensures Better(keys + [id], scores, a, id)
  {
    var i :| 0 <= i < |keys| && keys[i] == a;
    var longer := keys + [id];
    assert longer[i] == a && longer[|keys|] == id;
  }

  lemma RankedNext(front: seq<nat>, last: nat, keys: seq<nat>, scores: map<nat, real>)
    requires Ranked(front, keys, scores)
    requires forall x | x in front :: Better(keys, scores, x, last)
    ensures Ranked(front + [last], keys, scores)
  {
  }

  lemma {:induction false} InsertRanks(sorted: seq<nat>, keys: seq<nat>, id: nat, scores: map<nat, real>)
    requires forall x | x in sorted :: x in keys
    requires Ranked(sorted, keys, scores)
    ensures Ranked(Insert(sorted, id, scores), keys + [id], scores)
  {
    if sorted != [] {
      var n := |sorted| - 1;
      var last := sorted[n];
      if At(scores, last) >= At(scores, id) {
        forall i, j | 0 <= i < j < |sorted|
          ensures Better(keys + [id], scores, sorted[i], sorted[j])
        {
          BetterGrows(keys, scores, id, sorted[i], sorted[j]);
        }
        forall i | 0 <= i < |sorted|
          ensures Better(keys + [id], scores, sorted[i], id)
        {
          if i < n { assert Better(keys, scores, sorted[i], last); }
          EarlierIsBetter(keys, scores, id, sorted[i]);
        }
        RankedNext(sorted, id, keys + [id], scores);
      } else {
        InsertRanks(sorted[..n], keys, id, scores);
        var front := Insert(sorted[..n], id, scores);
        forall x | x in front
          ensures Better(keys + [id], scores, x, last)
        {
          assert x in multiset(front);
          if x != id {
            assert x in sorted[..n];
            var k :| 0 <= k < n && sorted[k] == x;
            BetterGrows(keys, scores, id, sorted[k], last);
          }
        }
        RankedNext(front, last, keys + [id], scores);
      }
    }
  }

  lemma SortKeeps(keys: seq<nat>, scores: map<nat, real>)
    ensures forall x :: x in SortDesc(keys, scores) <==> x in keys
  {
    var sorted := SortDesc(keys, scores);
    assert forall x :: x in sorted <==> x in multiset(sorted);
    assert forall x :: x in keys <==> x in multiset(keys);
  }

  /** The result holds the keys, ranked; a stable sort in descending order has no other result. */
  lemma {:induction false} SortRanks(keys: seq<nat>, scores: map<nat, real>)
    ensures Ranked(SortDesc(keys, scores), keys, scores)
  {
    if keys != [] {
      var n := |keys| - 1;
      SortRanks(keys[..n], scores);
      SortKeeps(keys[..n], scores);
      InsertRanks(SortDesc(keys[..n], scores), keys[..n], keys[n], scores);
      assert keys == keys[..n] + [keys[n]];
    }
  }

  // ------------------------------------------------------------------- main results

  /** The weights of the code are an instance of the results below. */
  lemma ReciprocalFalls()
    ensures Falling(Reciprocal)
  {
    forall r: nat, s: nat | r < s
      ensures Reciprocal(r) > Reciprocal(s) > 0.0
    {
      var x, y := (RRF_K + r) as real, (RRF_K + s) as real;
      assert 0.0 < x < y;
      assert 1.0 / x - 1.0 / y == (y - x) / (x * y);
    }
  }

  lemma {:induction false} LegScoreAt(w: Weights, leg: seq<nat>, i: nat)
    requires Distinct(leg) && i < |leg|
    ensures LegScore(w, leg, leg[i]) == w(i + 1)
  {
    var n := |leg| - 1;
    if i < n {
      LegScoreAt(w, leg[..n], i);
    } else {
      AbsentScoresNothing(w, leg[..n], leg[n]);
    }
  }

  /** Wherever the second appears in the leg, the first appears ahead of it. */
  ghost predicate Ahead(leg: seq<nat>, a: nat, b: nat) {
    forall j :: 0 <= j < |leg| && leg[j] == b ==> exists i :: 0 <= i < j && leg[i] == a
  }

  lemma AheadScoresMore(w: Weights, leg: seq<nat>, a: nat, b: nat)
    requires Falling(w) && Distinct(leg) && a != b && Ahead(leg, a, b)
    ensures LegScore(w, leg, a) >= LegScore(w, leg, b)
    ensures a in leg ==> LegScore(w, leg, a) > LegScore(w, leg, b)
  {
    if b in leg {
      var j :| 0 <= j < |leg| && leg[j] == b;
      var i :| 0 <= i < j && leg[i] == a;
      LegScoreAt(w, leg, i);
      LegScoreAt(w, leg, j);
      assert w(i + 1) > w(j + 1);
    } else {
      AbsentScoresNothing(w, leg, b);
      if a in leg {
        var i :| 0 <= i < |leg| && leg[i] == a;
        LegScoreAt(w, leg, i);
        assert w(i + 1) > w(i + 2);
      } else {
        AbsentScoresNothing(w, leg, a);
      }
    }
  }

  lemma HigherIsBefore(sorted: seq<nat>, keys: seq<nat>, scores: map<nat, real>, a: nat, b: nat)
    requires Ranked(sorted, keys, scores) && a in sorted && b in sorted && At(scores, a) > At(scores, b)
    ensures Before(sorted, a, b)
  {
    var i :| 0 <= i < |sorted| && sorted[i] == a;
    var j :| 0 <= j < |sorted| && sorted[j] == b;
    assert !Better(keys, scores, b, a);
  }

  lemma AheadIsMergedAhead(w: Weights, ft: seq<nat>, vec: seq<nat>, a: nat, b: nat)
    requires Falling(w) && Distinct(ft) && Distinct(vec) && a != b
    requires Ahead(ft, a, b) && Ahead(vec, a, b) && b in ft + vec
    ensures Before(Merged(w, ft, vec), a, b)
  {
    AheadScoresMore(w, ft, a, b);
    AheadScoresMore(w, vec, a, b);
    var scores := Scores(w, ft, vec);
    assert a in ft + vec && At(scores, a) > At(scores, b);
    SortRanks(Keys(ft + vec), scores);
    SortKeeps(Keys(ft + vec), scores);
    HigherIsBefore(Merged(w, ft, vec), Keys(ft + vec), scores, a, b);
  }

  lemma PrefixKeepsBefore(sorted: seq<nat>, n: nat, a: nat, b: nat)
    requires Distinct(sorted) && n <= |sorted| && Before(sorted, a, b) && b in sorted[..n]
    ensures Before(sorted[..n], a, b)
  {
    var i, j :| 0 <= i < j < |sorted| && sorted[i] == a && sorted[j] == b;
    var k :| 0 <= k < n && sorted[k] == b;
    assert k == j && sorted[..n][i] == a && sorted[..n][j] == b;
  }

  /** An id ahead of another in both legs is ahead of it in the top list, whatever the limit keeps. */
  lemma {:induction false} AheadStaysAhead(w: Weights, ft: seq<nat>, vec: seq<nat>, limit: int, a: nat, b: nat)
    requires Falling(w) && Distinct(ft) && Distinct(vec) && a != b
    requires Ahead(ft, a, b) && Ahead(vec, a, b)
    ensures b in Top(w, ft, vec, limit) ==> Before(Top(w, ft, vec, limit), a, b)
  {
    if b in Top(w, ft, vec, limit) {
      var merged, n := Merged(w, ft, vec), |Top(w, ft, vec, limit)|;
      assert merged[..n] == Top(w, ft, vec, limit);
      SortKeeps(Keys(ft + vec), Scores(w, ft, vec));
      assert b in merged;
      AheadIsMergedAhead(w, ft, vec, a, b);
      SortKeepsDistinct(Keys(ft + vec), Scores(w, ft, vec));
      PrefixKeepsBefore(merged, n, a, b);
    }
  }

  lemma SortKeepsDistinct(keys: seq<nat>, scores: map<nat, real>)
    requires Distinct(keys)
    ensures Distinct(SortDesc(keys, scores))
  {
    SortRanks(keys, scores);
    var sorted := SortDesc(keys, scores);
    forall i, j | 0 <= i < j < |sorted|
      ensures sorted[i] != sorted[j]
    {
      assert Better(keys, scores, sorted[i], sorted[j]);
    }
  }

  lemma PrefixIsBest(sorted: seq<nat>, keys: seq<nat>, scores: map<nat, real>, n: nat, kept: nat, out: nat)
    requires Ranked(sorted, keys, scores) && n <= |sorted|
    requires kept in sorted[..n] && out in sorted && out !in sorted[..n]
    ensures At(scores, kept) >= At(scores, out)
  {
    var i :| 0 <= i < n && sorted[i] == kept;
    var j :| 0 <= j < |sorted| && sorted[j] == out;
    assert forall k :: 0 <= k < n ==> sorted[k] == sorted[..n][k];
    assert Better(keys, scores, sorted[i], sorted[j]);
  }

  lemma MergedPrefixIsBest(w: Weights, ft: seq<nat>, vec: seq<nat>, n: nat, kept: nat, out: nat)
    requires n <= |Merged(w, ft, vec)|
    requires kept in Merged(w, ft, vec)[..n] && out in ft + vec && out !in Merged(w, ft, vec)[..n]
    ensures Score(w, ft, vec, kept) >= Score(w, ft, vec, out)
  {
    var scores := Scores(w, ft, vec);
    SortRanks(Keys(ft + vec), scores);
    SortKeeps(Keys(ft + vec), scores);
    PrefixIsBest(Merged(w, ft, vec), Keys(ft + vec), scores, n, kept, out);
    assert kept in Merged(w, ft, vec);
  }

  /** Every id of the two legs is ranked once. */
  lemma EachIsRankedOnce(w: Weights, ft: seq<nat>, vec: seq<nat>, id: nat)
    ensures multiset(Merged(w, ft, vec))[id] == if id in ft + vec then 1 else 0
  {
    DistinctOnce(Keys(ft + vec), id);
  }

  lemma {:induction false} DistinctOnce(keys: seq<nat>, id: nat)
    requires Distinct(keys)
    ensures multiset(keys)[id] == if id in keys then 1 else 0
  {
    if keys != [] {
      var front, last := keys[..|keys| - 1], keys[|keys| - 1];
      assert keys == front + [last];
      DistinctOnce(front, id);
    }
  }

  /** The result is the front of the ranking, `limit` long if it can be; a negative limit counts from the end. */
  lemma TopIsTheFront(w: Weights, ft: seq<nat>, vec: seq<nat>, limit: int)
    ensures
      var ranked, top := Merged(w, ft, vec), Top(w, ft, vec, limit);
      && top <= ranked
      && (limit >= 0 ==> |top| == if limit < |ranked| then limit else |ranked|)
      && (limit < 0 ==> |top| == if |ranked| + limit > 0 then |ranked| + limit else 0)
  {
  }

  /** What an id scores: 1 / (61 + i) for place i in one leg, and the same for its place in the other. */
  lemma ScoreIsTheSum(ft: seq<nat>, vec: seq<nat>, i: nat, j: nat)
    requires Distinct(ft) && Distinct(vec) && i < |ft| && j < |vec|
    ensures vec[j] == ft[i] ==> Score(Reciprocal, ft, vec, ft[i]) == 1.0 / (61 + i) as real + 1.0 / (61 + j) as real
    ensures ft[i] !in vec ==> Score(Reciprocal, ft, vec, ft[i]) == 1.0 / (61 + i) as real
    ensures vec[j] !in ft ==> Score(Reciprocal, ft, vec, vec[j]) == 1.0 / (61 + j) as real
  {
    LegScoreAt(Reciprocal, ft, i);
    LegScoreAt(Reciprocal, vec, j);
    if ft[i] !in vec { AbsentScoresNothing(Reciprocal, vec, ft[i]); }
    if vec[j] !in ft { AbsentScoresNothing(Reciprocal, ft, vec[j]); }
  }

  /** No id left out scores more than one that is kept. */
  lemma {:induction false} TopIsBest(w: Weights, ft: seq<nat>, vec: seq<nat>, limit: int, kept: nat, out: nat)
    requires kept in Top(w, ft, vec, limit) && out in ft + vec && out !in Top(w, ft, vec, limit)
    ensures Score(w, ft, vec, kept) >= Score(w, ft, vec, out)
  {
    var n := |Top(w, ft, vec, limit)|;
    assert Merged(w, ft, vec)[..n] == Top(w, ft, vec, limit);
    MergedPrefixIsBest(w, ft, vec, n, kept, out);
  }

  lemma InsertedLast(sorted: seq<nat>, id: nat, scores: map<nat, real>)
    requires sorted != [] ==> At(scores, sorted[|sorted| - 1]) >= At(scores, id)
    ensures Insert(sorted, id, scores) == sorted + [id]
  {
  }

  ghost predicate FallingAlong(keys: seq<nat>, scores: map<nat, real>) {
    forall i, j :: 0 <= i < j < |keys| ==> At(scores, keys[i]) > At(scores, keys[j])
  }

  lemma FallingPrefix(front: seq<nat>, last: nat, scores: map<nat, real>)
    requires FallingAlong(front + [last], scores)
    ensures FallingAlong(front, scores)
    ensures front != [] ==> At(scores, front[|front| - 1]) > At(scores, last)
  {
    var keys := front + [last];
    assert forall i :: 0 <= i < |front| ==> keys[i] == front[i];
    assert keys[|front|] == last;
  }

  lemma SortNext(front: seq<nat>, last: nat, scores: map<nat, real>)
    ensures SortDesc(front + [last], scores) == Insert(SortDesc(front, scores), last, scores)
  {
    assert (front + [last])[..|front|] == front;
  }

  /** Keys whose scores fall already are left in their order. */
  lemma {:induction false} FallingStays(keys: seq<nat>, scores: map<nat, real>)
    requires FallingAlong(keys, scores)
    ensures SortDesc(keys, scores) == keys
  {
    if keys != [] {
      var front, last := keys[..|keys| - 1], keys[|keys| - 1];
      assert keys == front + [last];
      FallingPrefix(front, last, scores);
      FallingStays(front, scores);
      SortNext(front, last, scores);
      InsertedLast(front, last, scores);
    }
  }

  /** The scores fall along the one leg there is. */
  lemma LegFalls(w: Weights, ft: seq<nat>, vec: seq<nat>, leg: seq<nat>)
    requires Falling(w) && Distinct(leg) && ((ft == leg && vec == []) || (ft == [] && vec == leg))
    ensures FallingAlong(leg, Scores(w, ft, vec))
  {
    var scores := Scores(w, ft, vec);
    forall i, j | 0 <= i < j < |leg|
      ensures At(scores, leg[i]) > At(scores, leg[j])
    {
      LegScoreAt(w, leg, i);
      LegScoreAt(w, leg, j);
      assert w(i + 1) > w(j + 1);
    }
  }

  lemma OneLegIsMerged(w: Weights, ft: seq<nat>, vec: seq<nat>, leg: seq<nat>)
    requires Falling(w) && Distinct(leg) && ((ft == leg && vec == []) || (ft == [] && vec == leg))
    ensures Merged(w, ft, vec) == leg
  {
    assert ft + vec == leg;
    LegFalls(w, ft, vec, leg);
    FallingStays(leg, Scores(w, ft, vec));
  }

  /** With one leg empty, the top ids are the first `limit` of the other, in their order. */
  lemma {:induction false} OneLegIsKept(w: Weights, leg: seq<nat>, none: seq<nat>, limit: int)
    requires Falling(w) && Distinct(leg) && none == []
    ensures Top(w, leg, none, limit) == Slice(leg, limit) == Top(w, none, leg, limit)
  {
    OneLegIsMerged(w, leg, none, leg);
    OneLegIsMerged(w, none, leg, leg);
  }
}
