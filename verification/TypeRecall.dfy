/** The vision scorer (scripts/takeoff-vision/score-cubicasa.ts): the area of a room's polygon and the
    share of ground-truth rooms that the model's answer accounts for. */
module TypeRecall {
  import opened Basics

  // ---------- matching ----------

  function IndexOf(pool: seq<string>, bucket: string): int {
    if pool == [] then -1
    else if pool[0] == bucket then 0
    else var rest := IndexOf(pool[1..], bucket); if rest < 0 then -1 else rest + 1
  }

  lemma {:induction false} IndexOfFinds(pool: seq<string>, bucket: string)
    ensures var i := IndexOf(pool, bucket); if i < 0 then bucket !in pool else i < |pool| && pool[i] == bucket
  {
    if pool != [] && pool[0] != bucket {
      IndexOfFinds(pool[1..], bucket);
    }
  }

  /** How many rooms can be paired with answers of the same bucket. */
  function Common(truth: seq<string>, answers: seq<string>): multiset<string> {
    multiset(truth) * multiset(answers)
  }

  lemma StepTakes(pool: multiset<string>, rest: multiset<string>, seen: multiset<string>, g: string, answers: multiset<string>)
    requires pool == answers - seen * answers && pool == rest + multiset{g}
    ensures (seen + multiset{g}) * answers == seen * answers + multiset{g}
    ensures rest == answers - (seen + multiset{g}) * answers
  {
    forall x ensures ((seen + multiset{g}) * answers)[x] == (seen * answers + multiset{g})[x] {
      assert pool[x] == (rest + multiset{g})[x];
    }
    forall x ensures rest[x] == (answers - (seen * answers + multiset{g}))[x] {
      assert pool[x] == (rest + multiset{g})[x];
    }
  }

  lemma RemoveOne(pool: seq<string>, i: nat)
    requires i < |pool|
    ensures multiset(pool) == multiset(pool[..i] + pool[i + 1..]) + multiset{pool[i]}
  {
    assert pool == pool[..i] + [pool[i]] + pool[i + 1..];
  }

  /** What the loop keeps after `n` ground-truth buckets: the pool lacks what they have taken. */
  predicate Paired(pool: seq<string>, matched: nat, truth: seq<string>, n: nat, answers: seq<string>)
    requires n <= |truth|
  {
    var taken := Common(truth[..n], answers);
    multiset(pool) == multiset(answers) - taken && matched == |taken|
  }

  lemma PairTaken(pool: seq<string>, matched: nat, truth: seq<string>, n: nat, answers: seq<string>, i: nat)
    requires n < |truth| && Paired(pool, matched, truth, n, answers) && i < |pool| && pool[i] == truth[n]
    ensures Paired(pool[..i] + pool[i + 1..], matched + 1, truth, n + 1, answers)
  {
    RemoveOne(pool, i);
    assert truth[..n + 1] == truth[..n] + [truth[n]];
    StepTakes(multiset(pool), multiset(pool[..i] + pool[i + 1..]), multiset(truth[..n]), truth[n], multiset(answers));
  }

  lemma PairSkipped(pool: seq<string>, matched: nat, truth: seq<string>, n: nat, answers: seq<string>)
    requires n < |truth| && Paired(pool, matched, truth, n, answers) && truth[n] !in pool
    ensures Paired(pool, matched, truth, n + 1, answers)
  {
    assert truth[..n + 1] == truth[..n] + [truth[n]];
  }

  /** The greedy loop: each ground-truth bucket takes the first equal answer out of the pool. */
  method CountMatched(truth: seq<string>, answers: seq<string>) returns (matched: nat)
    ensures matched == |Common(truth, answers)|
  {
    var pool := answers;
    matched := 0;
    for n := 0 to |truth|
      invariant Paired(pool, matched, truth, n, answers)
    {
      IndexOfFinds(pool, truth[n]);
      var i := IndexOf(pool, truth[n]);
      if i >= 0 {
        PairTaken(pool, matched, truth, n, answers, i);
        matched := matched + 1;
        pool := pool[..i] + pool[i + 1..];
      } else {
        PairSkipped(pool, matched, truth, n, answers);
      }
    }
    assert truth[..|truth|] == truth;
  }

  function Recall(truth: seq<string>, answers: seq<string>): real {
    if |truth| > 0 then |Common(truth, answers)| as real / |truth| as real else 0.0
  }

  method TypeRecallOf(truth: seq<string>, answers: seq<string>) returns (recall: real)
    ensures recall == Recall(truth, answers)
  {
    var matched := CountMatched(truth, answers);
    recall := if |truth| > 0 then matched as real / |truth| as real else 0.0;
  }

  /** The order of either list makes no difference. */
  lemma OrderIrrelevant(truth: seq<string>, answers: seq<string>, truth': seq<string>, answers': seq<string>)
    requires multiset(truth) == multiset(truth') && multiset(answers) == multiset(answers')
    ensures Recall(truth, answers) == Recall(truth', answers')
  {
    assert |multiset(truth)| == |truth| && |multiset(truth')| == |truth'|;
  }

  lemma CommonSize(a: multiset<string>, b: multiset<string>)
    ensures |a * b| <= |a|
    ensures |a * b| == |a| <==> a <= b
  {
    assert a == a * b + (a - b);
    if |a * b| == |a| {
      assert |a - b| == 0;
      forall x ensures a[x] <= b[x] {
        assert x !in a - b;
      }
    }
    if a <= b {
      assert a * b == a;
    }
  }

  /** Recall is a share; it is 1 exactly when the answers cover all rooms, and 0 when they share none. */
  lemma RecallIsAShare(truth: seq<string>, answers: seq<string>)
    ensures 0.0 <= Recall(truth, answers) <= 1.0
    ensures Recall(truth, answers) == 1.0 <==> truth != [] && multiset(truth) <= multiset(answers)
    ensures Recall(truth, answers) == 0.0 <==> multiset(truth) !! multiset(answers)
  {
    CommonSize(multiset(truth), multiset(answers));
    var n := |Common(truth, answers)|;
    if |truth| > 0 {
      Share(n, |truth|);
    }
    if n == 0 {
      assert forall x :: x !in Common(truth, answers);
      assert forall x :: x in multiset(truth) && x in multiset(answers) ==> x in Common(truth, answers);
    }
    if multiset(truth) !! multiset(answers) {
      assert Common(truth, answers) == multiset{};
    }
  }

  lemma Share(n: nat, d: nat)
    requires 0 < d && n <= d
    ensures 0.0 <= n as real / d as real <= 1.0
    ensures n as real / d as real == 1.0 <==> n == d
    ensures n as real / d as real == 0.0 <==> n == 0
  {
  }

  /** A further answer never lowers the recall. */
  lemma MoreAnswersHelp(truth: seq<string>, answers: seq<string>, more: string)
    ensures Recall(truth, answers) <= Recall(truth, answers + [more])
  {
    var t, a := multiset(truth), multiset(answers);
    assert multiset(answers + [more]) == a + multiset{more};
    CommonGrows(t, a, more);
    if |truth| > 0 {
      SharesCompare(|t * a|, |t * (a + multiset{more})|, |truth|);
    }
  }

  lemma CommonGrows(t: multiset<string>, a: multiset<string>, more: string)
    ensures |t * a| <= |t * (a + multiset{more})|
  {
    var all := t * (a + multiset{more});
    assert all == t * a + (all - t * a);
  }

  lemma SharesCompare(m: nat, n: nat, d: nat)
    requires m <= n && 0 < d
    ensures m as real / d as real <= n as real / d as real
  {
  }

  // ---------- which rooms can be recalled at all ----------

  const INTERIOR := {
    "bedroom", "bath", "kitchen", "livingroom", "diningroom", "entry", "hall", "closet", "draughtlobby", "utility", "storage", "wc",
    "sauna"}

  const AI_TO_BUCKET := map[
    "bedroom" := "bedroom", "bathroom" := "bath", "kitchen" := "kitchen", "living" := "livingroom", "dining" := "diningroom",
    "entry" := "entry", "hall" := "hall", "closet" := "closet", "utility" := "utility", "other" := "other"]

  /** Interior rooms that no answer is ever mapped to. */
  const UNANSWERABLE := {"storage", "wc", "sauna"}

  function GtBucket(room: string): string {
    if room == "draughtlobby" then "entry" else room
  }

  /** The buckets of a plan's interior rooms. */
  function GtBuckets(rooms: seq<string>): seq<string> {
    if rooms == [] then [] else (if rooms[0] in INTERIOR then [GtBucket(rooms[0])] else []) + GtBuckets(rooms[1..])
  }

  /** The bucket of an answered type, in lower case. */
  function AiBucket(kind: string): string {
    if kind in AI_TO_BUCKET then AI_TO_BUCKET[kind] else "other"
  }

  function AiBuckets(kinds: seq<string>): seq<string> {
    if kinds == [] then [] else [AiBucket(kinds[0])] + AiBuckets(kinds[1..])
  }

  lemma {:induction false} AnswersAvoid(kinds: seq<string>)
    ensures forall bucket :: bucket in AiBuckets(kinds) ==> bucket !in UNANSWERABLE
  {
    if kinds != [] {
      AnswersAvoid(kinds[1..]);
    }
  }

  lemma {:induction false} TruthKeeps(rooms: seq<string>)
    ensures forall room :: room in rooms && room in UNANSWERABLE ==> room in GtBuckets(rooms)
    ensures forall bucket :: bucket in GtBuckets(rooms) ==> bucket in INTERIOR && bucket != "draughtlobby"
    ensures forall bucket :: bucket in GtBuckets(rooms) && bucket in UNANSWERABLE ==> bucket in rooms
  {
    if rooms != [] {
      TruthKeeps(rooms[1..]);
      var room := rooms[0];
      assert "draughtlobby"[0] == 'd' && "entry"[0] == 'e';
      assert "storage"[0] == 's' == "sauna"[0] && "wc"[0] == 'w';
    }
  }

  function AnswerFor(bucket: string): string {
    if bucket == "bath" then "bathroom" else if bucket == "livingroom" then "living" else if bucket == "diningroom" then "dining" else bucket
  }

  function AnswersFor(buckets: seq<string>): seq<string> {
    if buckets == [] then [] else [AnswerFor(buckets[0])] + AnswersFor(buckets[1..])
  }

  lemma AnswerForFits(bucket: string)
    requires bucket in INTERIOR && bucket != "draughtlobby" && bucket !in UNANSWERABLE
    ensures AiBucket(AnswerFor(bucket)) == bucket
  {
  }

  lemma {:induction false} AnswersForFit(buckets: seq<string>)
    requires forall bucket :: bucket in buckets ==> bucket in INTERIOR && bucket != "draughtlobby" && bucket !in UNANSWERABLE
    ensures AiBuckets(AnswersFor(buckets)) == buckets
  {
    if buckets != [] {
      AnswerForFits(buckets[0]);
      AnswersForFit(buckets[1..]);
    }
  }

  ghost predicate FullyRecallable(rooms: seq<string>) {
    exists kinds: seq<string> :: Recall(GtBuckets(rooms), AiBuckets(kinds)) == 1.0
  }

  /** A plan can be recalled in full exactly when it has an interior room and no storage, wc or sauna. */
  lemma FullRecallPossible(rooms: seq<string>)
    ensures FullyRecallable(rooms) <==> GtBuckets(rooms) != [] && forall room :: room in rooms ==> room !in UNANSWERABLE
  {
    if FullyRecallable(rooms) {
      RecalledIsAnswerable(rooms);
    }
    if GtBuckets(rooms) != [] && forall room :: room in rooms ==> room !in UNANSWERABLE {
      AnswerableIsRecalled(rooms);
    }
  }

  lemma RecalledIsAnswerable(rooms: seq<string>)
    requires FullyRecallable(rooms)
    ensures GtBuckets(rooms) != [] && forall room :: room in rooms ==> room !in UNANSWERABLE
  {
    var truth := GtBuckets(rooms);
    var kinds: seq<string> :| Recall(truth, AiBuckets(kinds)) == 1.0;
    RecallIsAShare(truth, AiBuckets(kinds));
    SubsetMembers(truth, AiBuckets(kinds));
    TruthKeeps(rooms);
    AnswersAvoid(kinds);
  }

  lemma SubsetMembers(a: seq<string>, b: seq<string>)
    requires multiset(a) <= multiset(b)
    ensures forall x :: x in a ==> x in b
  {
    assert forall x :: x in a ==> x in multiset(a) && x in multiset(b);
  }

  lemma AnswerableIsRecalled(rooms: seq<string>)
    requires GtBuckets(rooms) != [] && forall room :: room in rooms ==> room !in UNANSWERABLE
    ensures FullyRecallable(rooms)
  {
    var truth := GtBuckets(rooms);
    TruthKeeps(rooms);
    AnswersForFit(truth);
    RecallIsAShare(truth, AiBuckets(AnswersFor(truth)));
  }

  // ---------- the area of a polygon ----------

  datatype Point = Point(x: real, y: real)

  function Cross(a: Point, b: Point): real {
    a.x * b.y - b.x * a.y
  }

  /** The edges along an open path. */
  function Path(points: seq<Point>): real {
    if |points| < 2 then 0.0 else Cross(points[0], points[1]) + Path(points[1..])
  }

  /** Twice the signed area: the path, closed. */
  function Twice(points: seq<Point>): real {
    if points == [] then 0.0 else Path(points) + Cross(points[|points| - 1], points[0])
  }

  function Area(points: seq<Point>): real {
    Abs(Twice(points) / 2.0)
  }

  lemma {:induction false} PathAppend(points: seq<Point>, last: Point)
    requires points != []
    ensures Path(points + [last]) == Path(points) + Cross(points[|points| - 1], last)
  {
    if |points| == 1 {
      assert (points + [last])[1..] == [last];
    } else {
      assert (points + [last])[1..] == points[1..] + [last];
      PathAppend(points[1..], last);
    }
  }

  /** What the sum has come to before the edge that starts at corner `i`. */
  function Edges(points: seq<Point>, i: nat): real
    requires i <= |points|
  {
    if i < |points| then Path(points[..i + 1]) else Twice(points)
  }

  lemma EdgeAdds(points: seq<Point>, i: nat)
    requires i < |points|
    ensures Edges(points, i + 1) == Edges(points, i) + Cross(points[i], if i + 1 < |points| then points[i + 1] else points[0])
  {
    if i + 1 < |points| {
      assert points[..i + 2] == points[..i + 1] + [points[i + 1]];
      PathAppend(points[..i + 1], points[i + 1]);
    } else {
      assert points[..i + 1] == points;
    }
  }

  lemma NextCorner(i: nat, n: nat)
    requires i < n
    ensures (i + 1) % n == if i + 1 < n then i + 1 else 0
  {
  }

  /** The shoelace loop over the corners, each with its successor, the last with the first. */
  method PolygonArea(points: seq<Point>) returns (area: real)
    ensures area == Area(points)
  {
    var s := 0.0;
    for i := 0 to |points|
      invariant s == Edges(points, i)
    {
      var a, b := points[i], points[(i + 1) % |points|];
      NextCorner(i, |points|);
      EdgeAdds(points, i);
      s := s + (a.x * b.y - b.x * a.y);
    }
    area := Abs(s / 2.0);
  }

  /** Which corner comes first makes no difference. */
  lemma StartIrrelevant(points: seq<Point>)
    requires points != []
    ensures Twice(points[1..] + [points[0]]) == Twice(points)
  {
    var first, rest := points[0], points[1..];
    if rest == [] {
      assert rest + [first] == points;
    } else {
      PathAppend(rest, first);
    }
  }

  function Rotated(points: seq<Point>, n: nat): seq<Point>
    decreases n
  {
    if n == 0 || points == [] then points else Rotated(points[1..] + [points[0]], n - 1)
  }

  lemma {:induction false} RotationKeepsArea(points: seq<Point>, n: nat)
    ensures Area(Rotated(points, n)) == Area(points)
    decreases n
  {
    if n > 0 && points != [] {
      StartIrrelevant(points);
      RotationKeepsArea(points[1..] + [points[0]], n - 1);
    }
  }

  function Reversed(points: seq<Point>): seq<Point> {
    if points == [] then [] else Reversed(points[1..]) + [points[0]]
  }

  lemma {:induction false} ReversedEnds(points: seq<Point>)
    ensures |Reversed(points)| == |points|
    ensures points != [] ==> Reversed(points)[0] == points[|points| - 1] && Reversed(points)[|points| - 1] == points[0]
  {
    if points != [] {
      ReversedEnds(points[1..]);
    }
  }

  lemma {:induction false} ReversedPath(points: seq<Point>)
    ensures Path(Reversed(points)) == -Path(points)
  {
    if |points| >= 2 {
      ReversedPath(points[1..]);
      ReversedEnds(points[1..]);
      PathAppend(Reversed(points[1..]), points[0]);
    } else if |points| == 1 {
      assert Reversed(points[1..]) == [];
    }
  }

  /** Clockwise or not, the area is the same. */
  lemma DirectionIrrelevant(points: seq<Point>)
    ensures Twice(Reversed(points)) == -Twice(points)
    ensures Area(Reversed(points)) == Area(points)
  {
    ReversedPath(points);
    ReversedEnds(points);
  }

  function Moved(points: seq<Point>, dx: real, dy: real): seq<Point> {
    seq(|points|, i requires 0 <= i < |points| => Point(points[i].x + dx, points[i].y + dy))
  }

  lemma {:induction false} PathMoved(points: seq<Point>, dx: real, dy: real)
    requires points != []
    ensures var last := points[|points| - 1];
      Path(Moved(points, dx, dy)) == Path(points) + dx * (last.y - points[0].y) - dy * (last.x - points[0].x)
  {
    if |points| >= 2 {
      PathMoved(points[1..], dx, dy);
      assert Moved(points, dx, dy)[1..] == Moved(points[1..], dx, dy);
      var last := points[|points| - 1];
      Telescope(dx, last.y, points[1].y, points[0].y);
      Telescope(dy, last.x, points[1].x, points[0].x);
    }
  }

  lemma Telescope(d: real, a: real, b: real, c: real)
    ensures d * (a - b) + d * (b - c) == d * (a - c)
  {
  }

  /** Where the origin lies makes no difference. */
  lemma PlaceIrrelevant(points: seq<Point>, dx: real, dy: real)
    ensures Area(Moved(points, dx, dy)) == Area(points)
  {
    TwiceMoved(points, dx, dy);
  }

  lemma TwiceMoved(points: seq<Point>, dx: real, dy: real)
    ensures Twice(Moved(points, dx, dy)) == Twice(points)
  {
    if points != [] {
      var first, last := points[0], points[|points| - 1];
      PathMoved(points, dx, dy);
    }
  }

  /** An upright rectangle has the area of a rectangle. */
  lemma RectangleArea(x: real, y: real, width: real, height: real)
    requires width >= 0.0 && height >= 0.0
    ensures Area([Point(x, y), Point(x + width, y), Point(x + width, y + height), Point(x, y + height)]) == width * height
  {
    var origin := [Point(0.0, 0.0), Point(width, 0.0), Point(width, height), Point(0.0, height)];
    PlaceIrrelevant(origin, x, y);
    assert Moved(origin, x, y) == [Point(x, y), Point(x + width, y), Point(x + width, y + height), Point(x, y + height)];
    assert origin[1..] == [origin[1], origin[2], origin[3]] && origin[1..][1..] == [origin[2], origin[3]];
    assert origin[1..][1..][1..] == [origin[3]];
    assert Path(origin[1..][1..]) == Cross(origin[2], origin[3]);
    assert Path(origin[1..]) == Cross(origin[1], origin[2]) + Path(origin[1..][1..]);
    assert Cross(origin[0], origin[1]) == 0.0 && Cross(origin[3], origin[0]) == 0.0;
    assert Cross(origin[1], origin[2]) == width * height && Cross(origin[2], origin[3]) == width * height;
    assert Twice(origin) == 2.0 * (width * height);
  }
}
