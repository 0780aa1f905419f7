/**
 * The object-grasp work queue and the bounded search for a collision-free approach,
 * as pure specifications for the `WristCameraMovement` class.
 *
 * A pair (o, g) names grasp child g of prefab o. Setup lists every pair object-major;
 * iteration k (the counter starts at -1 and is incremented first, so the first
 * iteration is k = 0) pops the queue front when k % n == 0 and k != 0, with
 * n = numIterationsPerGrasp, and then executes the front pair.
 */
module PairQueue {

  type Pair = (nat, nat)

  /** The pairs of one object: one per grasp child, in child order. */
  function GraspsOf(obj: nat, graspCount: nat): (ps: seq<Pair>)
    ensures |ps| == graspCount
    ensures forall j :: 0 <= j < graspCount ==> ps[j] == (obj, j)
  {
    seq(graspCount, j => (obj, j))
  }

  function Total(counts: seq<nat>): nat
    decreases |counts|
  {
    if |counts| == 0 then 0 else Total(counts[..|counts| - 1]) + counts[|counts| - 1]
  }

  /** Every (object, grasp) pair, object-major and grasp-minor, for objects with these child counts. */
  function PairsFrom(counts: seq<nat>): (ps: seq<Pair>)
    ensures |ps| == Total(counts)
    decreases |counts|
  {
    if |counts| == 0 then []
    else PairsFrom(counts[..|counts| - 1]) + GraspsOf(|counts| - 1, counts[|counts| - 1])
  }

  /** A pair is listed exactly when it names an existing object and one of its grasp children. */
  lemma {:induction false} PairsFromMembership(counts: seq<nat>, p: Pair)
    ensures p in PairsFrom(counts) <==> p.0 < |counts| && p.1 < counts[p.0]
    decreases |counts|
  {
    if |counts| > 0 {
      var last := |counts| - 1;
      PairsFromMembership(counts[..last], p);
      var ps := GraspsOf(last, counts[last]);
      if p.0 == last && p.1 < counts[last] {
        assert ps[p.1] == p;
      }
      assert p in ps <==> p.0 == last && p.1 < counts[last];
    }
  }

  /** (o, g) strictly precedes (o', g') in object-major, grasp-minor order. */
  predicate Before(p: Pair, q: Pair) {
    p.0 < q.0 || (p.0 == q.0 && p.1 < q.1)
  }

  /** The listing is strictly increasing in object-major order, so no pair is listed twice. */
  lemma {:induction false} PairsFromOrdered(counts: seq<nat>, i: nat, j: nat)
    requires i < j < |PairsFrom(counts)|
    ensures Before(PairsFrom(counts)[i], PairsFrom(counts)[j])
    decreases |counts|
  {
    var last := |counts| - 1;
    var front := PairsFrom(counts[..last]);
    var ps := PairsFrom(counts);
    if j < |front| {
      PairsFromOrdered(counts[..last], i, j);
    } else if i >= |front| {
      assert ps[i] == (last, i - |front|) && ps[j] == (last, j - |front|);
    } else {
      assert ps[i] == front[i] && ps[j] == (last, j - |front|);
      PairsFromMembership(counts[..last], front[i]);
    }
  }

  /** The queue after the start of iteration k: the front is popped when k % n == 0 and k != 0. */
  function QueueAt(pairs: seq<Pair>, n: int, k: nat): seq<Pair>
    requires n != 0
    decreases k
  {
    if k == 0 then pairs
    else
      var q := QueueAt(pairs, n, k - 1);
      if k % n == 0 && |q| > 0 then q[1..] else q
  }

  /** The queue only ever holds listed pairs. */
  lemma {:induction false} QueueAtElements(pairs: seq<Pair>, n: int, k: nat, p: Pair)
    requires n != 0
    ensures p in QueueAt(pairs, n, k) ==> p in pairs
    decreases k
  {
    if k > 0 {
      QueueAtElements(pairs, n, k - 1, p);
      var q := QueueAt(pairs, n, k - 1);
      if |q| > 0 && p in q[1..] {
        var j :| 0 <= j < |q[1..]| && q[1..][j] == p;
        assert q[j + 1] == p;
      }
    }
  }

  function Abs(n: int): nat { if n < 0 then -n else n }

  /** Multiplying by a non-negative factor keeps the order. */
  lemma MulMonotone(a: int, b: int, m: int)
    requires m >= 0
    ensures a <= b ==> a * m <= b * m
  {
    if a <= b {
      assert (b - a) * m >= 0;
      assert (b - a) * m == b * m - a * m;
    }
  }

  /** Quotient and remainder are the only pair with k == q * m + r and 0 <= r < m. */
  lemma DivModUnique(k: int, m: int, q: int, r: int)
    requires m > 0 && 0 <= r < m && k == q * m + r
    ensures k / m == q && k % m == r
  {
    var q0, r0 := k / m, k % m;
    assert k == q0 * m + r0 && 0 <= r0 < m;
    MulMonotone(q0 + 1, q, m);
    MulMonotone(q + 1, q0, m);
    assert (q0 + 1) * m == q0 * m + m;
    assert (q + 1) * m == q * m + m;
  }

  /** For a non-negative k, the remainder by a negative n is the remainder by |n|. */
  lemma ModNegative(k: nat, n: int)
    requires n != 0
    ensures k % n == k % Abs(n)
  {
    if n < 0 {
      var q, r := k / n, k % n;
      assert k == q * n + r && 0 <= r < -n;
      assert q * n == (-q) * (-n);
      DivModUnique(k, -n, -q, r);
    }
  }

  /** Dividing by m, stepping from k-1 to k advances the quotient exactly at multiples of m. */
  lemma DivStep(k: nat, m: nat)
    requires k > 0 && m > 0
    ensures k % m == 0 ==> k / m == (k - 1) / m + 1
    ensures k % m != 0 ==> k / m == (k - 1) / m
  {
    var q, r := (k - 1) / m, (k - 1) % m;
    assert k - 1 == q * m + r && 0 <= r < m;
    if r == m - 1 {
      assert k == (q + 1) * m + 0;
      DivModUnique(k, m, q + 1, 0);
    } else {
      DivModUnique(k, m, q, r + 1);
    }
  }

  /** While the list lasts, iteration k executes the pair listed at index k / |n|. */
  lemma {:induction false} QueueAtIsSuffix(pairs: seq<Pair>, n: int, k: nat)
    requires n != 0 && k / Abs(n) <= |pairs|
    ensures QueueAt(pairs, n, k) == pairs[k / Abs(n)..]
    decreases k
  {
    if k > 0 {
      var m := Abs(n);
      DivStep(k, m);
      ModNegative(k, n);
      QueueAtIsSuffix(pairs, n, k - 1);
    }
  }

  /** Pair j is executed by exactly the n iterations j*n .. j*n+n-1. */
  lemma PairOfIteration(n: nat, k: nat, j: nat)
    requires n > 0
    ensures k / n == j <==> j * n <= k < j * n + n
  {
    assert k == (k / n) * n + k % n;
    if j * n <= k < j * n + n {
      DivModUnique(k, n, j, k - j * n);
    }
    assert (k / n) * n + n == (k / n + 1) * n;
  }

  /**
   * When the setup check passes (pairs x n equals the number of iterations), no iteration
   * runs out of pairs: the queue front always exists.
   */
  lemma CheckedSetupNeverExhausts(pairs: seq<Pair>, n: nat, k: nat)
    requires n > 0 && k < |pairs| * n
    ensures k / n < |pairs|
    ensures |QueueAt(pairs, n, k)| > 0 && QueueAt(pairs, n, k)[0] == pairs[k / n]
  {
    QuotientBelow(|pairs|, n, k);
    FrontOfSuffix(pairs, n, k);
  }

  /** With a non-negative n, the queue front is the pair listed at index k / n. */
  lemma FrontOfSuffix(pairs: seq<Pair>, n: nat, k: nat)
    requires n > 0 && k / n < |pairs|
    ensures |QueueAt(pairs, n, k)| > 0 && QueueAt(pairs, n, k)[0] == pairs[k / n]
  {
    var j := k / n;
    assert k / Abs(n) == j;
    QueueAtIsSuffix(pairs, n, k);
    assert QueueAt(pairs, n, k) == pairs[j..];
  }

  lemma QuotientBelow(p: nat, n: nat, k: nat)
    requires n > 0 && k < p * n
    ensures k / n < p
  {
    var q := k / n;
    assert q * n <= k by {
      assert k == q * n + k % n;
    }
    MulMonotone(p, q, n);
  }

  // ---------------------------------------------------------------------------
  // The bounded search for an approach that hits the intended grasp

  const MaxAttempts: nat := 1000

  /**
   * What the line cast from the camera to the target reports: nothing, a collider with its
   * grandparent object, or a collider lacking a parent or a grandparent, whose lookup of
   * `transform.parent.gameObject.transform.parent` dereferences null.
   */
  datatype Hit = NoHit | HitCollider(name: string, grandparent: string) | HitUnparented(name: string)

  /** A hit is accepted when it is the grasp itself, on the object in the scene. */
  predicate Accepts(h: Hit, objName: string, graspName: string) {
    h.HitCollider? && h.name == graspName && h.grandparent == objName
  }

  /**
   * How the retry loop ends: at an accepted attempt, by the NullReferenceException of a hit
   * on a collider without grandparent, or by running out of attempts.
   */
  datatype SearchEnd = Accepted | Unparented | GaveUp

  /**
   * The retry loop's outcome: the final value of the loop index (the attempt that ended it,
   * or 1000), how many resamples of the scene were made, how many casts hit nothing, and how
   * it ended.
   */
  datatype SearchResult = SearchResult(attempts: nat, resamples: nat, noHits: nat, end: SearchEnd)

  /**
   * The retry loop from attempt i, with g resamples and h empty casts so far. `cast(g, i)` is
   * the line cast of attempt i in the scene produced by g resamples. A hit on anything else
   * resamples the scene; a cast that hits nothing is logged and the loop goes on unchanged;
   * a hit on a collider without grandparent throws.
   */
  function Search(cast: (nat, nat) -> Hit, objName: string, graspName: string, i: nat, g: nat, h: nat): SearchResult
    requires i <= MaxAttempts
    decreases MaxAttempts - i
  {
    if i == MaxAttempts then SearchResult(i, g, h, GaveUp)
    else if Accepts(cast(g, i), objName, graspName) then SearchResult(i, g, h, Accepted)
    else if cast(g, i).HitUnparented? then SearchResult(i, g, h, Unparented)
    else if cast(g, i).NoHit? then Search(cast, objName, graspName, i + 1, g, h + 1)
    else Search(cast, objName, graspName, i + 1, g + 1, h)
  }

  function RunSearch(cast: (nat, nat) -> Hit, objName: string, graspName: string): SearchResult {
    Search(cast, objName, graspName, 0, 0, 0)
  }

  /**
   * The search ends between its starting attempt and 1000, and every attempt it rejects is
   * counted exactly once: as a resample or as a cast that hit nothing.
   */
  lemma {:induction false} SearchCounts(cast: (nat, nat) -> Hit, objName: string, graspName: string, i: nat, g: nat, h: nat)
    requires i <= MaxAttempts
    ensures var r := Search(cast, objName, graspName, i, g, h);
            i <= r.attempts <= MaxAttempts && r.resamples + r.noHits + i == g + h + r.attempts
    decreases MaxAttempts - i
  {
    if i < MaxAttempts && !Accepts(cast(g, i), objName, graspName) && !cast(g, i).HitUnparented? {
      if cast(g, i).NoHit? {
        SearchCounts(cast, objName, graspName, i + 1, g, h + 1);
      } else {
        SearchCounts(cast, objName, graspName, i + 1, g + 1, h);
      }
    }
  }

  /**
   * The retry loop of `OnIterationStart`, on the pair's names: it ends at the first accepted
   * attempt, at a hit on a collider without grandparent (which throws), or after 1000
   * attempts. Returns the final loop index, the number of resamples, the number of casts
   * that hit nothing and how the loop ended.
   */
  method SearchApproach(cast: (nat, nat) -> Hit, objName: string, graspName: string)
    returns (i: nat, g: nat, h: nat, end: SearchEnd)
    ensures SearchResult(i, g, h, end) == RunSearch(cast, objName, graspName)
    ensures i <= MaxAttempts
  {
    i, g, h, end := 0, 0, 0, GaveUp;
    while i < MaxAttempts
      invariant i <= MaxAttempts && end == GaveUp
      invariant Search(cast, objName, graspName, i, g, h) == RunSearch(cast, objName, graspName)
    {
      var hit := cast(g, i);
      if hit.NoHit? {
        SearchStep(cast, objName, graspName, i, g, h);
        h := h + 1;
      } else if hit.HitUnparented? {
        end := Unparented;
        return;
      } else if Accepts(hit, objName, graspName) {
        end := Accepted;
        SearchStop(cast, objName, graspName, i, g, h);
        return;
      } else {
        SearchStep(cast, objName, graspName, i, g, h);
        g := g + 1;
      }
      i := i + 1;
    }
  }

  /** A rejected attempt hands the search on to the next one, with the counters it updated. */
  lemma SearchStep(cast: (nat, nat) -> Hit, objName: string, graspName: string, i: nat, g: nat, h: nat)
    requires i < MaxAttempts && !Accepts(cast(g, i), objName, graspName) && !cast(g, i).HitUnparented?
    ensures Search(cast, objName, graspName, i, g, h)
            == if cast(g, i).NoHit? then Search(cast, objName, graspName, i + 1, g, h + 1)
               else Search(cast, objName, graspName, i + 1, g + 1, h)
  {
  }

  /** An accepted attempt ends the search where it stands. */
  lemma SearchStop(cast: (nat, nat) -> Hit, objName: string, graspName: string, i: nat, g: nat, h: nat)
    requires i < MaxAttempts && Accepts(cast(g, i), objName, graspName)
    ensures Search(cast, objName, graspName, i, g, h) == SearchResult(i, g, h, Accepted)
  {
  }

  /**
   * Attempts i, i+1, ... up to 1000 are all rejected, each one in the scene left by the
   * resamples before it.
   */
  predicate RejectsFrom(cast: (nat, nat) -> Hit, objName: string, graspName: string, i: nat, g: nat)
    requires i <= MaxAttempts
    decreases MaxAttempts - i
  {
    i == MaxAttempts ||
    (!Accepts(cast(g, i), objName, graspName) && !cast(g, i).HitUnparented? &&
     RejectsFrom(cast, objName, graspName, i + 1, if cast(g, i).NoHit? then g else g + 1))
  }

  /**
   * The loop ends as accepted only at an accepted attempt, ends by the exception only at a
   * hit without grandparent, and gives up, with the loop index at 1000, exactly when every
   * attempt was rejected.
   */
  lemma {:induction false} SearchOutcome(cast: (nat, nat) -> Hit, objName: string, graspName: string, i: nat, g: nat, h: nat)
    requires i <= MaxAttempts
    ensures var r := Search(cast, objName, graspName, i, g, h);
            (r.end == Accepted ==> r.attempts < MaxAttempts && Accepts(cast(r.resamples, r.attempts), objName, graspName)) &&
            (r.end == Unparented ==> r.attempts < MaxAttempts && cast(r.resamples, r.attempts).HitUnparented?) &&
            (r.end == GaveUp <==> r.attempts == MaxAttempts)
    ensures Search(cast, objName, graspName, i, g, h).end == GaveUp
        <==> RejectsFrom(cast, objName, graspName, i, g)
    decreases MaxAttempts - i
  {
    if i < MaxAttempts && !Accepts(cast(g, i), objName, graspName) && !cast(g, i).HitUnparented? {
      if cast(g, i).NoHit? {
        SearchOutcome(cast, objName, graspName, i + 1, g, h + 1);
      } else {
        SearchOutcome(cast, objName, graspName, i + 1, g + 1, h);
      }
    }
  }

  /** An accepted first cast ends the search at once, without resampling. */
  lemma FirstCastAccepted(cast: (nat, nat) -> Hit, objName: string, graspName: string)
    requires Accepts(cast(0, 0), objName, graspName)
    ensures RunSearch(cast, objName, graspName) == SearchResult(0, 0, 0, Accepted)
  {
  }

  /** If every cast hits something else, all 1000 attempts are spent, each followed by a resample. */
  lemma {:induction false} AlwaysWrongHit(cast: (nat, nat) -> Hit, objName: string, graspName: string, i: nat, g: nat)
    requires i <= MaxAttempts
    requires forall a, b :: cast(a, b).HitCollider? && !Accepts(cast(a, b), objName, graspName)
    ensures Search(cast, objName, graspName, i, g, 0) == SearchResult(MaxAttempts, g + MaxAttempts - i, 0, GaveUp)
    decreases MaxAttempts - i
  {
    if i < MaxAttempts {
      AlwaysWrongHit(cast, objName, graspName, i + 1, g + 1);
    }
  }

  /**
   * A scene in which the cast hits nothing is never resampled: when the cast depends on the
   * scene alone, the loop logs 1000 empty casts and gives up.
   */
  lemma {:induction false} NoHitIsNeverRecovered(cast: (nat, nat) -> Hit, objName: string, graspName: string, i: nat, g: nat, h: nat)
    requires i <= MaxAttempts
    requires forall b :: cast(g, b).NoHit?
    ensures Search(cast, objName, graspName, i, g, h) == SearchResult(MaxAttempts, g, h + MaxAttempts - i, GaveUp)
    decreases MaxAttempts - i
  {
    if i < MaxAttempts {
      NoHitIsNeverRecovered(cast, objName, graspName, i + 1, g, h + 1);
    }
  }

  /** j wrong hits in a row cost j attempts and j resamples. */
  lemma {:induction false} WrongHitsFirst(cast: (nat, nat) -> Hit, objName: string, graspName: string, j: nat)
    requires j <= MaxAttempts
    requires forall b: nat :: b < j ==> cast(b, b).HitCollider? && !Accepts(cast(b, b), objName, graspName)
    ensures RunSearch(cast, objName, graspName) == Search(cast, objName, graspName, j, j, 0)
    decreases j
  {
    if j > 0 {
      var b := j - 1;
      WrongHitsFirst(cast, objName, graspName, b);
      assert cast(b, b).HitCollider? && !Accepts(cast(b, b), objName, graspName);
      assert Search(cast, objName, graspName, b, b, 0) == Search(cast, objName, graspName, j, j, 0);
    }
  }

  /** Five wrong hits and then the grasp: the sixth cast is accepted, after five resamples. */
  lemma FiveWrongHitsThenGrasp(cast: (nat, nat) -> Hit, objName: string, graspName: string)
    requires forall b: nat :: b < 5 ==> cast(b, b).HitCollider? && !Accepts(cast(b, b), objName, graspName)
    requires Accepts(cast(5, 5), objName, graspName)
    ensures RunSearch(cast, objName, graspName) == SearchResult(5, 5, 0, Accepted)
  {
    WrongHitsFirst(cast, objName, graspName, 5);
  }

  /**
   * A hit on a collider without grandparent, after j wrong hits, ends the search by the
   * exception at attempt j, with the scene resampled j times and nothing more logged.
   */
  lemma UnparentedHitThrows(cast: (nat, nat) -> Hit, objName: string, graspName: string, j: nat)
    requires j < MaxAttempts
    requires forall b: nat :: b < j ==> cast(b, b).HitCollider? && !Accepts(cast(b, b), objName, graspName)
    requires cast(j, j).HitUnparented?
    ensures RunSearch(cast, objName, graspName) == SearchResult(j, j, 0, Unparented)
  {
    WrongHitsFirst(cast, objName, graspName, j);
  }
}
