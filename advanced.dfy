/** The reading bookkeeping of AdvancedVL53L1XReader in vl53l1x_advanced.py:
    a history of the last `history_size` positive readings (a bounded
    deque), the running minimum and maximum, the measurement and error
    counters, the velocity window over the history, and the distance band
    classifier. The sensor itself is a library object; what it does is
    given to the methods as their arguments. */
module Advanced {
  import opened Optional
  import opened Bands

  // ---------------------------------------------------------------------
  // The bounded deque

  /** The last `n` elements of `s` (all of them when there are fewer). */
  function Last(s: seq<int>, n: nat): (r: seq<int>)
    ensures |r| == if |s| < n then |s| else n
  {
    if |s| <= n then s else s[|s| - n..]
  }

  /** `deque.append(x)` on a deque with `maxlen`: once full, the oldest
      element is dropped; with `maxlen == 0` nothing is kept. */
  function Append(history: seq<int>, maxlen: nat, x: int): seq<int>
    requires |history| <= maxlen
  {
    if |history| < maxlen then history + [x]
    else if maxlen == 0 then []
    else history[1..] + [x]
  }

  /** A deque that holds the last `maxlen` of a stream still holds the last
      `maxlen` of it after an append; in particular it never holds more
      than `maxlen` elements, and a full one loses exactly its oldest. */
  lemma AppendKeepsLast(stream: seq<int>, maxlen: nat, x: int)
    ensures |Append(Last(stream, maxlen), maxlen, x)| <= maxlen
    ensures Append(Last(stream, maxlen), maxlen, x) == Last(stream + [x], maxlen)
  {
    var h := Last(stream, maxlen);
    var all := stream + [x];
    if |h| < maxlen {
      assert h == stream;
    } else if maxlen > 0 {
      assert h[1..] + [x] == all[|all| - maxlen..];
    }
  }

  // ---------------------------------------------------------------------
  // read_with_stats

  /** What the sensor library's get_distance did: returned a value, or raised. */
  datatype Reading = Distance(value: int) | Raised

  /** The library calls of initialize, by where they stopped: the
      constructor raised, a later call (open, the timing settings,
      start_ranging) raised, or all succeeded. */
  datatype InitOutcome = ConstructorRaised | LaterCallRaised | Started

  /** The integer part of the dictionary read_with_stats returns: empty
      while the history is empty, otherwise the current reading, the
      running minimum and maximum and the two counters. */
  datatype Stats =
    | NoStats
    | Stats(current: int, min: int, max: int, count: nat, errors: nat)

  predicate AllPositive(s: seq<int>)
  {
    forall i | 0 <= i < |s| :: s[i] > 0
  }

  /** `m` is the minimum of `s`, None (`float('inf')`) while `s` is empty. */
  predicate MinOf(m: Option<int>, s: seq<int>)
  {
    && (m.None? <==> s == [])
    && (m.Some? ==> m.value in s && forall i | 0 <= i < |s| :: m.value <= s[i])
  }

  /** `m` is the maximum of `s`, 0 while `s` is empty. */
  predicate MaxOf(m: int, s: seq<int>)
  {
    && (s == [] ==> m == 0)
    && (s != [] ==> m in s)
    && (forall i | 0 <= i < |s| :: s[i] <= m)
  }

  /** `min(self.min_distance, distance)`. */
  function NewMin(m: Option<int>, d: int): Option<int>
  {
    if m.None? || d < m.value then Some(d) else m
  }

  /** `max(self.max_distance, distance)`. */
  function NewMax(m: int, d: int): int
  {
    if m < d then d else m
  }

  /** The running minimum stays the minimum of all readings added. */
  lemma MinStep(m: Option<int>, s: seq<int>, d: int)
    requires MinOf(m, s)
    ensures MinOf(NewMin(m, d), s + [d])
  {
    var t := s + [d];
    assert d == t[|s|];
    forall i | 0 <= i < |s| ensures t[i] == s[i] {
    }
    if m.Some? {
      assert m.value in t;
    }
  }

  /** The running maximum, which starts at 0, stays the maximum of the
      readings added as long as they are positive. */
  lemma MaxStep(m: int, s: seq<int>, d: int)
    requires MaxOf(m, s) && d > 0
    ensures MaxOf(NewMax(m, d), s + [d])
  {
    var t := s + [d];
    assert d == t[|s|];
    forall i | 0 <= i < |s| ensures t[i] == s[i] {
    }
    if s != [] {
      assert m in t;
    }
  }

  class Reader {
    const historySize: nat
    /** `self.sensor` is set. */
    var hasSensor: bool
    var history: seq<int>
    var measurementCount: nat
    var errorCount: nat
    /** `self.min_distance`; None stands for `float('inf')`. */
    var minDistance: Option<int>
    var maxDistance: int
    /** Every positive reading ever recorded, including those the deque has dropped. */
    ghost var positives: seq<int>

    /** The history is the tail of the positive readings, and the minimum
        and maximum are attained by, and bound, all of them. */
    ghost predicate Valid()
      reads this
    {
      && AllPositive(positives)
      && history == Last(positives, historySize)
      && MinOf(minDistance, positives)
      && MaxOf(maxDistance, positives)
    }

    constructor (historySize: nat)
      ensures Valid()
      ensures this.historySize == historySize && !hasSensor
      ensures history == [] && measurementCount == 0 && errorCount == 0
      ensures minDistance == None && maxDistance == 0 && positives == []
    {
      this.historySize := historySize;
      hasSensor := false;
      history := [];
      measurementCount, errorCount := 0, 0;
      minDistance, maxDistance := None, 0;
      positives := [];
    }

    /** initialize: True iff every library call succeeded. The sensor
        object is kept as soon as its constructor returned, so a False
        result can still leave one set. */
    method Initialize(outcome: InitOutcome) returns (ok: bool)
      modifies this`hasSensor
      ensures hasSensor == (old(hasSensor) || outcome != ConstructorRaised)
      ensures ok <==> outcome == Started
    {
      if outcome != ConstructorRaised {
        hasSensor := true;
      }
      ok := outcome == Started;
    }

    /** read_with_stats on what the sensor's get_distance did. */
    method ReadWithStats(reading: Reading) returns (stats: Option<Stats>)
      requires Valid()
      modifies this
      ensures Valid()
      ensures hasSensor == old(hasSensor)
      ensures !hasSensor ==> stats == None && unchanged(this)
      ensures hasSensor && reading.Raised? ==>
        && stats == None
        && errorCount == old(errorCount) + 1
        && measurementCount == old(measurementCount)
        && history == old(history) && positives == old(positives)
        && minDistance == old(minDistance) && maxDistance == old(maxDistance)
      ensures hasSensor && reading.Distance? ==>
        && measurementCount == old(measurementCount) + 1
        && errorCount == old(errorCount)
        && positives == old(positives) + (if reading.value > 0 then [reading.value] else [])
        && (reading.value <= 0 ==>
              (history == old(history) && minDistance == old(minDistance) && maxDistance == old(maxDistance)))
        && (reading.value > 0 ==>
              && history == Append(old(history), historySize, reading.value)
              && minDistance == NewMin(old(minDistance), reading.value)
              && maxDistance == NewMax(old(maxDistance), reading.value))
        && stats.Some?
        && (stats.value.NoStats? <==> history == [])
        && (stats.value.Stats? ==>
              && stats.value.current == reading.value
              && minDistance == Some(stats.value.min)
              && stats.value.max == maxDistance
              && stats.value.count == measurementCount
              && stats.value.errors == errorCount)
    {
      if !hasSensor {
        return None;
      }
      match reading
      case Raised =>
        errorCount := errorCount + 1;
        return None;
      case Distance(d) =>
        measurementCount := measurementCount + 1;
        if d > 0 {
          Record(d);
        }
        if |history| > 0 {
          stats := Some(Stats(d, minDistance.value, maxDistance, measurementCount, errorCount));
        } else {
          stats := Some(NoStats);
        }
    }

    /** The part of read_with_stats that a positive reading adds: the deque
        append and the running minimum and maximum. */
    method Record(d: int)
      requires Valid() && d > 0
      modifies this`history, this`minDistance, this`maxDistance, this`positives
      ensures Valid()
      ensures positives == old(positives) + [d]
      ensures history == Append(old(history), historySize, d)
      ensures minDistance == NewMin(old(minDistance), d) && maxDistance == NewMax(old(maxDistance), d)
    {
      AppendKeepsLast(positives, historySize, d);
      MinStep(minDistance, positives, d);
      MaxStep(maxDistance, positives, d);
      history := Append(history, historySize, d);
      minDistance := if minDistance.None? || d < minDistance.value then Some(d) else minDistance;
      maxDistance := if maxDistance < d then d else maxDistance;
      positives := positives + [d];
      assert AllPositive(positives) by {
        forall i | 0 <= i < |positives| ensures positives[i] > 0 {
          if i < |old(positives)| {
            assert positives[i] == old(positives)[i];
          }
        }
      }
    }

    /** After the first positive reading the minimum does not exceed the
        maximum, and every positive reading ever seen lies between them,
        also those the history no longer holds. */
    lemma Bounds()
      requires Valid()
      ensures positives != [] ==> minDistance.Some? && minDistance.value <= maxDistance
      ensures forall i | 0 <= i < |positives| :: minDistance.value <= positives[i] <= maxDistance
      ensures |history| <= historySize
      ensures forall i | 0 <= i < |history| :: history[i] in positives
    {
      if positives != [] {
        assert positives[0] in positives;
      }
      forall i | 0 <= i < |history| ensures history[i] in positives {
        assert history[i] == positives[|positives| - |history| + i];
      }
    }

    /** calculate_velocity's differences: None while the history has fewer
        than `windowSize` entries, otherwise the differences of consecutive
        entries of `list(history)[-windowSize:]`. */
    method CalculateVelocity(windowSize: int) returns (velocities: Option<seq<int>>)
      ensures |history| < windowSize <==> velocities == None
      ensures velocities.Some? ==> velocities.value == Differences(PySuffix(history, windowSize))
    {
      if |history| < windowSize {
        return None;
      }
      var recent := PySuffix(history, windowSize);
      var diffs := ConsecutiveDifferences(recent);
      velocities := Some(diffs);
    }
  }

  // ---------------------------------------------------------------------
  // calculate_velocity

  /** Python's `s[-w:]`: the last `w` elements for positive `w`, the whole
      list for `w == 0` (`s[0:]`), and `s[|w|:]` for negative `w`. */
  function PySuffix(s: seq<int>, w: int): (r: seq<int>)
    ensures |r| <= |s|
    ensures 0 < w <= |s| ==> |r| == w
    ensures w == 0 ==> r == s
  {
    if w > 0 then (if w <= |s| then s[|s| - w..] else s)
    else if w == 0 then s
    else if -w <= |s| then s[-w..] else []
  }

  /** The differences of consecutive elements. */
  function Differences(s: seq<int>): (r: seq<int>)
    ensures |r| == if s == [] then 0 else |s| - 1
    ensures forall j | 0 <= j < |r| :: r[j] == s[j + 1] - s[j]
  {
    if |s| <= 1 then [] else seq(|s| - 1, j requires 0 <= j < |s| - 1 => s[j + 1] - s[j])
  }

  /** The loop of calculate_velocity: `recent[i] - recent[i-1]` for i from 1. */
  method ConsecutiveDifferences(recent: seq<int>) returns (diffs: seq<int>)
    ensures diffs == Differences(recent)
  {
    diffs := [];
    if recent == [] {
      return;
    }
    var i := 1;
    while i < |recent|
      invariant 1 <= i <= |recent|
      invariant diffs == Differences(recent[..i])
    {
      DifferencesStep(recent, i);
      diffs := diffs + [recent[i] - recent[i - 1]];
      i := i + 1;
    }
    assert recent[..i] == recent;
  }

  /** One more element adds one more difference. */
  lemma DifferencesStep(s: seq<int>, i: nat)
    requires 1 <= i < |s|
    ensures Differences(s[..i + 1]) == Differences(s[..i]) + [s[i] - s[i - 1]]
  {
    var a, b := Differences(s[..i + 1]), Differences(s[..i]) + [s[i] - s[i - 1]];
    assert |a| == |b|;
    forall j | 0 <= j < |a| ensures a[j] == b[j] {
    }
  }

  function Sum(s: seq<int>): int
  {
    if s == [] then 0 else Sum(s[..|s| - 1]) + s[|s| - 1]
  }

  /** The differences telescope: they sum to the newest minus the oldest. */
  lemma {:induction false} DifferencesTelescope(s: seq<int>)
    requires s != []
    ensures Sum(Differences(s)) == s[|s| - 1] - s[0]
    decreases |s|
  {
    if |s| > 1 {
      var t := s[..|s| - 1];
      var d, e := Differences(s), Differences(t);
      DifferencesTelescope(t);
      assert |d| == |e| + 1;
      assert d[..|d| - 1] == e;
      assert Sum(d) == Sum(e) + d[|d| - 1];
    }
  }

  /** With a window of at least two entries and a history that fills it,
      the velocity mean averages `windowSize - 1` differences whose sum is
      the newest entry minus the oldest entry of the window. */
  lemma VelocityWindow(history: seq<int>, windowSize: int)
    requires 2 <= windowSize <= |history|
    ensures |Differences(PySuffix(history, windowSize))| == windowSize - 1
    ensures Sum(Differences(PySuffix(history, windowSize)))
      == history[|history| - 1] - history[|history| - windowSize]
  {
    var recent := PySuffix(history, windowSize);
    DifferencesTelescope(recent);
  }

  // ---------------------------------------------------------------------
  // detect_object_state

  datatype ObjectState = CriticallyClose | VeryClose | Close | Medium | Far | VeryFar

  /** detect_object_state's if-chain (the label and the icon are left out). */
  function StateOf(distance: int): ObjectState
  {
    if distance < 50 then CriticallyClose
    else if distance < 100 then VeryClose
    else if distance < 300 then Close
    else if distance < 800 then Medium
    else if distance < 1500 then Far
    else VeryFar
  }

  /** The states in order of distance. */
  function Rank(s: ObjectState): nat
  {
    match s
    case CriticallyClose => 0
    case VeryClose => 1
    case Close => 2
    case Medium => 3
    case Far => 4
    case VeryFar => 5
  }

  /** The band boundaries, ascending. */
  const THRESHOLDS: seq<int> := [50, 100, 300, 800, 1500]

  /** The state's rank is the number of thresholds the distance has reached:
      each distance falls in exactly one band, [t_i, t_i+1). */
  lemma {:induction false} StateCountsThresholds(distance: int)
    ensures Rank(StateOf(distance)) == Reached(THRESHOLDS, distance)
  {
    var t := THRESHOLDS;
    assert t[1..][1..][1..][1..][1..] == [];
    assert Reached(t[1..][1..][1..][1..], distance) == (if 1500 <= distance then 1 else 0);
    assert Reached(t[1..][1..][1..], distance) == (if 800 <= distance then 1 else 0) + (if 1500 <= distance then 1 else 0);
    assert Reached(t[1..][1..], distance) == Reached(t[1..][1..][1..], distance) + (if 300 <= distance then 1 else 0);
    assert Reached(t[1..], distance) == Reached(t[1..][1..], distance) + (if 100 <= distance then 1 else 0);
  }

  /** A farther object is never in a closer state. */
  lemma StateMonotone(d1: int, d2: int)
    requires d1 <= d2
    ensures Rank(StateOf(d1)) <= Rank(StateOf(d2))
  {
    StateCountsThresholds(d1);
    StateCountsThresholds(d2);
    ReachedMonotone(THRESHOLDS, d1, d2);
  }
}
