/**
How the subtitle session folds each confirmed window into the history it broadcasts: segments of the previous
window that the new one revises are taken out, then every incoming segment greedily replaces its best match.
*/
module ConfirmedSegments {
  import opened Wrappers

  datatype AsrRecord = AsrRecord(
    order: nat,
    sourceEpoch: nat,
    speakerKey: string,
    startMs: nat,
    endMs: nat,
    text: string)

  type AsrSegment = s: AsrRecord | s.startMs <= s.endMs witness AsrRecord(0, 0, "s", 0, 0, "t")

  // ---------- matching ----------

  function Min(a: int, b: int): int {
    if a < b then a else b
  }

  function Max(a: int, b: int): int {
    if a < b then b else a
  }

  predicate SameSpan(a: AsrSegment, b: AsrSegment) {
    a.startMs == b.startMs && a.endMs == b.endMs
  }

  function OverlapMs(a: AsrSegment, b: AsrSegment): int {
    Min(a.endMs, b.endMs) - Max(a.startMs, b.startMs)
  }

  /** Same epoch, and the same span or a positive overlap. */
  predicate Matches(current: AsrSegment, incoming: AsrSegment) {
    current.sourceEpoch == incoming.sourceEpoch && (SameSpan(current, incoming) || OverlapMs(current, incoming) > 0)
  }

  /** (same span, overlap, same speaker); the epoch component of the score is always one. */
  datatype Score = Score(sameSpan: bool, overlapMs: int, sameSpeaker: bool)

  function MatchScore(current: AsrSegment, incoming: AsrSegment): Option<Score> {
    if !Matches(current, incoming) then None
    else Some(Score(SameSpan(current, incoming), OverlapMs(current, incoming), current.speakerKey == incoming.speakerKey))
  }

  /** Lexicographically greater. */
  predicate Better(a: Score, b: Score) {
    || (a.sameSpan && !b.sameSpan)
    || (a.sameSpan == b.sameSpan && a.overlapMs > b.overlapMs)
    || (a.sameSpan == b.sameSpan && a.overlapMs == b.overlapMs && a.sameSpeaker && !b.sameSpeaker)
  }

  // ---------- what a match is ----------

  predicate Covers(s: AsrSegment, ms: nat) {
    s.startMs <= ms < s.endMs
  }

  /** The milliseconds two segments have in common. */
  function Shared(a: AsrSegment, b: AsrSegment): set<nat> {
    set ms: nat | ms < a.endMs && Covers(a, ms) && Covers(b, ms)
  }

  function Between(lo: nat, hi: nat): (r: set<nat>)
    ensures forall ms :: ms in r <==> lo <= ms < hi
    ensures |r| == Max(0, hi - lo)
    decreases hi
  {
    if lo >= hi then {} else Between(lo, hi - 1) + {hi - 1}
  }

  lemma SharedSize(a: AsrSegment, b: AsrSegment)
    ensures |Shared(a, b)| == Max(0, OverlapMs(a, b))
  {
    var lo, hi := Max(a.startMs, b.startMs), Min(a.endMs, b.endMs);
    if lo < hi {
      assert Shared(a, b) == Between(lo, hi);
    } else {
      assert Shared(a, b) == {};
    }
  }

  /** Segments match exactly where they are of one epoch, and of one span or with a millisecond in common. */
  lemma MatchesIff(a: AsrSegment, b: AsrSegment)
    ensures Matches(a, b)
            <==> a.sourceEpoch == b.sourceEpoch
                 && ((a.startMs == b.startMs && a.endMs == b.endMs) || exists ms: nat :: Covers(a, ms) && Covers(b, ms))
  {
    if OverlapMs(a, b) > 0 {
      assert Covers(a, Max(a.startMs, b.startMs)) && Covers(b, Max(a.startMs, b.startMs));
    }
  }

  /** Of two matches the one with the very span is better, then the one with more in common, then the same speaker. */
  lemma BetterMatchIff(a: AsrSegment, b: AsrSegment, segment: AsrSegment)
    requires Matches(a, segment) && Matches(b, segment)
    ensures var exactA := a.startMs == segment.startMs && a.endMs == segment.endMs;
            var exactB := b.startMs == segment.startMs && b.endMs == segment.endMs;
            Better(MatchScore(a, segment).value, MatchScore(b, segment).value)
            <==> if exactA != exactB then exactA
                 else if |Shared(a, segment)| != |Shared(b, segment)| then |Shared(a, segment)| > |Shared(b, segment)|
                 else a.speakerKey == segment.speakerKey != b.speakerKey
  {
    SharedSize(a, segment);
    SharedSize(b, segment);
  }

  predicate MatchesAny(s: AsrSegment, segments: seq<AsrSegment>) {
    exists i :: 0 <= i < |segments| && Matches(s, segments[i])
  }

  predicate SameRevision(previous: seq<AsrSegment>, incoming: seq<AsrSegment>) {
    exists i :: 0 <= i < |previous| && MatchesAny(previous[i], incoming)
  }

  /** index is the first best match for the segment outside the excluded indices; None when nothing matches. */
  predicate IsBest(confirmed: seq<AsrSegment>, segment: AsrSegment, excluded: set<nat>, index: Option<nat>) {
    match index
    case None => forall i: nat :: i < |confirmed| && i !in excluded ==> !Matches(confirmed[i], segment)
    case Some(best) =>
      && best < |confirmed| && best !in excluded && Matches(confirmed[best], segment)
      && (forall i: nat :: i < |confirmed| && i !in excluded && Matches(confirmed[i], segment) ==>
            var here, there := MatchScore(confirmed[i], segment).value, MatchScore(confirmed[best], segment).value;
            !Better(here, there) && (i < best ==> Better(there, here)))
  }

  /** The index the scan from left to right ends with. */
  function BestIndex(confirmed: seq<AsrSegment>, segment: AsrSegment, excluded: set<nat>): (r: Option<nat>)
    ensures r.Some? ==> r.value < |confirmed| && r.value !in excluded && Matches(confirmed[r.value], segment)
  {
    if confirmed == [] then None
    else
      var n := |confirmed| - 1;
      var earlier := BestIndex(confirmed[..n], segment, excluded);
      if n in excluded || !Matches(confirmed[n], segment) then earlier
      else if earlier.Some?
              && !Better(MatchScore(confirmed[n], segment).value, MatchScore(confirmed[earlier.value], segment).value)
      then earlier
      else Some(n)
  }

  lemma {:induction false} BestIndexIsBest(confirmed: seq<AsrSegment>, segment: AsrSegment, excluded: set<nat>)
    ensures IsBest(confirmed, segment, excluded, BestIndex(confirmed, segment, excluded))
  {
    if confirmed != [] {
      var n := |confirmed| - 1;
      BestIndexIsBest(confirmed[..n], segment, excluded);
      forall i: nat | i < n ensures confirmed[..n][i] == confirmed[i] {
      }
    }
  }

  // ---------- recording ----------

  /** Distinct best matches for the segments of a window, claimed one after the other. */
  function ClaimedIndices(confirmed: seq<AsrSegment>, segments: seq<AsrSegment>): set<nat> {
    if segments == [] then {}
    else
      var n := |segments| - 1;
      var claimed := ClaimedIndices(confirmed, segments[..n]);
      match BestIndex(confirmed, segments[n], claimed)
      case None => claimed
      case Some(i) => claimed + {i}
  }

  /** The history without the given indices. */
  function Without(confirmed: seq<AsrSegment>, dropped: set<nat>): seq<AsrSegment> {
    if confirmed == [] then []
    else
      var n := |confirmed| - 1;
      Without(confirmed[..n], dropped) + if n in dropped then [] else [confirmed[n]]
  }

  function Indices(places: seq<nat>): set<nat> {
    set i | i in places
  }

  lemma IndicesAppend(places: seq<nat>, i: nat)
    ensures Indices(places + [i]) == Indices(places) + {i}
  {
    assert forall k :: k in places + [i] <==> k in places || k == i;
  }

  datatype Placement = Placement(confirmed: seq<AsrSegment>, places: seq<nat>)

  /** A segment replaces its best match among the indices not taken, or is appended. */
  function PlaceOne(p: Placement, segment: AsrSegment): (q: Placement)
    ensures |q.places| == |p.places| + 1
  {
    match BestIndex(p.confirmed, segment, Indices(p.places))
    case None => Placement(p.confirmed + [segment], p.places + [|p.confirmed|])
    case Some(i) => Placement(p.confirmed[i := segment], p.places + [i])
  }

  /** Each incoming segment replaces its best match among the unclaimed ones, or is appended. */
  function PlaceAll(confirmed: seq<AsrSegment>, incoming: seq<AsrSegment>): (p: Placement)
    ensures |p.places| == |incoming|
  {
    if incoming == [] then Placement(confirmed, [])
    else
      var n := |incoming| - 1;
      PlaceOne(PlaceAll(confirmed, incoming[..n]), incoming[n])
  }

  lemma PlaceAllStep(confirmed: seq<AsrSegment>, incoming: seq<AsrSegment>, j: nat)
    requires j < |incoming|
    ensures PlaceAll(confirmed, incoming[..j + 1]) == PlaceOne(PlaceAll(confirmed, incoming[..j]), incoming[j])
  {
    assert incoming[..j + 1][..j] == incoming[..j];
  }

  /** The history the new window is placed into: a revised previous window is taken out first. */
  function Base(confirmed: seq<AsrSegment>, previous: seq<AsrSegment>, incoming: seq<AsrSegment>): seq<AsrSegment> {
    if SameRevision(previous, incoming) then Without(confirmed, ClaimedIndices(confirmed, previous)) else confirmed
  }

  /** The history after one window. */
  function Recorded(confirmed: seq<AsrSegment>, previous: seq<AsrSegment>, incoming: seq<AsrSegment>): seq<AsrSegment> {
    if incoming == [] then confirmed else PlaceAll(Base(confirmed, previous, incoming), incoming).confirmed
  }

  // ---------- what recording a window promises ----------

  /** The elements of a sequence that match nothing in two windows. */
  function Unmatched(segments: seq<AsrSegment>, a: seq<AsrSegment>, b: seq<AsrSegment>): seq<AsrSegment> {
    if segments == [] then []
    else
      var last := segments[|segments| - 1];
      Unmatched(segments[..|segments| - 1], a, b) + if MatchesAny(last, a) || MatchesAny(last, b) then [] else [last]
  }

  lemma {:induction false} UnmatchedConcat(
      x: seq<AsrSegment>, y: seq<AsrSegment>, a: seq<AsrSegment>, b: seq<AsrSegment>)
    ensures Unmatched(x + y, a, b) == Unmatched(x, a, b) + Unmatched(y, a, b)
  {
    if y == [] {
      assert x + y == x;
    } else {
      assert (x + y)[..|x + y| - 1] == x + y[..|y| - 1];
      UnmatchedConcat(x, y[..|y| - 1], a, b);
    }
  }

  /** Replacing one matched element by another leaves the unmatched ones alone. */
  lemma UnmatchedUpdate(x: seq<AsrSegment>, i: nat, s: AsrSegment, a: seq<AsrSegment>, b: seq<AsrSegment>)
    requires i < |x|
    requires MatchesAny(x[i], a) || MatchesAny(x[i], b)
    requires MatchesAny(s, a) || MatchesAny(s, b)
    ensures Unmatched(x[i := s], a, b) == Unmatched(x, a, b)
  {
    assert x == x[..i] + [x[i]] + x[i + 1..];
    assert x[i := s] == x[..i] + [s] + x[i + 1..];
    UnmatchedConcat(x[..i] + [x[i]], x[i + 1..], a, b);
    UnmatchedConcat(x[..i] + [s], x[i + 1..], a, b);
    UnmatchedConcat(x[..i], [x[i]], a, b);
    UnmatchedConcat(x[..i], [s], a, b);
  }

  /** The incoming segments sit in the history at pairwise distinct indices. */
  predicate Placed(confirmed: seq<AsrSegment>, incoming: seq<AsrSegment>, places: seq<nat>) {
    && |places| == |incoming|
    && (forall i :: 0 <= i < |places| ==> places[i] < |confirmed| && confirmed[places[i]] == incoming[i])
    && (forall i, j :: 0 <= i < j < |places| ==> places[i] != places[j])
  }

  lemma {:induction false} WithoutKeepsUnmatched(
      confirmed: seq<AsrSegment>, dropped: set<nat>, a: seq<AsrSegment>, b: seq<AsrSegment>)
    requires forall i: nat :: i in dropped && i < |confirmed| ==> MatchesAny(confirmed[i], a)
    ensures Unmatched(Without(confirmed, dropped), a, b) == Unmatched(confirmed, a, b)
    ensures forall s :: s in Without(confirmed, dropped) ==> s in confirmed
  {
    if confirmed != [] {
      var n := |confirmed| - 1;
      assert confirmed == confirmed[..n] + [confirmed[n]];
      WithoutKeepsUnmatched(confirmed[..n], dropped, a, b);
      UnmatchedConcat(Without(confirmed[..n], dropped), if n in dropped then [] else [confirmed[n]], a, b);
      UnmatchedConcat(confirmed[..n], [confirmed[n]], a, b);
    }
  }

  lemma {:induction false} WithoutNothing(confirmed: seq<AsrSegment>)
    ensures Without(confirmed, {}) == confirmed
  {
    if confirmed != [] {
      WithoutNothing(confirmed[..|confirmed| - 1]);
    }
  }

  lemma {:induction false} ClaimedMatch(confirmed: seq<AsrSegment>, segments: seq<AsrSegment>)
    ensures forall i :: i in ClaimedIndices(confirmed, segments) ==> i < |confirmed| && MatchesAny(confirmed[i], segments)
  {
    if segments != [] {
      var n := |segments| - 1;
      ClaimedMatch(confirmed, segments[..n]);
      forall i | i in ClaimedIndices(confirmed, segments)
        ensures i < |confirmed| && MatchesAny(confirmed[i], segments)
      {
        if i in ClaimedIndices(confirmed, segments[..n]) {
          var k :| 0 <= k < n && Matches(confirmed[i], segments[..n][k]);
          assert Matches(confirmed[i], segments[k]);
        } else {
          assert Matches(confirmed[i], segments[n]);
        }
      }
    }
  }

  lemma PlacingOnePlaces(p: Placement, placed: seq<AsrSegment>, segment: AsrSegment)
    requires Placed(p.confirmed, placed, p.places)
    ensures var q := PlaceOne(p, segment);
            Placed(q.confirmed, placed + [segment], q.places) && |p.confirmed| <= |q.confirmed|
  {
    var q := PlaceOne(p, segment);
    var i := q.places[|p.places|];
    assert i !in p.places by {
      assert forall j :: j in p.places ==> j in Indices(p.places) && j < |p.confirmed|;
    }
    forall k | 0 <= k < |p.places| ensures q.places[k] == p.places[k] && q.places[k] != i {
      assert p.places[k] in p.places;
    }
  }

  /** All incoming segments have distinct places. */
  lemma {:induction false} PlacingPlaces(confirmed: seq<AsrSegment>, incoming: seq<AsrSegment>)
    ensures var p := PlaceAll(confirmed, incoming);
            Placed(p.confirmed, incoming, p.places) && |confirmed| <= |p.confirmed|
  {
    if incoming != [] {
      var n := |incoming| - 1;
      PlacingPlaces(confirmed, incoming[..n]);
      PlacingOnePlaces(PlaceAll(confirmed, incoming[..n]), incoming[..n], incoming[n]);
      assert incoming[..n] + [incoming[n]] == incoming;
    }
  }

  lemma PlacingOneKeeps(p: Placement, segment: AsrSegment, previous: seq<AsrSegment>, incoming: seq<AsrSegment>)
    requires segment in incoming
    ensures var q := PlaceOne(p, segment);
            && Unmatched(q.confirmed, previous, incoming) == Unmatched(p.confirmed, previous, incoming)
            && (forall s :: s in q.confirmed ==> s in p.confirmed || s == segment)
  {
    assert Matches(segment, segment);
    var best := BestIndex(p.confirmed, segment, Indices(p.places));
    if best.Some? {
      assert Matches(p.confirmed[best.value], segment);
      UnmatchedUpdate(p.confirmed, best.value, segment, previous, incoming);
    } else {
      UnmatchedConcat(p.confirmed, [segment], previous, incoming);
      OneMatched(segment, previous, incoming);
    }
  }

  /** Placing touches no unmatched element and invents nothing. */
  lemma {:induction false} PlacingKeeps(
      confirmed: seq<AsrSegment>, incoming: seq<AsrSegment>, n: nat, previous: seq<AsrSegment>)
    requires n <= |incoming|
    ensures var p := PlaceAll(confirmed, incoming[..n]);
            && Unmatched(p.confirmed, previous, incoming) == Unmatched(confirmed, previous, incoming)
            && (forall s :: s in p.confirmed ==> s in confirmed || s in incoming)
  {
    if n > 0 {
      PlacingKeeps(confirmed, incoming, n - 1, previous);
      PlaceAllStep(confirmed, incoming, n - 1);
      PlacingOneKeeps(PlaceAll(confirmed, incoming[..n - 1]), incoming[n - 1], previous, incoming);
    }
  }

  lemma OneMatched(s: AsrSegment, a: seq<AsrSegment>, b: seq<AsrSegment>)
    requires MatchesAny(s, a) || MatchesAny(s, b)
    ensures Unmatched([s], a, b) == []
  {
    assert [s][..0] == [];
  }

  /**
   After a window is recorded, every incoming segment has a place of its own; everything that matches neither the
   previous nor the incoming window is kept, in order and as often as before; and nothing else appears.
   */
  lemma RecordingKeeps(confirmed: seq<AsrSegment>, previous: seq<AsrSegment>, incoming: seq<AsrSegment>)
    returns (places: seq<nat>)
    ensures var after := Recorded(confirmed, previous, incoming);
            && Placed(after, incoming, places)
            && Unmatched(after, previous, incoming) == Unmatched(confirmed, previous, incoming)
            && (forall s :: s in after ==> s in confirmed || s in incoming)
  {
    var base := Base(confirmed, previous, incoming);
    ClaimedMatch(confirmed, previous);
    WithoutKeepsUnmatched(confirmed, ClaimedIndices(confirmed, previous), previous, incoming);
    PlacingPlaces(base, incoming);
    PlacingKeeps(base, incoming, |incoming|, previous);
    assert incoming[..|incoming|] == incoming;
    places := PlaceAll(base, incoming).places;
  }

  /** A segment is appended only when every element it matches has been claimed by an earlier one of its window. */
  lemma AppendedOnlyUnmatched(confirmed: seq<AsrSegment>, incoming: seq<AsrSegment>, n: nat)
    requires n < |incoming|
    ensures var p := PlaceAll(confirmed, incoming[..n]);
            var q := PlaceAll(confirmed, incoming[..n + 1]);
            && (|q.confirmed| > |p.confirmed| <==>
                 forall i: nat :: i < |p.confirmed| && Matches(p.confirmed[i], incoming[n]) ==> i in Indices(p.places))
            && (|q.confirmed| == |p.confirmed| ==>
                 IsBest(p.confirmed, incoming[n], Indices(p.places), Some(q.places[n])))
  {
    assert incoming[..n + 1][..n] == incoming[..n];
    var p := PlaceAll(confirmed, incoming[..n]);
    BestIndexIsBest(p.confirmed, incoming[n], Indices(p.places));
  }

  // ---------- what stays in place ----------

  /** Index i of the base is untouched by the first n segments, or holds the one of them that matches it. */
  predicate InPlaceAt(base: seq<AsrSegment>, incoming: seq<AsrSegment>, n: nat, p: Placement, i: nat)
    requires i < |base| <= |p.confirmed| && n <= |incoming|
  {
    || (i !in p.places && p.confirmed[i] == base[i])
    || (i in p.places && exists j :: 0 <= j < n && p.confirmed[i] == incoming[j] && Matches(base[i], incoming[j]))
  }

  lemma PlaceOneInPlace(base: seq<AsrSegment>, incoming: seq<AsrSegment>, n: nat, p: Placement, i: nat)
    requires i < |base| <= |p.confirmed| && n < |incoming| && InPlaceAt(base, incoming, n, p, i)
    ensures |base| <= |PlaceOne(p, incoming[n]).confirmed|
    ensures InPlaceAt(base, incoming, n + 1, PlaceOne(p, incoming[n]), i)
  {
    var q := PlaceOne(p, incoming[n]);
    var best := BestIndex(p.confirmed, incoming[n], Indices(p.places));
    assert best.Some? ==> best.value !in p.places;
    assert forall k :: k in q.places <==> k in p.places || k == q.places[|p.places|];
    if i in p.places {
      var j :| 0 <= j < n && p.confirmed[i] == incoming[j] && Matches(base[i], incoming[j]);
    }
  }

  lemma {:induction false} PlacingIsInPlace(base: seq<AsrSegment>, incoming: seq<AsrSegment>, n: nat, i: nat)
    requires n <= |incoming| && i < |base|
    ensures var p := PlaceAll(base, incoming[..n]); |base| <= |p.confirmed| && InPlaceAt(base, incoming, n, p, i)
  {
    if n > 0 {
      PlacingIsInPlace(base, incoming, n - 1, i);
      PlaceAllStep(base, incoming, n - 1);
      PlaceOneInPlace(base, incoming, n - 1, PlaceAll(base, incoming[..n - 1]), i);
    }
  }

  /** Everything the segment matches has been taken by an earlier one of its window. */
  predicate NoneFree(p: Placement, segment: AsrSegment) {
    forall i: nat :: i < |p.confirmed| && Matches(p.confirmed[i], segment) ==> i in p.places
  }

  /** The segments of the window that found nothing free, in order. */
  function Behind(base: seq<AsrSegment>, incoming: seq<AsrSegment>): seq<AsrSegment> {
    if incoming == [] then []
    else
      var n := |incoming| - 1;
      Behind(base, incoming[..n]) + if NoneFree(PlaceAll(base, incoming[..n]), incoming[n]) then [incoming[n]] else []
  }

  /** What was appended is taken, and is what found nothing free. */
  predicate AppendedBehind(base: seq<AsrSegment>, behind: seq<AsrSegment>, p: Placement) {
    && |base| <= |p.confirmed| && p.confirmed[|base|..] == behind
    && forall k: nat :: |base| <= k < |p.confirmed| ==> k in p.places
  }

  lemma PlaceOneBehind(base: seq<AsrSegment>, behind: seq<AsrSegment>, p: Placement, segment: AsrSegment)
    requires AppendedBehind(base, behind, p)
    ensures AppendedBehind(base, behind + if NoneFree(p, segment) then [segment] else [], PlaceOne(p, segment))
  {
    var q := PlaceOne(p, segment);
    var best := BestIndex(p.confirmed, segment, Indices(p.places));
    BestIndexIsBest(p.confirmed, segment, Indices(p.places));
    assert best.None? <==> NoneFree(p, segment);
    assert forall k :: k in q.places <==> k in p.places || k == q.places[|p.places|];
    if best.Some? {
      assert best.value !in p.places && best.value < |base|;
      assert q.confirmed[|base|..] == p.confirmed[|base|..];
      assert behind + [] == behind;
    } else {
      assert q.confirmed[|base|..] == p.confirmed[|base|..] + [segment];
    }
  }

  lemma {:induction false} PlacingAppendsBehind(base: seq<AsrSegment>, incoming: seq<AsrSegment>)
    ensures AppendedBehind(base, Behind(base, incoming), PlaceAll(base, incoming))
  {
    if incoming != [] {
      var n := |incoming| - 1;
      PlacingAppendsBehind(base, incoming[..n]);
      PlaceOneBehind(base, Behind(base, incoming[..n]), PlaceAll(base, incoming[..n]), incoming[n]);
    }
  }

  /**
  Any window: every survivor keeps its index or gives it to an incoming segment that matches it, and behind all
  survivors come, in order, exactly the incoming segments that found no free match.
  */
  lemma SurvivorsStayInPlace(confirmed: seq<AsrSegment>, previous: seq<AsrSegment>, incoming: seq<AsrSegment>)
    requires incoming != []
    ensures var base, after := Base(confirmed, previous, incoming), Recorded(confirmed, previous, incoming);
            && |base| <= |after| && after[|base|..] == Behind(base, incoming)
            && forall i: nat :: i < |base| ==>
                 (|| after[i] == base[i]
                  || exists j :: 0 <= j < |incoming| && after[i] == incoming[j] && Matches(base[i], incoming[j]))
  {
    var base := Base(confirmed, previous, incoming);
    PlacingAppendsBehind(base, incoming);
    assert incoming[..|incoming|] == incoming;
    var after := Recorded(confirmed, previous, incoming);
    forall i: nat | i < |base|
      ensures after[i] == base[i]
              || exists j :: 0 <= j < |incoming| && after[i] == incoming[j] && Matches(base[i], incoming[j])
    {
      PlacingIsInPlace(base, incoming, |incoming|, i);
    }
  }

  lemma {:induction false} NoneClaimed(confirmed: seq<AsrSegment>, previous: seq<AsrSegment>, incoming: seq<AsrSegment>)
    requires !SameRevision(previous, incoming) || ClaimedIndices(confirmed, previous) == {}
    ensures Base(confirmed, previous, incoming) == confirmed
  {
    WithoutNothing(confirmed);
  }

  /**
  Where the window revises nothing of the previous one, or nothing of it is found in the history, every index keeps
  its segment or holds an incoming one that matches it.
  */
  lemma UnclaimedStayInPlace(confirmed: seq<AsrSegment>, previous: seq<AsrSegment>, incoming: seq<AsrSegment>, i: nat)
    requires !SameRevision(previous, incoming) || ClaimedIndices(confirmed, previous) == {}
    requires i < |confirmed|
    ensures var after := Recorded(confirmed, previous, incoming);
            && i < |after|
            && (|| after[i] == confirmed[i]
                || exists j :: 0 <= j < |incoming| && after[i] == incoming[j] && Matches(confirmed[i], incoming[j]))
  {
    NoneClaimed(confirmed, previous, incoming);
    if incoming != [] {
      SurvivorsStayInPlace(confirmed, previous, incoming);
    }
  }

  /** Nothing in the history matches any of the segments. */
  predicate AllNew(base: seq<AsrSegment>, incoming: seq<AsrSegment>) {
    forall i, j :: 0 <= i < |base| && 0 <= j < |incoming| ==> !Matches(base[i], incoming[j])
  }

  /** A placement that has only appended. */
  ghost predicate JustAppended(base: seq<AsrSegment>, more: seq<AsrSegment>, p: Placement) {
    && p.confirmed == base + more
    && forall k: nat :: k in p.places <==> |base| <= k < |base| + |more|
  }

  lemma NewIsAppended(base: seq<AsrSegment>, more: seq<AsrSegment>, p: Placement, segment: AsrSegment)
    requires JustAppended(base, more, p) && forall i :: 0 <= i < |base| ==> !Matches(base[i], segment)
    ensures JustAppended(base, more + [segment], PlaceOne(p, segment))
  {
    var best := BestIndex(p.confirmed, segment, Indices(p.places));
    assert forall i: nat :: i < |p.confirmed| && i !in Indices(p.places) ==> p.confirmed[i] == base[i];
    assert best.None?;
    assert p.confirmed + [segment] == base + (more + [segment]);
    assert forall k: nat :: k in p.places + [|p.confirmed|] <==> k in p.places || k == |p.confirmed|;
  }

  lemma {:induction false} NewAreAppended(base: seq<AsrSegment>, incoming: seq<AsrSegment>, n: nat)
    requires AllNew(base, incoming) && n <= |incoming|
    ensures JustAppended(base, incoming[..n], PlaceAll(base, incoming[..n]))
  {
    if n > 0 {
      NewAreAppended(base, incoming, n - 1);
      PlaceAllStep(base, incoming, n - 1);
      NewIsAppended(base, incoming[..n - 1], PlaceAll(base, incoming[..n - 1]), incoming[n - 1]);
      assert incoming[..n] == incoming[..n - 1] + [incoming[n - 1]];
    }
  }

  lemma {:induction false} WithoutFrom(confirmed: seq<AsrSegment>, dropped: set<nat>, m: nat)
    requires m <= |confirmed| && forall i: nat :: i < m ==> i !in dropped
    ensures var kept := Without(confirmed, dropped);
            && m <= |kept| && kept[..m] == confirmed[..m]
            && (|kept| == m <==> forall i: nat :: m <= i < |confirmed| ==> i in dropped)
  {
    if m < |confirmed| {
      var n := |confirmed| - 1;
      WithoutFrom(confirmed[..n], dropped, m);
      assert confirmed[..n][..m] == confirmed[..m];
    } else {
      WithoutAll(confirmed, dropped);
    }
  }

  lemma {:induction false} WithoutAll(confirmed: seq<AsrSegment>, dropped: set<nat>)
    requires forall i: nat :: i < |confirmed| ==> i !in dropped
    ensures Without(confirmed, dropped) == confirmed
  {
    if confirmed != [] {
      WithoutAll(confirmed[..|confirmed| - 1], dropped);
    }
  }

  /** New segments go behind what follows index m, unless nothing does. */
  lemma OrderDecides(base: seq<AsrSegment>, incoming: seq<AsrSegment>, m: nat)
    requires m <= |base| && incoming != [] && AllNew(base, incoming)
    ensures base + incoming == base[..m] + incoming + base[m..] <==> |base| == m
  {
    if |base| > m {
      assert !Matches(base[m], incoming[0]) && Matches(incoming[0], incoming[0]);
      assert (base + incoming)[m] != (base[..m] + incoming + base[m..])[m];
    } else {
      assert base[..m] == base && base[m..] == [];
    }
  }

  /** Where no survivor matches the window, it comes behind them all, in place exactly where they end at m. */
  lemma NewWindowInPlaceIff(confirmed: seq<AsrSegment>, previous: seq<AsrSegment>, incoming: seq<AsrSegment>, m: nat)
    requires incoming != [] && m <= |Base(confirmed, previous, incoming)|
    requires AllNew(Base(confirmed, previous, incoming), incoming)
    ensures var base, after := Base(confirmed, previous, incoming), Recorded(confirmed, previous, incoming);
            after == base + incoming && (after == base[..m] + incoming + base[m..] <==> |base| == m)
  {
    var base := Base(confirmed, previous, incoming);
    NewAreAppended(base, incoming, |incoming|);
    assert incoming[..|incoming|] == incoming;
    OrderDecides(base, incoming, m);
  }

  /**
  Where previous segments are claimed, m the first of them: the incoming segments that find no free match come behind
  all survivors, so that they start where the claimed ones stood, at m, exactly where those were the end of the history.
  A window that matches no survivor replaces the claimed segments in place exactly then.
  */
  lemma RevisionInPlaceIff(confirmed: seq<AsrSegment>, previous: seq<AsrSegment>, incoming: seq<AsrSegment>, m: nat)
    requires incoming != [] && SameRevision(previous, incoming)
    requires var claimed := ClaimedIndices(confirmed, previous);
             m < |confirmed| && m in claimed && (forall i: nat :: i < m ==> i !in claimed)
    ensures var base, after := Base(confirmed, previous, incoming), Recorded(confirmed, previous, incoming);
            var atTheEnd := forall i: nat :: m <= i < |confirmed| ==> i in ClaimedIndices(confirmed, previous);
            && m <= |base| <= |after| && base[..m] == confirmed[..m]
            && after[|base|..] == Behind(base, incoming) && (|base| == m <==> atTheEnd)
            && (AllNew(base, incoming) ==>
                  && after == base + incoming
                  && (after == confirmed[..m] + incoming + base[m..] <==> atTheEnd))
  {
    var base := Base(confirmed, previous, incoming);
    WithoutFrom(confirmed, ClaimedIndices(confirmed, previous), m);
    SurvivorsStayInPlace(confirmed, previous, incoming);
    if AllNew(base, incoming) {
      NewWindowInPlaceIff(confirmed, previous, incoming, m);
    }
  }

  /** The history after a run of windows, and the last of them that was not empty. */
  function RecordedAll(windows: seq<seq<AsrSegment>>): (seq<AsrSegment>, seq<AsrSegment>) {
    if windows == [] then ([], [])
    else
      var (confirmed, previous) := RecordedAll(windows[..|windows| - 1]);
      var incoming := windows[|windows| - 1];
      (Recorded(confirmed, previous, incoming), if incoming == [] then previous else incoming)
  }

  lemma RecordedOneMore(windows: seq<seq<AsrSegment>>, incoming: seq<AsrSegment>)
    ensures var (confirmed, previous) := RecordedAll(windows);
            RecordedAll(windows + [incoming])
            == (Recorded(confirmed, previous, incoming), if incoming == [] then previous else incoming)
  {
    assert (windows + [incoming])[..|windows|] == windows;
  }

  /**
   A segment recorded again by the next window is not replaced where it stands: it is taken out with its window
   and appended, behind segments it used to precede.
   */
  lemma RevisedMovesBehind(a: AsrSegment, b: AsrSegment)
    requires !Matches(b, a)
    ensures Recorded([a, b], [a], [a]) == [b, a]
  {
    assert Matches([a][0], [a][0]);
    assert MatchesAny([a][0], [a]);
    assert SameRevision([a], [a]);
    var c := [a, b];
    assert c[..1] == [a] && [a][..0] == [];
    assert BestIndex([a], a, {}) == Some(0);
    assert BestIndex(c, a, {}) == Some(0);
    assert ClaimedIndices(c, [a][..0]) == {};
    assert ClaimedIndices(c, [a]) == {0};
    assert Without([a], {0}) == [];
    assert Without(c, {0}) == [b];
    assert [b][..0] == [];
    assert BestIndex([b], a, {}) == None;
    assert PlaceAll([b], [a][..0]) == Placement([b], []);
    assert Indices([]) == {};
  }

  lemma SecondIsAppended(a: AsrSegment, b: AsrSegment)
    requires !Matches(b, a)
    ensures Recorded([], [], [a]) == [a] && Recorded([a], [a], [b]) == [a, b] && Recorded([a, b], [b], [a]) == [a, b]
  {
    assert !SameRevision([a], [b]) && !SameRevision([b], [a]);
    NewAreAppended([], [a], 1);
    NewAreAppended([a], [b], 1);
    assert [a][..1] == [a] && [b][..1] == [b];
    assert PlaceAll([a, b], [a][..0]) == Placement([a, b], []);
    assert [a, b][..1] == [a] && [a][..0] == [];
    assert BestIndex([a], a, {}) == Some(0);
    assert BestIndex([a, b], a, {}) == Some(0);
    assert Indices([]) == {};
    assert [a, b][0 := a] == [a, b];
  }

  /** Four windows from an empty history on: the segment a, revised last, has moved behind b. */
  lemma RevisionMovesToTheEnd(a: AsrSegment, b: AsrSegment)
    requires !Matches(b, a)
    ensures RecordedAll([[a], [b], [a]]) == ([a, b], [a])
    ensures RecordedAll([[a], [b], [a], [a]]) == ([b, a], [a])
  {
    RecordedOneMore([], [a]);
    assert [] + [[a]] == [[a]];
    RecordedOneMore([[a]], [b]);
    assert [[a]] + [[b]] == [[a], [b]];
    RecordedOneMore([[a], [b]], [a]);
    assert [[a], [b]] + [[a]] == [[a], [b], [a]];
    RecordedOneMore([[a], [b], [a]], [a]);
    assert [[a], [b], [a]] + [[a]] == [[a], [b], [a], [a]];
    SecondIsAppended(a, b);
    RevisedMovesBehind(a, b);
  }

  class ConfirmedHistory {
    var confirmed: seq<AsrSegment>
    var lastWindow: seq<AsrSegment>

    constructor ()
      ensures confirmed == [] && lastWindow == []
    {
      confirmed, lastWindow := [], [];
    }

    /** The first best match outside the excluded indices. */
    method FindSegmentIndex(segment: AsrSegment, excluded: set<nat>) returns (index: Option<nat>)
      ensures index == BestIndex(confirmed, segment, excluded)
    {
      index := None;
      var bestScore: Option<Score> := None;
      for i := 0 to |confirmed|
        invariant index == BestIndex(confirmed[..i], segment, excluded)
        invariant bestScore == if index.None? then None else MatchScore(confirmed[index.value], segment)
      {
        assert confirmed[..i + 1][..i] == confirmed[..i];
        if i in excluded {
          continue;
        }
        var score := MatchScore(confirmed[i], segment);
        if score.None? || (bestScore.Some? && !Better(score.value, bestScore.value)) {
          continue;
        }
        index := Some(i);
        bestScore := score;
      }
      assert confirmed[..|confirmed|] == confirmed;
    }

    method FindSegmentIndices(segments: seq<AsrSegment>) returns (matched: set<nat>)
      ensures matched == ClaimedIndices(confirmed, segments)
    {
      matched := {};
      for j := 0 to |segments|
        invariant matched == ClaimedIndices(confirmed, segments[..j])
      {
        assert segments[..j + 1][..j] == segments[..j];
        var index := FindSegmentIndex(segments[j], matched);
        if index.Some? {
          matched := matched + {index.value};
        }
      }
      assert segments[..|segments|] == segments;
    }

    method RecordConfirmedWindow(incoming: seq<AsrSegment>)
      modifies this
      ensures confirmed == Recorded(old(confirmed), old(lastWindow), incoming)
      ensures lastWindow == if incoming == [] then old(lastWindow) else incoming
    {
      if incoming == [] {
        return;
      }
      var previous := lastWindow;
      WithoutNothing(confirmed);
      if previous != [] && SameRevision(previous, incoming) {
        var previousIndices := FindSegmentIndices(previous);
        if previousIndices != {} {
          confirmed := RemoveIndices(previousIndices);
        }
      }
      ghost var base := confirmed;
      assert base == Base(old(confirmed), previous, incoming);
      PlaceWindow(incoming);
      lastWindow := incoming;
    }

    method PlaceWindow(incoming: seq<AsrSegment>)
      modifies this`confirmed
      ensures confirmed == PlaceAll(old(confirmed), incoming).confirmed
    {
      var matched: set<nat> := {};
      ghost var p := Placement(confirmed, []);
      for j := 0 to |incoming|
        invariant p == PlaceAll(old(confirmed), incoming[..j])
        invariant confirmed == p.confirmed && matched == Indices(p.places)
      {
        PlaceAllStep(old(confirmed), incoming, j);
        ghost var before := p;
        p := PlaceOne(p, incoming[j]);
        var index := FindSegmentIndex(incoming[j], matched);
        if index.None? {
          index := Some(|confirmed|);
          confirmed := confirmed + [incoming[j]];
        } else {
          confirmed := confirmed[index.value := incoming[j]];
        }
        matched := matched + {index.value};
        IndicesAppend(before.places, index.value);
      }
      assert incoming[..|incoming|] == incoming;
    }

    method RemoveIndices(dropped: set<nat>) returns (kept: seq<AsrSegment>)
      ensures kept == Without(confirmed, dropped)
    {
      kept := [];
      for i := 0 to |confirmed|
        invariant kept == Without(confirmed[..i], dropped)
      {
        assert confirmed[..i + 1][..i] == confirmed[..i];
        if i !in dropped {
          kept := kept + [confirmed[i]];
        }
      }
      assert confirmed[..|confirmed|] == confirmed;
    }
  }
}
