/**
The stored transcript of one meeting and the effect of one confirmed window on it
(the transactional part of the meeting repository).

A window replaces a suffix of the transcript: every row that ends at or after the earliest start of the
window is deleted, then the segments of the window are upserted by id. The module shows that this acts on
every row id independently, and from that that re-applying windows converges.
*/
module Transcript {
  import opened Wrappers

  type Id = nat

  datatype SegmentRecord = SegmentRecord(
    id: Id,
    order: nat,
    sourceEpoch: nat,
    speakerKey: string,
    startMs: nat,
    endMs: nat,
    text: string,
    translation: Option<string>,
    detectedLanguage: Option<string>)

  /** A segment whose time span passed validation. */
  type Segment = s: SegmentRecord | s.startMs <= s.endMs
    witness SegmentRecord(0, 0, 0, "s", 0, 0, "t", None, None)

  /** volatile holds the texts that travel with a window but are not stored: its partial, speaker labels and remap. */
  datatype Window = Window(sourceEpoch: nat, segments: seq<Segment>, volatile: seq<string>)

  /** The rows of the meeting, keyed by primary key. */
  type Rows = m: map<Id, Segment> | forall id :: id in m ==> m[id].id == id
    witness map[]

  // ---------- ordering ----------

  /** Strictly smaller (start, end, order) key. */
  predicate KeyLess(a: Segment, b: Segment) {
    || a.startMs < b.startMs
    || (a.startMs == b.startMs && a.endMs < b.endMs)
    || (a.startMs == b.startMs && a.endMs == b.endMs && a.order < b.order)
  }

  predicate Sorted(s: seq<Segment>) {
    forall i, j :: 0 <= i < j < |s| ==> !KeyLess(s[j], s[i])
  }

  /** Insert behind every element whose key is not larger: the step of a stable sort. */
  function Insert(sorted: seq<Segment>, s: Segment): (r: seq<Segment>)
    ensures multiset(r) == multiset(sorted) + multiset{s} && |r| == |sorted| + 1
  {
    if sorted == [] || !KeyLess(s, sorted[|sorted| - 1]) then sorted + [s]
    else
      assert sorted == sorted[..|sorted| - 1] + [sorted[|sorted| - 1]];
      Insert(sorted[..|sorted| - 1], s) + [sorted[|sorted| - 1]]
  }

  lemma {:induction false} InsertSorts(sorted: seq<Segment>, s: Segment)
    requires Sorted(sorted)
    ensures Sorted(Insert(sorted, s))
  {
    if sorted != [] {
      var rest, last := sorted[..|sorted| - 1], sorted[|sorted| - 1];
      if KeyLess(s, last) {
        InsertSorts(rest, s);
        forall i | 0 <= i < |sorted| ensures !KeyLess(last, Insert(rest, s)[i]) {
          assert Insert(rest, s)[i] in multiset(Insert(rest, s));
        }
      } else {
        forall i | 0 <= i < |rest| ensures !KeyLess(s, rest[i]) {
          assert !KeyLess(last, sorted[i]);
        }
      }
    }
  }

  /** Stable sort by (start, end, order). */
  function SortSegments(segments: seq<Segment>): (r: seq<Segment>)
    ensures Sorted(r)
    ensures multiset(r) == multiset(segments) && |r| == |segments|
  {
    if segments == [] then []
    else
      assert segments == segments[..|segments| - 1] + [segments[|segments| - 1]];
      var init := SortSegments(segments[..|segments| - 1]);
      InsertSorts(init, segments[|segments| - 1]);
      Insert(init, segments[|segments| - 1])
  }

  // ---------- one window ----------

  /** The earliest start among the segments, 0 when there are none. */
  function ReplaceFrom(segments: seq<Segment>): (m: nat)
    ensures forall s :: s in segments ==> m <= s.startMs
    ensures segments != [] ==> exists s :: s in segments && s.startMs == m
    ensures segments == [] ==> m == 0
  {
    if segments == [] then 0
    else if |segments| == 1 then segments[0].startMs
    else
      var m := ReplaceFrom(segments[1..]);
      if segments[0].startMs < m then segments[0].startMs else m
  }

  function DeleteFrom(rows: Rows, fromMs: nat): Rows {
    map id | id in rows && rows[id].endMs < fromMs :: rows[id]
  }

  function UpsertAll(rows: Rows, segments: seq<Segment>): Rows {
    if segments == [] then rows
    else
      var last := segments[|segments| - 1];
      UpsertAll(rows, segments[..|segments| - 1])[last.id := last]
  }

  /** The rows after one window has been committed. */
  function Apply(rows: Rows, w: Window): Rows {
    if w.segments == [] then rows
    else UpsertAll(DeleteFrom(rows, ReplaceFrom(w.segments)), SortSegments(w.segments))
  }

  /** The rows after the windows have been committed in order. */
  function Replay(rows: Rows, windows: seq<Window>): Rows {
    if windows == [] then rows
    else Apply(Replay(rows, windows[..|windows| - 1]), windows[|windows| - 1])
  }

  // ---------- row by row ----------

  function At(rows: Rows, id: Id): Option<Segment> {
    if id in rows then Some(rows[id]) else None
  }

  predicate Mentions(segments: seq<Segment>, id: Id) {
    exists s :: s in segments && s.id == id
  }

  /** The last segment carrying the id. */
  function LastWith(segments: seq<Segment>, id: Id): (r: Segment)
    requires Mentions(segments, id)
    ensures r in segments && r.id == id
  {
    var last := segments[|segments| - 1];
    if last.id == id then last
    else
      assert Mentions(segments[..|segments| - 1], id) by {
        var s :| s in segments && s.id == id;
        assert s in segments[..|segments| - 1];
      }
      LastWith(segments[..|segments| - 1], id)
  }

  /** What a window makes of the row that one id holds, stated without looking at any other row. */
  function Act(cell: Option<Segment>, w: Window, id: Id): Option<Segment> {
    if Mentions(w.segments, id) then
      assert Mentions(SortSegments(w.segments), id) by { SameMembers(w.segments); }
      Some(LastWith(SortSegments(w.segments), id))
    else if w.segments != [] && cell.Some? && cell.value.endMs >= ReplaceFrom(w.segments) then None
    else cell
  }

  lemma SameMembers(segments: seq<Segment>)
    ensures forall s :: s in SortSegments(segments) <==> s in segments
  {
    assert forall s :: s in SortSegments(segments) <==> s in multiset(SortSegments(segments));
    assert forall s :: s in segments <==> s in multiset(segments);
  }

  lemma {:induction false} UpsertAt(rows: Rows, segments: seq<Segment>, id: Id)
    ensures At(UpsertAll(rows, segments), id) ==
            if Mentions(segments, id) then Some(LastWith(segments, id)) else At(rows, id)
  {
    if segments != [] {
      var last := segments[|segments| - 1];
      var rest := segments[..|segments| - 1];
      assert segments == rest + [last];
      UpsertAt(rows, rest, id);
      if last.id == id {
        assert last in segments;
      } else {
        assert Mentions(segments, id) <==> Mentions(rest, id);
      }
    }
  }

  /** A window acts on each row id on its own. */
  lemma ApplyActsPointwise(rows: Rows, w: Window, id: Id)
    ensures At(Apply(rows, w), id) == Act(At(rows, id), w, id)
  {
    if w.segments != [] {
      SameMembers(w.segments);
      UpsertAt(DeleteFrom(rows, ReplaceFrom(w.segments)), SortSegments(w.segments), id);
      assert Mentions(SortSegments(w.segments), id) <==> Mentions(w.segments, id);
    }
  }

  lemma SameRows(a: Rows, b: Rows)
    requires forall id :: At(a, id) == At(b, id)
    ensures a == b
  {
    forall id ensures id in a <==> id in b {
      assert At(a, id) == At(b, id);
    }
    forall id | id in a ensures a[id] == b[id] {
      assert At(a, id) == At(b, id);
    }
  }

  // ---------- convergence ----------

  predicate MentionedBySome(windows: seq<Window>, id: Id) {
    exists w :: w in windows && Mentions(w.segments, id)
  }

  /** Some window deletes a row with this end. */
  predicate RemovedBySome(windows: seq<Window>, endMs: nat) {
    exists w :: w in windows && w.segments != [] && endMs >= ReplaceFrom(w.segments)
  }

  lemma RemovedBySomeAppend(windows: seq<Window>, last: Window, endMs: nat)
    ensures RemovedBySome(windows + [last], endMs) <==>
            RemovedBySome(windows, endMs) || (last.segments != [] && endMs >= ReplaceFrom(last.segments))
  {
    assert forall w :: w in windows + [last] <==> w in windows || w == last;
  }

  /** While no window mentions an id, its row survives exactly when no window deletes it. */
  lemma {:induction false} ReplayUnmentioned(rows: Rows, windows: seq<Window>, id: Id)
    requires !MentionedBySome(windows, id)
    ensures At(Replay(rows, windows), id) ==
            if id in rows && !RemovedBySome(windows, rows[id].endMs) then At(rows, id) else None
  {
    if windows == [] {
      assert id in rows ==> !RemovedBySome([], rows[id].endMs);
    } else {
      var rest := windows[..|windows| - 1];
      var last := windows[|windows| - 1];
      assert windows == rest + [last];
      assert last in windows && forall w :: w in rest ==> w in windows;
      ReplayUnmentioned(rows, rest, id);
      ApplyActsPointwise(Replay(rows, rest), last, id);
      if id in rows {
        RemovedBySomeAppend(rest, last, rows[id].endMs);
      }
    }
  }

  /** Once some window mentions an id, the row it held before does not matter. */
  lemma {:induction false} ReplayMentioned(a: Rows, b: Rows, windows: seq<Window>, id: Id)
    requires MentionedBySome(windows, id)
    ensures At(Replay(a, windows), id) == At(Replay(b, windows), id)
  {
    var rest := windows[..|windows| - 1];
    var last := windows[|windows| - 1];
    assert windows == rest + [last];
    ApplyActsPointwise(Replay(a, rest), last, id);
    ApplyActsPointwise(Replay(b, rest), last, id);
    if !Mentions(last.segments, id) {
      assert MentionedBySome(rest, id);
      ReplayMentioned(a, b, rest, id);
    }
  }

  /**
   Replay convergence. Whatever windows drawn from a list were already applied, in any order and any number
   of times, applying the whole list afterwards gives what the list gives on the original rows.
   */
  lemma ReplayConverges(rows: Rows, applied: seq<Window>, windows: seq<Window>)
    requires forall w :: w in applied ==> w in windows
    ensures Replay(Replay(rows, applied), windows) == Replay(rows, windows)
  {
    var before := Replay(rows, applied);
    forall id ensures At(Replay(before, windows), id) == At(Replay(rows, windows), id) {
      if MentionedBySome(windows, id) {
        ReplayMentioned(before, rows, windows, id);
      } else {
        ReplayUnmentioned(rows, applied, id);
        ReplayUnmentioned(before, windows, id);
        ReplayUnmentioned(rows, windows, id);
      }
    }
    SameRows(Replay(before, windows), Replay(rows, windows));
  }

  lemma {:induction false} ReplayConcat(rows: Rows, a: seq<Window>, b: seq<Window>)
    ensures Replay(rows, a + b) == Replay(Replay(rows, a), b)
  {
    if b == [] {
      assert a + b == a;
    } else {
      assert (a + b)[..|a + b| - 1] == a + b[..|b| - 1];
      ReplayConcat(rows, a, b[..|b| - 1]);
    }
  }

  /** Applying a window twice is applying it once. */
  lemma ApplyTwice(rows: Rows, w: Window)
    ensures Apply(Apply(rows, w), w) == Apply(rows, w)
  {
    assert [w][..0] == [];
    assert forall r :: Replay(r, [w]) == Apply(r, w);
    ReplayConverges(rows, [w], [w]);
  }

  // ---------- the equal-signature fast path ----------

  /** A listing of the rows that end at or after fromMs, in key order, ties in any order. */
  ghost predicate IsListing(listing: seq<Segment>, rows: Rows, fromMs: nat) {
    && Sorted(listing)
    && (forall s :: s in listing ==> s.id in rows && rows[s.id] == s && s.endMs >= fromMs)
    && (forall id :: id in rows && rows[id].endMs >= fromMs ==> rows[id] in listing)
    && (forall i, j :: 0 <= i < j < |listing| ==> listing[i].id != listing[j].id)
  }

  /** The stored suffix reads like the window. */
  ghost predicate AlreadyStored(rows: Rows, w: Window) {
    w.segments != [] && IsListing(SortSegments(w.segments), rows, ReplaceFrom(w.segments))
  }

  predicate DistinctIds(segments: seq<Segment>) {
    forall i, j :: 0 <= i < j < |segments| ==> segments[i].id != segments[j].id
  }

  /** The segments that no later one with the same id overwrites. */
  function LastOfEach(segments: seq<Segment>): seq<Segment> {
    if segments == [] then []
    else if Mentions(segments[1..], segments[0].id) then LastOfEach(segments[1..])
    else [segments[0]] + LastOfEach(segments[1..])
  }

  lemma {:induction false} LastWithTail(segments: seq<Segment>, id: Id)
    requires segments != [] && Mentions(segments[1..], id)
    ensures Mentions(segments, id) && LastWith(segments, id) == LastWith(segments[1..], id)
  {
    var n, tail := |segments| - 1, segments[1..];
    var k :| 0 <= k < n && tail[k].id == id;
    assert segments[k + 1] == tail[k] && segments[k + 1] in segments;
    if segments[n].id != id {
      assert tail[..n - 1] == segments[..n][1..];
      assert tail[k] == segments[..n][1..][k];
      assert tail[k] in segments[..n][1..];
      LastWithTail(segments[..n], id);
    }
  }

  lemma {:induction false} LastOfEachMembers(segments: seq<Segment>, s: Segment)
    ensures s in LastOfEach(segments) <==> Mentions(segments, s.id) && LastWith(segments, s.id) == s
  {
    if segments != [] {
      LastOfEachMembers(segments[1..], s);
      var first := segments[0];
      assert segments == [first] + segments[1..];
      if Mentions(segments[1..], s.id) {
        LastWithTail(segments, s.id);
      } else if Mentions(segments, s.id) {
        assert LastWith(segments, s.id) in segments;
        assert LastWith(segments, s.id) == first;
      }
    }
  }

  lemma {:induction false} LastOfEachIsSorted(segments: seq<Segment>)
    requires Sorted(segments)
    ensures Sorted(LastOfEach(segments)) && DistinctIds(LastOfEach(segments))
    ensures forall s :: s in LastOfEach(segments) ==> s in segments
  {
    if segments != [] {
      var rest := segments[1..];
      LastOfEachIsSorted(rest);
      forall s | s in rest ensures !KeyLess(s, segments[0]) {
        var k :| 0 <= k < |rest| && rest[k] == s;
        assert s == segments[k + 1];
      }
      if !Mentions(rest, segments[0].id) {
        var r := LastOfEach(rest);
        forall k | 0 <= k < |r| ensures !KeyLess(r[k], segments[0]) && r[k].id != segments[0].id {
          assert r[k] in rest;
        }
      }
    }
  }

  lemma {:induction false} DistinctOverwriteNothing(segments: seq<Segment>)
    requires DistinctIds(segments)
    ensures LastOfEach(segments) == segments
  {
    if segments != [] {
      DistinctOverwriteNothing(segments[1..]);
    }
  }

  /** The segments a window leaves behind, in key order. */
  function LeftBy(w: Window): seq<Segment> {
    LastOfEach(SortSegments(w.segments))
  }

  lemma SortKeepsMentions(segments: seq<Segment>, id: Id)
    ensures Mentions(SortSegments(segments), id) <==> Mentions(segments, id)
  {
    SameMembers(segments);
  }

  lemma LeftByMembers(w: Window, s: Segment)
    ensures s in LeftBy(w) <==> Mentions(SortSegments(w.segments), s.id) && LastWith(SortSegments(w.segments), s.id) == s
    ensures s in LeftBy(w) ==> s.endMs >= ReplaceFrom(w.segments)
  {
    LastOfEachMembers(SortSegments(w.segments), s);
    LastOfEachIsSorted(SortSegments(w.segments));
    SameMembers(w.segments);
  }

  /** The window leaves the row of the id as it is. */
  predicate Fixes(w: Window, rows: Rows, id: Id) {
    Act(At(rows, id), w, id) == At(rows, id)
  }

  lemma UnchangedIffAllFixed(rows: Rows, w: Window)
    ensures Apply(rows, w) == rows <==> forall id :: Fixes(w, rows, id)
  {
    forall id ensures At(Apply(rows, w), id) == Act(At(rows, id), w, id) { ApplyActsPointwise(rows, w, id); }
    if forall id :: Fixes(w, rows, id) {
      forall id ensures At(Apply(rows, w), id) == At(rows, id) { assert Fixes(w, rows, id); }
      SameRows(Apply(rows, w), rows);
    }
  }

  lemma FixedAreListed(rows: Rows, w: Window)
    requires w.segments != [] && forall id :: Fixes(w, rows, id)
    ensures IsListing(LeftBy(w), rows, ReplaceFrom(w.segments))
  {
    LastOfEachIsSorted(SortSegments(w.segments));
    forall s | s in LeftBy(w) ensures s.id in rows && rows[s.id] == s && s.endMs >= ReplaceFrom(w.segments) {
      LeftByMembers(w, s);
      SortKeepsMentions(w.segments, s.id);
      assert Fixes(w, rows, s.id);
    }
    forall id | id in rows && rows[id].endMs >= ReplaceFrom(w.segments) ensures rows[id] in LeftBy(w) {
      LeftByMembers(w, rows[id]);
      SortKeepsMentions(w.segments, id);
      assert Fixes(w, rows, id);
    }
  }

  lemma ListedAreFixed(rows: Rows, w: Window, id: Id)
    requires w.segments != [] && IsListing(LeftBy(w), rows, ReplaceFrom(w.segments))
    ensures Fixes(w, rows, id)
  {
    SortKeepsMentions(w.segments, id);
    if Mentions(w.segments, id) {
      LeftByMembers(w, LastWith(SortSegments(w.segments), id));
    } else if id in rows {
      LeftByMembers(w, rows[id]);
    }
  }

  /**
  Exactly when a window changes nothing: it is empty, or the stored suffix already reads like the segments it would
  leave behind.
  */
  lemma WindowChangesNothingIff(rows: Rows, w: Window)
    ensures Apply(rows, w) == rows <==> w.segments == [] || IsListing(LeftBy(w), rows, ReplaceFrom(w.segments))
  {
    UnchangedIffAllFixed(rows, w);
    if w.segments != [] {
      if forall id :: Fixes(w, rows, id) { FixedAreListed(rows, w); }
      if IsListing(LeftBy(w), rows, ReplaceFrom(w.segments)) {
        forall id ensures Fixes(w, rows, id) { ListedAreFixed(rows, w, id); }
      }
    }
  }

  /** When the stored suffix already reads like the window, the window would change nothing. */
  lemma FastPathChangesNothing(rows: Rows, w: Window)
    requires AlreadyStored(rows, w)
    ensures Apply(rows, w) == rows
  {
    DistinctOverwriteNothing(SortSegments(w.segments));
    WindowChangesNothingIff(rows, w);
  }

  lemma {:induction false} InsertKeepsIds(listing: seq<Segment>, s: Segment)
    requires DistinctIds(listing) && forall t :: t in listing ==> t.id != s.id
    ensures forall t :: t in Insert(listing, s) <==> t in listing || t == s
    ensures DistinctIds(Insert(listing, s))
  {
    if listing != [] && KeyLess(s, listing[|listing| - 1]) {
      var rest := listing[..|listing| - 1];
      var last := listing[|listing| - 1];
      assert listing == rest + [last];
      InsertKeepsIds(rest, s);
      var r := Insert(rest, s);
      assert Insert(listing, s) == r + [last];
      forall i | 0 <= i < |r| ensures r[i].id != last.id {
        assert r[i] in r;
      }
    }
  }

  lemma {:induction false} SortKeepsDistinct(segments: seq<Segment>)
    requires DistinctIds(segments)
    ensures DistinctIds(SortSegments(segments))
  {
    if segments != [] {
      var rest := segments[..|segments| - 1];
      SortKeepsDistinct(rest);
      SameMembers(rest);
      InsertKeepsIds(SortSegments(rest), segments[|segments| - 1]);
    }
  }

  /** For distinct ids the guard of the fast path is exact: it is taken, up to ties, whenever nothing would change. */
  lemma FastPathIsExact(rows: Rows, w: Window)
    requires w.segments != [] && DistinctIds(w.segments)
    ensures Apply(rows, w) == rows <==> AlreadyStored(rows, w)
  {
    WindowChangesNothingIff(rows, w);
    SortKeepsDistinct(w.segments);
    DistinctOverwriteNothing(SortSegments(w.segments));
  }

  predicate StrictKeys(listing: seq<Segment>) {
    forall i, j :: 0 <= i < j < |listing| ==> KeyLess(listing[i], listing[j])
  }

  lemma ListingsEndAlike(a: seq<Segment>, b: seq<Segment>)
    requires StrictKeys(a) && Sorted(b) && a != [] && forall s :: s in a <==> s in b
    ensures b != [] && a[|a| - 1] == b[|b| - 1]
  {
    assert a[|a| - 1] in b;
    var k :| 0 <= k < |b| && b[k] == a[|a| - 1];
    assert b[|b| - 1] in a;
    var h :| 0 <= h < |a| && a[h] == b[|b| - 1];
    assert !KeyLess(b[|b| - 1], b[k]);
  }

  /** Without ties there is only one listing. */
  lemma {:induction false} ListingIsUnique(a: seq<Segment>, b: seq<Segment>)
    requires StrictKeys(a) && Sorted(b) && DistinctIds(b) && forall s :: s in a <==> s in b
    ensures a == b
  {
    if a == [] {
      assert forall i :: 0 <= i < |b| ==> b[i] in a;
    } else {
      ListingsEndAlike(a, b);
      var last, earlier, others := a[|a| - 1], a[..|a| - 1], b[..|b| - 1];
      assert a == earlier + [last] && b == others + [last];
      forall s ensures s in earlier <==> s in others {
        assert s in earlier ==> KeyLess(s, last) && s in a;
        assert s in others ==> s.id != last.id && s in b;
      }
      ListingIsUnique(earlier, others);
    }
  }

  /** A listing that equals the window says that it is stored; a stored window without ties is the listing. */
  lemma ListingDecides(rows: Rows, w: Window, current: seq<Segment>)
    requires w.segments != [] && IsListing(current, rows, ReplaceFrom(w.segments))
    ensures current == SortSegments(w.segments) ==> AlreadyStored(rows, w)
    ensures AlreadyStored(rows, w) && StrictKeys(SortSegments(w.segments)) ==> current == SortSegments(w.segments)
  {
    var segments := SortSegments(w.segments);
    if AlreadyStored(rows, w) && StrictKeys(segments) {
      forall s ensures s in segments <==> s in current {}
      ListingIsUnique(segments, current);
    }
  }

  // ---------- repeats ----------

  /** The rows a window writes. */
  function Written(w: Window): Rows {
    UpsertAll(map[], SortSegments(w.segments))
  }

  /** The same ids with the same spans, position by position. */
  predicate SameSpans(v: Window, w: Window) {
    && |v.segments| == |w.segments|
    && forall i :: 0 <= i < |v.segments| ==>
         v.segments[i].id == w.segments[i].id && v.segments[i].startMs == w.segments[i].startMs
         && v.segments[i].endMs == w.segments[i].endMs
  }

  lemma WrittenAt(w: Window, id: Id)
    ensures Mentions(w.segments, id) <==> Mentions(SortSegments(w.segments), id)
    ensures At(Written(w), id)
            == if Mentions(w.segments, id) then Some(LastWith(SortSegments(w.segments), id)) else None
  {
    SameMembers(w.segments);
    UpsertAt(map[], SortSegments(w.segments), id);
  }

  lemma SameSpansMention(v: Window, w: Window, id: Id)
    requires SameSpans(v, w) && Mentions(v.segments, id)
    ensures Mentions(w.segments, id)
  {
    var s :| s in v.segments && s.id == id;
    var i :| 0 <= i < |v.segments| && v.segments[i] == s;
    assert w.segments[i] in w.segments;
  }

  lemma SameSpansStart(v: Window, w: Window)
    requires SameSpans(v, w)
    ensures ReplaceFrom(v.segments) == ReplaceFrom(w.segments)
  {
    if v.segments != [] {
      var s :| s in v.segments && s.startMs == ReplaceFrom(v.segments);
      var i :| 0 <= i < |v.segments| && v.segments[i] == s;
      assert w.segments[i] in w.segments;
      var t :| t in w.segments && t.startMs == ReplaceFrom(w.segments);
      var j :| 0 <= j < |w.segments| && w.segments[j] == t;
      assert v.segments[j] in v.segments;
    }
  }

  lemma RepeatActsIff(rows: Rows, v: Window, w: Window, id: Id)
    requires SameSpans(v, w)
    ensures At(Apply(Apply(rows, v), w), id) == At(Apply(rows, v), id) <==> At(Written(v), id) == At(Written(w), id)
  {
    SameSpansStart(v, w);
    ApplyActsPointwise(rows, v, id);
    ApplyActsPointwise(Apply(rows, v), w, id);
    WrittenAt(v, id);
    WrittenAt(w, id);
    if Mentions(v.segments, id) {
      SameSpansMention(v, w, id);
    } else if Mentions(w.segments, id) {
      SameSpansMention(w, v, id);
    }
  }

  lemma EqualTogether(a: Rows, b: Rows, c: Rows, d: Rows)
    requires forall id :: At(a, id) == At(b, id) <==> At(c, id) == At(d, id)
    ensures a == b <==> c == d
  {
    if a == b { SameRows(c, d); }
    if c == d { SameRows(a, b); }
  }

  /** Right after a window, another one with the same spans changes nothing exactly when it writes the same rows. */
  lemma RepeatChangesNothingIff(rows: Rows, v: Window, w: Window)
    requires SameSpans(v, w)
    ensures Apply(Apply(rows, v), w) == Apply(rows, v) <==> Written(v) == Written(w)
  {
    var once, first, second := Apply(rows, v), Written(v), Written(w);
    var twice := Apply(once, w);
    forall id ensures At(twice, id) == At(once, id) <==> At(first, id) == At(second, id) {
      RepeatActsIff(rows, v, w, id);
    }
    EqualTogether(twice, once, first, second);
  }

  // ---------- sealing ----------

  /** The total order in which sealed segments are numbered: (start, end, id). */
  predicate SealedBefore(a: Segment, b: Segment) {
    || a.startMs < b.startMs
    || (a.startMs == b.startMs && a.endMs < b.endMs)
    || (a.startMs == b.startMs && a.endMs == b.endMs && a.id < b.id)
  }

  function Predecessors(rows: Rows, id: Id): set<Id>
    requires id in rows
  {
    set k | k in rows && SealedBefore(rows[k], rows[id])
  }

  /** Number the rows by position in the sealed order. */
  function Renumber(rows: Rows): (r: Rows)
    ensures r.Keys == rows.Keys
  {
    map id | id in rows :: rows[id].(order := |Predecessors(rows, id)|)
  }

  lemma StrictSubsetIsSmaller(a: set<Id>, b: set<Id>, x: Id)
    requires a <= b && x in b && x !in a
    ensures |a| < |b|
  {
    assert |b - a| + |a| == |b| by {
      assert (b - a) + a == b;
    }
    assert x in b - a;
  }

  /** Sealed orders are exactly 0..n-1, each used once, increasing along (start, end, id). */
  lemma RenumberIsContiguous(rows: Rows, a: Id, b: Id)
    requires a in rows && b in rows
    ensures Renumber(rows)[a].order < |rows|
    ensures SealedBefore(rows[a], rows[b]) <==> Renumber(rows)[a].order < Renumber(rows)[b].order
  {
    assert |rows.Keys| == |rows|;
    StrictSubsetIsSmaller(Predecessors(rows, a), rows.Keys, a);
    if SealedBefore(rows[a], rows[b]) {
      StrictSubsetIsSmaller(Predecessors(rows, a), Predecessors(rows, b), a);
    } else if a != b {
      assert SealedBefore(rows[b], rows[a]);
      StrictSubsetIsSmaller(Predecessors(rows, b), Predecessors(rows, a), b);
    }
  }

  /** Sealing a sealed transcript changes nothing. */
  lemma RenumberTwice(rows: Rows)
    ensures Renumber(Renumber(rows)) == Renumber(rows)
  {
    var sealed := Renumber(rows);
    assert forall a, b :: a in rows && b in rows ==>
             (SealedBefore(sealed[a], sealed[b]) <==> SealedBefore(rows[a], rows[b]));
    forall id | id in rows ensures Predecessors(sealed, id) == Predecessors(rows, id) {}
  }
}
