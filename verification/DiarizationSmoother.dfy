/**
Smoothing of speaker labels over a transcript window: drop short noise, undo short speaker flickers, merge
neighbours of one speaker, number the result.
*/
module DiarizationSmoother {
  import opened Wrappers

  datatype Segment = Segment(
    id: nat,
    order: nat,
    sourceEpoch: nat,
    speaker: string,
    startMs: nat,
    endMs: nat,
    text: string,
    translation: Option<string>,
    language: Option<string>)

  datatype Window = Window(
    sourceEpoch: nat,
    partial: string,
    partialSpeakerKey: Option<string>,
    partialSpeakerName: Option<string>,
    segments: seq<Segment>,
    speakerRemap: seq<(string, string)>)

  /** How text is judged and joined: a predicate and two joins the smoother does not look into. */
  datatype Texts = Texts(
    meaningful: string -> bool,
    join: (string, string) -> string,
    joinTranslation: (Option<string>, Option<string>) -> Option<string>)

  function Max(a: int, b: int): int { if a >= b then a else b }

  function Duration(s: Segment): int { s.endMs - s.startMs }

  // ---------- filter ----------

  predicate IsNoise(texts: Texts, minMs: int, s: Segment) {
    Duration(s) < minMs && !texts.meaningful(s.text)
  }

  function Filtered(texts: Texts, minMs: int, segments: seq<Segment>): seq<Segment> {
    if segments == [] then []
    else
      var init, last := Filtered(texts, minMs, segments[..|segments| - 1]), segments[|segments| - 1];
      if IsNoise(texts, minMs, last) then init else init + [last]
  }

  // ---------- flicker correction ----------

  function Keys(segments: seq<Segment>): (keys: seq<string>)
    ensures |keys| == |segments|
  {
    seq(|segments|, i requires 0 <= i < |segments| => segments[i].speaker)
  }

  /** One short segment of another speaker between two of the same speaker. */
  predicate SingleFlicker(segments: seq<Segment>, keys: seq<string>, minMs: int, i: int)
    requires |keys| == |segments|
  {
    && 1 <= i < |segments| - 1
    && keys[i - 1] == keys[i + 1] && keys[i] != keys[i - 1]
    && Duration(segments[i]) <= Max(minMs, 500)
  }

  /** Two segments of another speaker, short together, between two of the same speaker. */
  predicate DoubleFlicker(segments: seq<Segment>, keys: seq<string>, minMs: int, i: int)
    requires |keys| == |segments|
  {
    && 1 <= i < |segments| - 2
    && keys[i - 1] == keys[i + 2] && keys[i] == keys[i + 1] && keys[i] != keys[i - 1]
    && segments[i + 1].endMs - segments[i].startMs <= Max(minMs, 600)
  }

  function FixSingle(segments: seq<Segment>, keys: seq<string>, minMs: int, i: nat): (r: seq<string>)
    requires |keys| == |segments|
    ensures |r| == |keys|
  {
    if SingleFlicker(segments, keys, minMs, i) then keys[i := keys[i - 1]] else keys
  }

  function FixDouble(segments: seq<Segment>, keys: seq<string>, minMs: int, i: nat): (r: seq<string>)
    requires |keys| == |segments|
    ensures |r| == |keys|
  {
    if DoubleFlicker(segments, keys, minMs, i) then keys[i := keys[i - 1]][i + 1 := keys[i - 1]] else keys
  }

  /** The labels after the first n positions were corrected from left to right. */
  function FixSingles(segments: seq<Segment>, keys: seq<string>, minMs: int, n: nat): (r: seq<string>)
    requires |keys| == |segments|
    ensures |r| == |keys|
  {
    if n == 0 then keys else FixSingle(segments, FixSingles(segments, keys, minMs, n - 1), minMs, n - 1)
  }

  function FixDoubles(segments: seq<Segment>, keys: seq<string>, minMs: int, n: nat): (r: seq<string>)
    requires |keys| == |segments|
    ensures |r| == |keys|
  {
    if n == 0 then keys else FixDouble(segments, FixDoubles(segments, keys, minMs, n - 1), minMs, n - 1)
  }

  function CorrectedKeys(segments: seq<Segment>, minMs: int): (r: seq<string>)
    ensures |r| == |segments|
  {
    var singles := FixSingles(segments, Keys(segments), minMs, |segments|);
    FixDoubles(segments, singles, minMs, |segments|)
  }

  function Relabelled(segments: seq<Segment>, keys: seq<string>): seq<Segment>
    requires |keys| == |segments|
  {
    seq(|segments|, i requires 0 <= i < |segments| => segments[i].(speaker := keys[i]))
  }

  function Corrected(segments: seq<Segment>, minMs: int): seq<Segment> {
    Relabelled(segments, CorrectedKeys(segments, minMs))
  }

  /** A label may differ from the original one only where the segment was short, alone or with a neighbour. */
  predicate ShortHere(segments: seq<Segment>, minMs: int, i: int)
    requires 0 <= i < |segments|
  {
    || Duration(segments[i]) <= Max(minMs, 500)
    || (i + 1 < |segments| && segments[i + 1].endMs - segments[i].startMs <= Max(minMs, 600))
    || (i >= 1 && segments[i].endMs - segments[i - 1].startMs <= Max(minMs, 600))
  }

  predicate KeptOrShort(segments: seq<Segment>, keys: seq<string>, minMs: int, i: int)
    requires |keys| == |segments| && 0 <= i < |keys|
  {
    && keys[i] in Keys(segments)
    && (keys[i] != segments[i].speaker ==> 0 < i < |keys| - 1 && ShortHere(segments, minMs, i))
  }

  /** Corrected labels are labels of the input, the outer ones are kept, and only short segments change theirs. */
  ghost predicate Tame(segments: seq<Segment>, keys: seq<string>, minMs: int)
    requires |keys| == |segments|
  {
    forall i {:trigger KeptOrShort(segments, keys, minMs, i)} :: 0 <= i < |keys| ==> KeptOrShort(segments, keys, minMs, i)
  }

  predicate NoSingles(segments: seq<Segment>, keys: seq<string>, minMs: int, n: int)
    requires |keys| == |segments|
  {
    forall i :: 0 <= i < n ==> !SingleFlicker(segments, keys, minMs, i)
  }

  predicate NoDoubles(segments: seq<Segment>, keys: seq<string>, minMs: int, n: int)
    requires |keys| == |segments|
  {
    forall i :: 0 <= i < n ==> !DoubleFlicker(segments, keys, minMs, i)
  }

  lemma FixSingleSettles(segments: seq<Segment>, keys: seq<string>, minMs: int, i: nat)
    requires |keys| == |segments| && Tame(segments, keys, minMs) && NoSingles(segments, keys, minMs, i)
    ensures var r := FixSingle(segments, keys, minMs, i);
            NoSingles(segments, r, minMs, i + 1) && Tame(segments, r, minMs)
  {
    var r := FixSingle(segments, keys, minMs, i);
    if SingleFlicker(segments, keys, minMs, i) {
      forall j | 0 <= j < i + 1 ensures !SingleFlicker(segments, r, minMs, j) {
        assert !(j < i && SingleFlicker(segments, keys, minMs, j));
      }
      assert KeptOrShort(segments, keys, minMs, i - 1);
      forall j | 0 <= j < |r| ensures KeptOrShort(segments, r, minMs, j) {
        assert KeptOrShort(segments, keys, minMs, j);
      }
    }
  }

  lemma FixDoubleSettles(segments: seq<Segment>, keys: seq<string>, minMs: int, i: nat)
    requires |keys| == |segments| && Tame(segments, keys, minMs) && NoSingles(segments, keys, minMs, |segments|)
    requires NoDoubles(segments, keys, minMs, i)
    ensures var r := FixDouble(segments, keys, minMs, i);
            NoSingles(segments, r, minMs, |segments|) && NoDoubles(segments, r, minMs, i + 1) && Tame(segments, r, minMs)
  {
    var r := FixDouble(segments, keys, minMs, i);
    if DoubleFlicker(segments, keys, minMs, i) {
      forall j | 0 <= j < |segments| ensures !SingleFlicker(segments, r, minMs, j) {
        assert !SingleFlicker(segments, keys, minMs, j);
      }
      forall j | 0 <= j < i + 1 ensures !DoubleFlicker(segments, r, minMs, j) {
        assert !(j < i && DoubleFlicker(segments, keys, minMs, j));
      }
      assert KeptOrShort(segments, keys, minMs, i - 1);
      forall j | 0 <= j < |r| ensures KeptOrShort(segments, r, minMs, j) {
        assert KeptOrShort(segments, keys, minMs, j);
      }
    }
  }

  lemma {:induction false} SinglesAreFixed(segments: seq<Segment>, keys: seq<string>, minMs: int, n: nat)
    requires |keys| == |segments| && Tame(segments, keys, minMs)
    ensures NoSingles(segments, FixSingles(segments, keys, minMs, n), minMs, n)
    ensures Tame(segments, FixSingles(segments, keys, minMs, n), minMs)
  {
    if n > 0 {
      SinglesAreFixed(segments, keys, minMs, n - 1);
      FixSingleSettles(segments, FixSingles(segments, keys, minMs, n - 1), minMs, n - 1);
    }
  }

  lemma {:induction false} DoublesAreFixed(segments: seq<Segment>, keys: seq<string>, minMs: int, n: nat)
    requires |keys| == |segments| && Tame(segments, keys, minMs) && NoSingles(segments, keys, minMs, |segments|)
    ensures var r := FixDoubles(segments, keys, minMs, n);
            NoSingles(segments, r, minMs, |segments|) && NoDoubles(segments, r, minMs, n) && Tame(segments, r, minMs)
  {
    if n > 0 {
      DoublesAreFixed(segments, keys, minMs, n - 1);
      FixDoubleSettles(segments, FixDoubles(segments, keys, minMs, n - 1), minMs, n - 1);
    }
  }

  /** After the correction no short flicker is left, single or double: fixing one never makes another. */
  lemma CorrectionSettles(segments: seq<Segment>, minMs: int)
    ensures var keys := CorrectedKeys(segments, minMs);
            && NoSingles(segments, keys, minMs, |segments|) && NoDoubles(segments, keys, minMs, |segments|)
            && Tame(segments, keys, minMs)
    ensures var keys := CorrectedKeys(segments, minMs);
            && (forall i :: 1 <= i < |keys| - 1 && keys[i - 1] == keys[i + 1] && keys[i] != keys[i - 1] ==>
                  segments[i].endMs - segments[i].startMs > (if minMs > 500 then minMs else 500))
            && (forall i {:trigger keys[i + 2]} ::
                  1 <= i < |keys| - 2 && keys[i - 1] == keys[i + 2] && keys[i] == keys[i + 1] && keys[i] != keys[i - 1] ==>
                    segments[i + 1].endMs - segments[i].startMs > (if minMs > 600 then minMs else 600))
  {
    SettledKeys(segments, minMs);
    var keys := CorrectedKeys(segments, minMs);
    forall i | 1 <= i < |keys| - 1 && keys[i - 1] == keys[i + 1] && keys[i] != keys[i - 1]
      ensures segments[i].endMs - segments[i].startMs > (if minMs > 500 then minMs else 500)
    {
      assert !SingleFlicker(segments, keys, minMs, i);
    }
    forall i | 1 <= i < |keys| - 2 && keys[i - 1] == keys[i + 2] && keys[i] == keys[i + 1] && keys[i] != keys[i - 1]
      ensures segments[i + 1].endMs - segments[i].startMs > (if minMs > 600 then minMs else 600)
    {
      assert !DoubleFlicker(segments, keys, minMs, i);
    }
  }

  lemma SettledKeys(segments: seq<Segment>, minMs: int)
    ensures var keys := CorrectedKeys(segments, minMs);
            && NoSingles(segments, keys, minMs, |segments|) && NoDoubles(segments, keys, minMs, |segments|)
            && Tame(segments, keys, minMs)
  {
    var keys := Keys(segments);
    forall i | 0 <= i < |keys| ensures KeptOrShort(segments, keys, minMs, i) { assert keys[i] == segments[i].speaker; }
    SinglesAreFixed(segments, keys, minMs, |segments|);
    DoublesAreFixed(segments, FixSingles(segments, keys, minMs, |segments|), minMs, |segments|);
  }

  // ---------- merging ----------

  function Joined(texts: Texts, last: Segment, s: Segment): Segment {
    last.(endMs := if last.endMs >= s.endMs then last.endMs else s.endMs,
          text := texts.join(last.text, s.text),
          translation := texts.joinTranslation(last.translation, s.translation),
          language := if last.language.Some? then last.language else s.language)
  }

  predicate Continues(last: Segment, s: Segment, gapMs: int) {
    last.speaker == s.speaker && s.startMs - last.endMs <= gapMs
  }

  /** The next segment lengthens the last merged one, or starts another. */
  function MergeOne(texts: Texts, merged: seq<Segment>, s: Segment, gapMs: int): (r: seq<Segment>)
    ensures r != []
  {
    if merged != [] && Continues(merged[|merged| - 1], s, gapMs) then
      merged[..|merged| - 1] + [Joined(texts, merged[|merged| - 1], s)]
    else merged + [s]
  }

  function Merged(texts: Texts, segments: seq<Segment>, gapMs: int): (r: seq<Segment>)
    ensures segments != [] ==> r != []
  {
    if segments == [] then []
    else MergeOne(texts, Merged(texts, segments[..|segments| - 1], gapMs), segments[|segments| - 1], gapMs)
  }

  /** A run as one segment: what it starts with, all its text in order, and the latest of its ends. */
  function Collapse(texts: Texts, run: seq<Segment>): Segment
    requires run != []
  {
    if |run| == 1 then run[0] else Joined(texts, Collapse(texts, run[..|run| - 1]), run[|run| - 1])
  }

  lemma {:induction false} CollapseKeeps(texts: Texts, run: seq<Segment>)
    requires run != []
    ensures var c := Collapse(texts, run);
            && c.id == run[0].id && c.startMs == run[0].startMs && c.sourceEpoch == run[0].sourceEpoch
            && c.speaker == run[0].speaker && c.order == run[0].order
            && (forall i :: 0 <= i < |run| ==> run[i].endMs <= c.endMs)
            && (exists i :: 0 <= i < |run| && run[i].endMs == c.endMs)
  {
    if |run| > 1 {
      CollapseKeeps(texts, run[..|run| - 1]);
    }
  }

  /** Texts are joined from the first on, each to what was joined before it. */
  function TextFrom(texts: Texts, text: string, rest: seq<Segment>): string
    decreases |rest|
  {
    if rest == [] then text else TextFrom(texts, texts.join(text, rest[0].text), rest[1..])
  }

  function TranslationFrom(texts: Texts, translation: Option<string>, rest: seq<Segment>): Option<string>
    decreases |rest|
  {
    if rest == [] then translation
    else TranslationFrom(texts, texts.joinTranslation(translation, rest[0].translation), rest[1..])
  }

  /** The first language there is. */
  function FirstLanguage(run: seq<Segment>): Option<string>
    decreases |run|
  {
    if run == [] then None else if run[0].language.Some? then run[0].language else FirstLanguage(run[1..])
  }

  lemma {:induction false} OneMoreText(texts: Texts, text: string, translation: Option<string>, rest: seq<Segment>, s: Segment)
    ensures TextFrom(texts, text, rest + [s]) == texts.join(TextFrom(texts, text, rest), s.text)
    ensures TranslationFrom(texts, translation, rest + [s])
            == texts.joinTranslation(TranslationFrom(texts, translation, rest), s.translation)
    decreases |rest|
  {
    if rest == [] {
      assert rest + [s] == [s] && [s][1..] == [];
    } else {
      assert (rest + [s])[1..] == rest[1..] + [s];
      OneMoreText(texts, texts.join(text, rest[0].text), texts.joinTranslation(translation, rest[0].translation), rest[1..], s);
    }
  }

  lemma {:induction false} OneMoreLanguage(run: seq<Segment>, s: Segment)
    ensures FirstLanguage(run + [s]) == if FirstLanguage(run).Some? then FirstLanguage(run) else s.language
    decreases |run|
  {
    if run == [] {
      assert run + [s] == [s] && [s][1..] == [];
    } else {
      assert (run + [s])[1..] == run[1..] + [s];
      OneMoreLanguage(run[1..], s);
    }
  }

  /** A merged segment has all texts and translations of its run in order, and the first language named in it. */
  lemma {:induction false} CollapseJoinsInOrder(texts: Texts, run: seq<Segment>)
    requires run != []
    ensures var c := Collapse(texts, run);
            && c.text == TextFrom(texts, run[0].text, run[1..])
            && c.translation == TranslationFrom(texts, run[0].translation, run[1..])
            && c.language == FirstLanguage(run)
  {
    var n := |run| - 1;
    if n > 0 {
      CollapseJoinsInOrder(texts, run[..n]);
      assert run == run[..n] + [run[n]] && run[1..] == run[..n][1..] + [run[n]];
      OneMoreText(texts, run[0].text, run[0].translation, run[..n][1..], run[n]);
      OneMoreLanguage(run[..n], run[n]);
    } else {
      assert run[1..] == [];
    }
  }

  /** In a run each segment is of the first one's speaker and begins at most the gap after the latest end before it. */
  lemma RunIsClose(texts: Texts, run: seq<Segment>, gapMs: int, i: nat)
    requires IsRun(texts, run, gapMs) && 0 < i < |run|
    ensures run[i].speaker == run[0].speaker
    ensures exists j :: 0 <= j < i && run[i].startMs - run[j].endMs <= gapMs
                        && forall m :: 0 <= m < i ==> run[m].endMs <= run[j].endMs
  {
    assert ContinuesRun(texts, run, i, gapMs);
    CollapseKeeps(texts, run[..i]);
    var j :| 0 <= j < i && run[..i][j].endMs == Collapse(texts, run[..i]).endMs;
    assert forall m :: 0 <= m < i ==> run[m] == run[..i][m];
  }

  function Flat<T>(parts: seq<seq<T>>): seq<T> {
    if parts == [] then [] else Flat(parts[..|parts| - 1]) + parts[|parts| - 1]
  }

  predicate ContinuesRun(texts: Texts, run: seq<Segment>, i: nat, gapMs: int)
    requires 0 < i < |run|
  {
    Continues(Collapse(texts, run[..i]), run[i], gapMs)
  }

  predicate Breaks(texts: Texts, runs: seq<seq<Segment>>, k: nat, gapMs: int)
    requires 0 < k < |runs|
  {
    runs[k - 1] != [] && runs[k] != [] && !Continues(Collapse(texts, runs[k - 1]), runs[k][0], gapMs)
  }

  ghost predicate IsRun(texts: Texts, run: seq<Segment>, gapMs: int) {
    && run != []
    && forall i {:trigger ContinuesRun(texts, run, i, gapMs)} :: 0 < i < |run| ==> ContinuesRun(texts, run, i, gapMs)
  }

  /**
  The runs put together are the segments. Inside a run each segment continues what came before it in the run: the
  same speaker, close to the latest end so far. The first segment of a run does not continue the run before it.
  */
  ghost predicate AreRuns(texts: Texts, segments: seq<Segment>, gapMs: int, runs: seq<seq<Segment>>) {
    && Flat(runs) == segments
    && (forall k {:trigger runs[k]} :: 0 <= k < |runs| ==> IsRun(texts, runs[k], gapMs))
    && (forall k {:trigger Breaks(texts, runs, k, gapMs)} :: 0 < k < |runs| ==> Breaks(texts, runs, k, gapMs))
  }

  function Collapsed(texts: Texts, runs: seq<seq<Segment>>): (r: seq<Segment>)
    requires forall k :: 0 <= k < |runs| ==> runs[k] != []
    ensures |r| == |runs|
  {
    seq(|runs|, k requires 0 <= k < |runs| => Collapse(texts, runs[k]))
  }

  lemma LongerRun(texts: Texts, run: seq<Segment>, s: Segment, gapMs: int)
    requires IsRun(texts, run, gapMs) && Continues(Collapse(texts, run), s, gapMs)
    ensures IsRun(texts, run + [s], gapMs)
    ensures Collapse(texts, run + [s]) == Joined(texts, Collapse(texts, run), s)
  {
    var longer := run + [s];
    assert longer[..|run|] == run;
    forall i | 0 < i < |longer| ensures ContinuesRun(texts, longer, i, gapMs) {
      if i < |run| {
        assert longer[..i] == run[..i];
        assert ContinuesRun(texts, run, i, gapMs);
      }
    }
  }

  lemma LengthenLast(texts: Texts, segments: seq<Segment>, s: Segment, gapMs: int, runs: seq<seq<Segment>>)
    returns (more: seq<seq<Segment>>)
    requires AreRuns(texts, segments, gapMs, runs)
    requires runs != [] && Continues(Collapse(texts, runs[|runs| - 1]), s, gapMs)
    ensures AreRuns(texts, segments + [s], gapMs, more)
    ensures Collapsed(texts, more) == MergeOne(texts, Collapsed(texts, runs), s, gapMs)
  {
    var last, front := runs[|runs| - 1], runs[..|runs| - 1];
    more := front + [last + [s]];
    LongerRun(texts, last, s, gapMs);
    forall k | 0 < k < |more| ensures Breaks(texts, more, k, gapMs) { assert Breaks(texts, runs, k, gapMs); }
    assert more[..|more| - 1] == front;
    assert Flat(more) == Flat(front) + last + [s];
  }

  /** One more segment starts a run of its own, or lengthens the last run. */
  lemma ExtendRuns(texts: Texts, segments: seq<Segment>, s: Segment, gapMs: int, runs: seq<seq<Segment>>)
    returns (more: seq<seq<Segment>>)
    requires AreRuns(texts, segments, gapMs, runs)
    ensures AreRuns(texts, segments + [s], gapMs, more)
    ensures Collapsed(texts, more) == MergeOne(texts, Collapsed(texts, runs), s, gapMs)
  {
    if runs != [] && Continues(Collapse(texts, runs[|runs| - 1]), s, gapMs) {
      more := LengthenLast(texts, segments, s, gapMs, runs);
    } else {
      more := runs + [[s]];
      forall k | 0 < k < |more| ensures Breaks(texts, more, k, gapMs) {
        if k < |runs| { assert Breaks(texts, runs, k, gapMs); }
      }
      assert more[..|runs|] == runs;
    }
  }

  /** Merging collapses the runs of the segments, one output segment a run. */
  lemma {:induction false} MergedAreRuns(texts: Texts, segments: seq<Segment>, gapMs: int)
    returns (runs: seq<seq<Segment>>)
    ensures AreRuns(texts, segments, gapMs, runs) && Merged(texts, segments, gapMs) == Collapsed(texts, runs)
  {
    if segments == [] {
      runs := [];
    } else {
      var init, s := segments[..|segments| - 1], segments[|segments| - 1];
      var before := MergedAreRuns(texts, init, gapMs);
      runs := ExtendRuns(texts, init, s, gapMs, before);
      assert init + [s] == segments;
    }
  }

  /** There is only one way to cut segments into runs. */
  lemma {:induction false} RunsAreUnique(
      texts: Texts, segments: seq<Segment>, gapMs: int, runs: seq<seq<Segment>>, others: seq<seq<Segment>>)
    requires AreRuns(texts, segments, gapMs, runs) && AreRuns(texts, segments, gapMs, others)
    ensures runs == others
    decreases |segments|
  {
    if segments == [] {
      NoRunsOfNothing(texts, gapMs, runs);
      NoRunsOfNothing(texts, gapMs, others);
    } else {
      var init := segments[..|segments| - 1];
      var s := segments[|segments| - 1];
      var before := Shortened(texts, segments, gapMs, runs);
      var before' := Shortened(texts, segments, gapMs, others);
      RunsAreUnique(texts, init, gapMs, before, before');
    }
  }

  lemma FlatIsNotEmpty<T>(parts: seq<seq<T>>)
    requires forall k :: 0 <= k < |parts| ==> parts[k] != []
    ensures parts != [] ==> Flat(parts) != []
  {
  }

  lemma NoRunsOfNothing(texts: Texts, gapMs: int, runs: seq<seq<Segment>>)
    requires AreRuns(texts, [], gapMs, runs)
    ensures runs == []
  {
    forall k | 0 <= k < |runs| ensures runs[k] != [] { assert IsRun(texts, runs[k], gapMs); }
    FlatIsNotEmpty(runs);
  }

  /** Runs without their last segment are runs, and say how the last segment was attached. */
  lemma Shortened(
      texts: Texts, segments: seq<Segment>, gapMs: int, runs: seq<seq<Segment>>)
    returns (less: seq<seq<Segment>>)
    requires AreRuns(texts, segments, gapMs, runs) && segments != []
    ensures AreRuns(texts, segments[..|segments| - 1], gapMs, less)
    ensures var s := segments[|segments| - 1];
            runs == if less != [] && less[|less| - 1] != [] && Continues(Collapse(texts, less[|less| - 1]), s, gapMs) then
                      less[..|less| - 1] + [less[|less| - 1] + [s]]
                    else less + [[s]]
  {
    var last := runs[|runs| - 1];
    var front := runs[..|runs| - 1];
    assert IsRun(texts, last, gapMs);
    var s := last[|last| - 1];
    assert segments == Flat(front) + last;
    assert s == segments[|segments| - 1];
    forall k | 0 < k < |front| ensures Breaks(texts, front, k, gapMs) { assert Breaks(texts, runs, k, gapMs); }
    if |last| == 1 {
      less := front;
      assert last == [s];
      if front != [] { assert Breaks(texts, runs, |front|, gapMs); }
    } else {
      var shorter := last[..|last| - 1];
      less := front + [shorter];
      assert ContinuesRun(texts, last, |last| - 1, gapMs);
      forall i | 0 < i < |shorter| ensures ContinuesRun(texts, shorter, i, gapMs) {
        assert shorter[..i] == last[..i];
        assert ContinuesRun(texts, last, i, gapMs);
      }
      forall k | 0 < k < |less| ensures Breaks(texts, less, k, gapMs) { assert Breaks(texts, runs, k, gapMs); }
      assert less[..|less| - 1] == front;
      assert Flat(less) == segments[..|segments| - 1];
      assert shorter + [s] == last;
    }
  }

  // ---------- the whole ----------

  function Numbered(segments: seq<Segment>): seq<Segment> {
    seq(|segments|, i requires 0 <= i < |segments| => segments[i].(order := i))
  }

  function Smoothed(texts: Texts, minMs: int, gapMs: int, segments: seq<Segment>): seq<Segment> {
    Numbered(Merged(texts, Corrected(Filtered(texts, minMs, segments), minMs), gapMs))
  }

  /** The kept segments come in the order of the input, as often as there. */
  lemma {:induction false} FilteredConcat(texts: Texts, minMs: int, a: seq<Segment>, b: seq<Segment>)
    ensures Filtered(texts, minMs, a + b) == Filtered(texts, minMs, a) + Filtered(texts, minMs, b)
    ensures forall x :: Filtered(texts, minMs, [x])
                        == if x.endMs - x.startMs >= minMs || texts.meaningful(x.text) then [x] else []
  {
    forall x ensures Filtered(texts, minMs, [x])
                     == if x.endMs - x.startMs >= minMs || texts.meaningful(x.text) then [x] else []
    {
      assert [x][..0] == [];
    }
    if b == [] {
      assert a + b == a;
    } else {
      assert (a + b)[..|a + b| - 1] == a + b[..|b| - 1];
      FilteredConcat(texts, minMs, a, b[..|b| - 1]);
    }
  }

  lemma {:induction false} FilteredAreKept(texts: Texts, minMs: int, segments: seq<Segment>, s: Segment)
    ensures s in Filtered(texts, minMs, segments)
            <==> s in segments && (s.endMs - s.startMs >= minMs || texts.meaningful(s.text))
  {
    if segments != [] {
      FilteredAreKept(texts, minMs, segments[..|segments| - 1], s);
      assert segments == segments[..|segments| - 1] + [segments[|segments| - 1]];
    }
  }

  lemma RunSpeakerIsInput(texts: Texts, minMs: int, segments: seq<Segment>, runs: seq<seq<Segment>>, k: nat)
    requires Flat(runs) == Corrected(Filtered(texts, minMs, segments), minMs) && k < |runs| && runs[k] != []
    ensures exists s :: s in segments && s.speaker == Collapse(texts, runs[k]).speaker
  {
    var kept := Filtered(texts, minMs, segments);
    CorrectionSettles(kept, minMs);
    CollapseKeeps(texts, runs[k]);
    var i := FlatContains(runs, k);
    assert KeptOrShort(kept, CorrectedKeys(kept, minMs), minMs, i);
    var j :| 0 <= j < |kept| && Keys(kept)[j] == runs[k][0].speaker;
    FilteredAreKept(texts, minMs, segments, kept[j]);
  }

  lemma RunsStayApart(texts: Texts, runs: seq<seq<Segment>>, gapMs: int, k: nat)
    requires 0 < k < |runs| && Breaks(texts, runs, k, gapMs)
    ensures !Continues(Collapse(texts, runs[k - 1]), Collapse(texts, runs[k]), gapMs)
  {
    CollapseKeeps(texts, runs[k]);
  }

  lemma NumberedRunsStayApart(texts: Texts, segments: seq<Segment>, gapMs: int, runs: seq<seq<Segment>>)
    requires AreRuns(texts, segments, gapMs, runs)
    ensures var out := Numbered(Collapsed(texts, runs));
            forall k :: 0 < k < |out| ==> !Continues(out[k - 1], out[k], gapMs)
  {
    var out := Numbered(Collapsed(texts, runs));
    forall k | 0 < k < |out| ensures !Continues(out[k - 1], out[k], gapMs) {
      assert Breaks(texts, runs, k, gapMs);
      RunsStayApart(texts, runs, gapMs, k);
    }
  }

  /**
  The output is the kept segments cut into runs, one numbered segment a run; two neighbours are never of one
  speaker and close in time, and every speaker is one the input names.
  */
  lemma SmoothedArePartition(
      texts: Texts, minMs: int, gapMs: int, segments: seq<Segment>)
    returns (runs: seq<seq<Segment>>)
    ensures var out := Smoothed(texts, minMs, gapMs, segments);
            && AreRuns(texts, Corrected(Filtered(texts, minMs, segments), minMs), gapMs, runs) && |out| == |runs|
            && (forall k :: 0 <= k < |out| ==> out[k] == Collapse(texts, runs[k]).(order := k))
            && (forall k :: 0 < k < |out| ==> !Continues(out[k - 1], out[k], gapMs))
            && (forall k :: 0 < k < |out| ==>
                  out[k].speaker != out[k - 1].speaker || out[k].startMs - out[k - 1].endMs > gapMs)
            && (forall k :: 0 <= k < |out| ==> exists s :: s in segments && s.speaker == out[k].speaker)
  {
    var corrected := Corrected(Filtered(texts, minMs, segments), minMs);
    runs := MergedAreRuns(texts, corrected, gapMs);
    NumberedRunsStayApart(texts, corrected, gapMs, runs);
    forall k | 0 <= k < |runs| ensures exists s :: s in segments && s.speaker == Collapse(texts, runs[k]).speaker {
      assert IsRun(texts, runs[k], gapMs);
      RunSpeakerIsInput(texts, minMs, segments, runs, k);
    }
  }

  lemma {:induction false} FlatContains(runs: seq<seq<Segment>>, k: nat) returns (i: nat)
    requires k < |runs| && runs[k] != []
    ensures i < |Flat(runs)| && Flat(runs)[i] == runs[k][0]
    decreases |runs|
  {
    if k == |runs| - 1 {
      i := |Flat(runs[..k])|;
    } else {
      i := FlatContains(runs[..|runs| - 1], k);
    }
  }

  // ---------- smoothing twice ----------

  predicate Meaningful(texts: Texts, segments: seq<Segment>) {
    forall i :: 0 <= i < |segments| ==> texts.meaningful(segments[i].text)
  }

  lemma {:induction false} NothingFiltered(texts: Texts, minMs: int, segments: seq<Segment>)
    requires Meaningful(texts, segments)
    ensures Filtered(texts, minMs, segments) == segments
  {
    if segments != [] {
      NothingFiltered(texts, minMs, segments[..|segments| - 1]);
    }
  }

  function Speech(id: nat, speaker: string, startMs: nat, endMs: nat, text: string): Segment {
    Segment(id, id, 0, speaker, startMs, endMs, text, None, None)
  }

  /** Five segments a b c b a, the inner three a tenth of a second each. */
  function Flickering(a: string, b: string, c: string, text: string): seq<Segment> {
    [Speech(0, a, 0, 1000, text), Speech(1, b, 1000, 1100, text), Speech(2, c, 1100, 1200, text),
     Speech(3, b, 1200, 1300, text), Speech(4, a, 1300, 2300, text)]
  }

  /** Positions where no flicker is found leave the labels as they are. */
  lemma {:induction false} NoDoubleNoChange(segments: seq<Segment>, keys: seq<string>, minMs: int, n: nat)
    requires |keys| == |segments| && forall i :: 0 <= i < n ==> !DoubleFlicker(segments, keys, minMs, i)
    ensures FixDoubles(segments, keys, minMs, n) == keys
  {
    if n > 0 { NoDoubleNoChange(segments, keys, minMs, n - 1); }
  }

  /** A single flicker at one position only, where fixing it leaves none behind it. */
  lemma {:induction false} OneSingleFixed(
      segments: seq<Segment>, keys: seq<string>, fixed: seq<string>, minMs: int, at: nat, n: nat)
    requires |keys| == |segments| && at < n && fixed == FixSingle(segments, keys, minMs, at)
    requires forall i :: 0 <= i < at ==> !SingleFlicker(segments, keys, minMs, i)
    requires forall i :: at < i < n ==> !SingleFlicker(segments, fixed, minMs, i)
    ensures FixSingles(segments, keys, minMs, n) == fixed
  {
    if n > at + 1 {
      OneSingleFixed(segments, keys, fixed, minMs, at, n - 1);
    } else {
      NoSingleNoChange(segments, keys, minMs, at);
    }
  }

  lemma {:induction false} NoSingleNoChange(segments: seq<Segment>, keys: seq<string>, minMs: int, n: nat)
    requires |keys| == |segments| && forall i :: 0 <= i < n ==> !SingleFlicker(segments, keys, minMs, i)
    ensures FixSingles(segments, keys, minMs, n) == keys
  {
    if n > 0 { NoSingleNoChange(segments, keys, minMs, n - 1); }
  }

  lemma FlickeringCorrected(a: string, b: string, c: string, text: string)
    requires a != b && b != c && a != c
    ensures CorrectedKeys(Flickering(a, b, c, text), 350) == [a, b, b, b, a]
  {
    var segments := Flickering(a, b, c, text);
    assert Keys(segments) == [a, b, c, b, a];
    OneSingleFixed(segments, Keys(segments), [a, b, b, b, a], 350, 2, 5);
    NoDoubleNoChange(segments, [a, b, b, b, a], 350, 5);
  }

  lemma MergedNext(texts: Texts, k: seq<Segment>, gapMs: int, n: nat)
    requires n < |k|
    ensures Merged(texts, k[..n + 1], gapMs) == MergeOne(texts, Merged(texts, k[..n], gapMs), k[n], gapMs)
  {
    assert k[..n + 1][..n] == k[..n];
  }

  lemma MergeContinuing(texts: Texts, merged: seq<Segment>, last: Segment, s: Segment, gapMs: int)
    requires Continues(last, s, gapMs)
    ensures MergeOne(texts, merged + [last], s, gapMs) == merged + [Joined(texts, last, s)]
  {
  }

  lemma MergeApart(texts: Texts, merged: seq<Segment>, last: Segment, s: Segment, gapMs: int)
    requires !Continues(last, s, gapMs)
    ensures MergeOne(texts, merged + [last], s, gapMs) == merged + [last] + [s]
  {
  }

  lemma MergedJoins(texts: Texts, k: seq<Segment>, gapMs: int, n: nat, merged: seq<Segment>, last: Segment)
    requires n < |k| && Merged(texts, k[..n], gapMs) == merged + [last] && Continues(last, k[n], gapMs)
    ensures Merged(texts, k[..n + 1], gapMs) == merged + [Joined(texts, last, k[n])]
  {
    MergedNext(texts, k, gapMs, n);
    MergeContinuing(texts, merged, last, k[n], gapMs);
  }

  lemma MergedAppends(texts: Texts, k: seq<Segment>, gapMs: int, n: nat, merged: seq<Segment>, last: Segment)
    requires n < |k| && Merged(texts, k[..n], gapMs) == merged + [last] && !Continues(last, k[n], gapMs)
    ensures Merged(texts, k[..n + 1], gapMs) == merged + [last] + [k[n]]
  {
    MergedNext(texts, k, gapMs, n);
    MergeApart(texts, merged, last, k[n], gapMs);
  }

  lemma FirstMerged(texts: Texts, k: seq<Segment>, gapMs: int)
    requires k != []
    ensures Merged(texts, k[..1], gapMs) == [k[0]]
  {
    MergedNext(texts, k, gapMs, 0);
    assert k[..0] == [];
  }

  lemma TwoMerged(texts: Texts, k: seq<Segment>, gapMs: int)
    requires |k| >= 2 && !Continues(k[0], k[1], gapMs)
    ensures Merged(texts, k[..2], gapMs) == [k[0]] + [k[1]]
  {
    FirstMerged(texts, k, gapMs);
    assert [] + [k[0]] == [k[0]] && [] + [k[0]] + [k[1]] == [k[0]] + [k[1]];
    MergedAppends(texts, k, gapMs, 1, [], k[0]);
  }

  lemma JoinedAfterFirst(texts: Texts, k: seq<Segment>, gapMs: int, two: Segment, three: Segment)
    requires |k| >= 4 && two == Joined(texts, k[1], k[2]) && three == Joined(texts, two, k[3])
    requires !Continues(k[0], k[1], gapMs) && Continues(k[1], k[2], gapMs) && Continues(two, k[3], gapMs)
    ensures Merged(texts, k[..4], gapMs) == [k[0]] + [three]
  {
    TwoMerged(texts, k, gapMs);
    MergedJoins(texts, k, gapMs, 2, [k[0]], k[1]);
    MergedJoins(texts, k, gapMs, 3, [k[0]], two);
  }

  /** The inner three of five segments are merged into one. */
  lemma InnerThreeMerged(texts: Texts, k: seq<Segment>, two: Segment, three: Segment, gapMs: int)
    requires |k| == 5 && two == Joined(texts, k[1], k[2]) && three == Joined(texts, two, k[3])
    requires !Continues(k[0], k[1], gapMs) && Continues(k[1], k[2], gapMs)
    requires Continues(two, k[3], gapMs) && !Continues(three, k[4], gapMs)
    ensures Merged(texts, k, gapMs) == [k[0], three, k[4]]
  {
    assert k[..5] == k;
    assert Merged(texts, k[..5], gapMs) == [k[0]] + [three] + [k[4]] by {
      JoinedAfterFirst(texts, k, gapMs, two, three);
      MergedAppends(texts, k, gapMs, 4, [k[0]], three);
    }
  }

  /** The corrected labels make one short run of the inner three: three segments come out. */
  lemma SmoothedOnce(texts: Texts, a: string, b: string, c: string, text: string)
    requires a != b && b != c && a != c && texts.meaningful(text)
    ensures var out := Smoothed(texts, 350, 1000, Flickering(a, b, c, text));
            && |out| == 3
            && out[0].speaker == a && out[0].startMs == 0 && out[0].endMs == 1000
            && out[1].speaker == b && out[1].startMs == 1000 && out[1].endMs == 1300
            && out[2].speaker == a && out[2].startMs == 1300 && out[2].endMs == 2300
            && out[0].text == out[2].text == text && out[1].text == texts.join(texts.join(text, text), text)
  {
    var segments := Flickering(a, b, c, text);
    NothingFiltered(texts, 350, segments);
    FlickeringCorrected(a, b, c, text);
    var k := Corrected(segments, 350);
    var two := Joined(texts, k[1], k[2]);
    InnerThreeMerged(texts, k, two, Joined(texts, two, k[3]), 1000);
  }

  lemma SandwichCorrected(s: seq<Segment>)
    requires |s| == 3 && s[0].speaker == s[2].speaker != s[1].speaker && Duration(s[1]) <= 500
    ensures var speaker := s[0].speaker; CorrectedKeys(s, 350) == [speaker, speaker, speaker]
  {
    var speaker := s[0].speaker;
    assert Keys(s) == [speaker, s[1].speaker, speaker];
    OneSingleFixed(s, Keys(s), [speaker, speaker, speaker], 350, 1, 3);
    NoDoubleNoChange(s, [speaker, speaker, speaker], 350, 3);
  }

  lemma ThreeMerged(texts: Texts, k: seq<Segment>, gapMs: int)
    requires |k| == 3 && Continues(k[0], k[1], gapMs) && Continues(Joined(texts, k[0], k[1]), k[2], gapMs)
    ensures |Merged(texts, k, gapMs)| == 1
  {
    var two := Joined(texts, k[0], k[1]);
    FirstMerged(texts, k, gapMs);
    MergedJoins(texts, k, gapMs, 1, [], k[0]);
    MergedJoins(texts, k, gapMs, 2, [], two);
    assert k[..3] == k;
  }

  /** Three segments a b a with a short one inside, as smoothing leaves them: smoothed again they are one. */
  lemma SandwichIsMerged(texts: Texts, s: seq<Segment>)
    requires |s| == 3 && s[0].speaker == s[2].speaker != s[1].speaker && Meaningful(texts, s)
    requires s[0].endMs == s[1].startMs && s[1].endMs == s[2].startMs && Duration(s[1]) <= 500
    ensures |Smoothed(texts, 350, 1000, s)| == 1
  {
    NothingFiltered(texts, 350, s);
    SandwichCorrected(s);
    ThreeMerged(texts, Corrected(s, 350), 1000);
  }

  /** Joining keeps what makes a text meaningful. */
  ghost predicate JoinKeepsMeaning(texts: Texts) {
    forall x, y :: texts.meaningful(x) && texts.meaningful(y) ==> texts.meaningful(texts.join(x, y))
  }

  /** Smoothing is not idempotent: merging can leave a short run that a second smoothing takes for a flicker. */
  lemma SmoothingTwiceDiffers(texts: Texts, a: string, b: string, c: string, text: string)
    requires a != b && b != c && a != c && texts.meaningful(text) && JoinKeepsMeaning(texts)
    ensures var once := Smoothed(texts, 350, 1000, Flickering(a, b, c, text));
            |once| == 3 && |Smoothed(texts, 350, 1000, once)| == 1
  {
    SmoothedOnce(texts, a, b, c, text);
    assert texts.meaningful(texts.join(text, text));
    SandwichIsMerged(texts, Smoothed(texts, 350, 1000, Flickering(a, b, c, text)));
  }

  predicate NoNoise(texts: Texts, minMs: int, segments: seq<Segment>) {
    forall i :: 0 <= i < |segments| ==> !IsNoise(texts, minMs, segments[i])
  }

  predicate Apart(segments: seq<Segment>, gapMs: int, k: nat)
    requires 0 < k < |segments|
  {
    !Continues(segments[k - 1], segments[k], gapMs)
  }

  /** Numbered from 0, and no neighbours of one speaker close in time: what smoothing returns. */
  ghost predicate LikeSmoothed(segments: seq<Segment>, gapMs: int) {
    && (forall i :: 0 <= i < |segments| ==> segments[i].order == i)
    && forall k {:trigger Apart(segments, gapMs, k)} :: 0 < k < |segments| ==> Apart(segments, gapMs, k)
  }

  /** What a second smoothing would act on is not there. */
  predicate Calm(texts: Texts, minMs: int, segments: seq<Segment>) {
    && NoNoise(texts, minMs, segments)
    && NoSingles(segments, Keys(segments), minMs, |segments|)
    && NoDoubles(segments, Keys(segments), minMs, |segments|)
  }

  lemma {:induction false} FilteredAllIff(texts: Texts, minMs: int, segments: seq<Segment>)
    ensures |Filtered(texts, minMs, segments)| <= |segments|
    ensures |Filtered(texts, minMs, segments)| == |segments| <==> NoNoise(texts, minMs, segments)
    ensures NoNoise(texts, minMs, segments) ==> Filtered(texts, minMs, segments) == segments
  {
    if segments != [] {
      var init, last := segments[..|segments| - 1], segments[|segments| - 1];
      FilteredAllIff(texts, minMs, init);
      assert segments == init + [last];
      assert NoNoise(texts, minMs, segments) <==> NoNoise(texts, minMs, init) && !IsNoise(texts, minMs, last);
    }
  }

  lemma MergeOneLength(texts: Texts, merged: seq<Segment>, s: Segment, gapMs: int)
    ensures var r := MergeOne(texts, merged, s, gapMs);
            |r| <= |merged| + 1 && (|r| == |merged| + 1 ==> r == merged + [s])
  {
  }

  /** No longer than the segments, and the segments themselves where it is as long. */
  predicate NotLonger(merged: seq<Segment>, segments: seq<Segment>) {
    |merged| <= |segments| && (|merged| == |segments| ==> merged == segments)
  }

  lemma MergeOneNotLonger(
      texts: Texts, merged: seq<Segment>, before: seq<Segment>, s: Segment, gapMs: int, m: seq<Segment>, after: seq<Segment>)
    requires NotLonger(merged, before) && m == MergeOne(texts, merged, s, gapMs) && after == before + [s]
    ensures NotLonger(m, after)
  {
  }

  lemma PrefixGrows(segments: seq<Segment>, n: nat)
    requires n < |segments|
    ensures segments[..n + 1] == segments[..n] + [segments[n]]
  {
  }

  /** Merging never lengthens, and where it does not shorten it changes nothing. */
  lemma {:induction false} MergedNotLonger(texts: Texts, segments: seq<Segment>, gapMs: int, n: nat)
    requires n <= |segments|
    ensures NotLonger(Merged(texts, segments[..n], gapMs), segments[..n])
  {
    if n > 0 {
      var k := n - 1;
      MergedNotLonger(texts, segments, gapMs, k);
      PrefixGrows(segments, k);
      MergedNext(texts, segments, gapMs, k);
      MergeOneNotLonger(texts, Merged(texts, segments[..k], gapMs), segments[..k], segments[k], gapMs,
                        Merged(texts, segments[..n], gapMs), segments[..n]);
    }
  }

  lemma ApartIsAppended(texts: Texts, segments: seq<Segment>, gapMs: int, n: nat)
    requires n < |segments| && (n > 0 ==> Apart(segments, gapMs, n))
    ensures MergeOne(texts, segments[..n], segments[n], gapMs) == segments[..n + 1]
  {
    if n > 0 {
      assert segments[..n] == segments[..n - 1] + [segments[n - 1]];
      MergeApart(texts, segments[..n - 1], segments[n - 1], segments[n], gapMs);
    }
  }

  lemma {:induction false} ApartAreNotMerged(texts: Texts, segments: seq<Segment>, gapMs: int, n: nat)
    requires forall k {:trigger Apart(segments, gapMs, k)} :: 0 < k < |segments| ==> Apart(segments, gapMs, k)
    requires n <= |segments|
    ensures Merged(texts, segments[..n], gapMs) == segments[..n]
  {
    if n > 0 {
      ApartAreNotMerged(texts, segments, gapMs, n - 1);
      MergedNext(texts, segments, gapMs, n - 1);
      assert n > 1 ==> Apart(segments, gapMs, n - 1);
      ApartIsAppended(texts, segments, gapMs, n - 1);
    }
  }

  lemma CalmKeepsLabels(texts: Texts, minMs: int, s: seq<Segment>)
    requires Calm(texts, minMs, s)
    ensures Corrected(s, minMs) == s
  {
    NoSingleNoChange(s, Keys(s), minMs, |s|);
    NoDoubleNoChange(s, Keys(s), minMs, |s|);
    assert Relabelled(s, Keys(s)) == s;
  }

  lemma CalmStays(texts: Texts, minMs: int, gapMs: int, s: seq<Segment>)
    requires LikeSmoothed(s, gapMs) && Calm(texts, minMs, s)
    ensures Smoothed(texts, minMs, gapMs, s) == s
  {
    FilteredAllIff(texts, minMs, s);
    CalmKeepsLabels(texts, minMs, s);
    ApartAreNotMerged(texts, s, gapMs, |s|);
    assert s[..|s|] == s;
    assert Numbered(s) == s;
  }

  lemma UnchangedIsCalm(texts: Texts, minMs: int, gapMs: int, s: seq<Segment>)
    requires Smoothed(texts, minMs, gapMs, s) == s
    ensures Calm(texts, minMs, s)
  {
    var kept := Filtered(texts, minMs, s);
    var corrected := Corrected(kept, minMs);
    FilteredAllIff(texts, minMs, s);
    MergedNotLonger(texts, corrected, gapMs, |corrected|);
    assert corrected[..|corrected|] == corrected;
    assert kept == s && Merged(texts, corrected, gapMs) == corrected;
    var keys := CorrectedKeys(s, minMs);
    forall i | 0 <= i < |s| ensures keys[i] == Keys(s)[i] {
      assert Numbered(corrected)[i].speaker == keys[i];
    }
    assert keys == Keys(s);
    CorrectionSettles(s, minMs);
  }

  /** Smoothing a second time changes nothing exactly when the first left no noise and no short flicker. */
  lemma SmoothingTwiceIff(texts: Texts, minMs: int, gapMs: int, segments: seq<Segment>)
    ensures var once := Smoothed(texts, minMs, gapMs, segments);
            && LikeSmoothed(once, gapMs)
            && (Smoothed(texts, minMs, gapMs, once) == once <==> Calm(texts, minMs, once))
  {
    var once := Smoothed(texts, minMs, gapMs, segments);
    var runs := SmoothedArePartition(texts, minMs, gapMs, segments);
    forall k | 0 < k < |once| ensures Apart(once, gapMs, k) {
      assert !Continues(once[k - 1], once[k], gapMs);
    }
    if Calm(texts, minMs, once) {
      CalmStays(texts, minMs, gapMs, once);
    } else if Smoothed(texts, minMs, gapMs, once) == once {
      UnchangedIsCalm(texts, minMs, gapMs, once);
    }
  }

  // ---------- the smoother ----------

  class Smoother {
    const enabled: bool
    const minDurationMs: int
    const hangoverGapMs: int
    const texts: Texts

    constructor (enabled: bool, minDurationMs: int, hangoverGapMs: int, texts: Texts)
      ensures this.enabled == enabled && this.minDurationMs == minDurationMs
      ensures this.hangoverGapMs == hangoverGapMs && this.texts == texts
    {
      this.enabled, this.minDurationMs, this.hangoverGapMs, this.texts := enabled, minDurationMs, hangoverGapMs, texts;
    }

    method KeepMeaningful(segments: seq<Segment>) returns (kept: seq<Segment>)
      ensures kept == Filtered(texts, minDurationMs, segments)
    {
      kept := [];
      for i := 0 to |segments|
        invariant kept == Filtered(texts, minDurationMs, segments[..i])
      {
        assert segments[..i + 1][..i] == segments[..i];
        if Duration(segments[i]) < minDurationMs && !texts.meaningful(segments[i].text) {
          continue;
        }
        kept := kept + [segments[i]];
      }
      assert segments[..|segments|] == segments;
    }

    /** The labels are corrected in place, from left to right, first single and then double flickers. */
    /** The first pass over the labels: single flickers, from left to right. */
    method CorrectSingles(segments: seq<Segment>, keys: array<string>)
      requires keys.Length == |segments|
      modifies keys
      ensures keys[..] == FixSingles(segments, old(keys[..]), minDurationMs, keys.Length)
    {
      ghost var start := keys[..];
      FirstIsNoFlicker(segments, start, minDurationMs);
      var n, i := keys.Length, 1;
      while i < n - 1
        invariant 1 <= i && (i <= n - 1 || i == 1)
        invariant keys[..] == FixSingles(segments, start, minDurationMs, i)
      {
        ghost var was := keys[..];
        if keys[i - 1] == keys[i + 1] && keys[i] != keys[i - 1] && Duration(segments[i]) <= Max(minDurationMs, 500) {
          keys[i] := keys[i - 1];
        }
        assert keys[..] == FixSingle(segments, was, minDurationMs, i);
        i := i + 1;
      }
      SinglesEnd(segments, start, minDurationMs, i, n);
    }

    /** The second pass, over what the first one left: double flickers. */
    method CorrectDoubles(segments: seq<Segment>, keys: array<string>)
      requires keys.Length == |segments|
      modifies keys
      ensures keys[..] == FixDoubles(segments, old(keys[..]), minDurationMs, keys.Length)
    {
      ghost var start := keys[..];
      FirstIsNoFlicker(segments, start, minDurationMs);
      var n, i := keys.Length, 1;
      while i < n - 2
        invariant 1 <= i && (i <= n - 2 || i == 1)
        invariant keys[..] == FixDoubles(segments, start, minDurationMs, i)
      {
        ghost var was := keys[..];
        if keys[i - 1] == keys[i + 2] && keys[i] == keys[i + 1] && keys[i] != keys[i - 1]
           && segments[i + 1].endMs - segments[i].startMs <= Max(minDurationMs, 600) {
          var speaker := keys[i - 1];
          keys[i] := speaker;
          keys[i + 1] := speaker;
        }
        assert keys[..] == FixDouble(segments, was, minDurationMs, i);
        i := i + 1;
      }
      DoublesEnd(segments, start, minDurationMs, i, n);
    }

    method CorrectSpeakers(segments: seq<Segment>) returns (corrected: seq<Segment>)
      ensures corrected == Corrected(segments, minDurationMs)
    {
      var n := |segments|;
      var keys := new string[n](i requires 0 <= i < n => segments[i].speaker);
      assert keys[..] == Keys(segments);
      CorrectSingles(segments, keys);
      CorrectDoubles(segments, keys);
      corrected := Relabelled(segments, keys[..]);
    }

    method MergeNeighbours(segments: seq<Segment>) returns (merged: seq<Segment>)
      ensures merged == Merged(texts, segments, hangoverGapMs)
    {
      merged := [];
      for i := 0 to |segments|
        invariant merged == Merged(texts, segments[..i], hangoverGapMs)
      {
        assert segments[..i + 1][..i] == segments[..i];
        var s := segments[i];
        if merged != [] && merged[|merged| - 1].speaker == s.speaker
           && s.startMs - merged[|merged| - 1].endMs <= hangoverGapMs {
          merged := merged[..|merged| - 1] + [Joined(texts, merged[|merged| - 1], s)];
        } else {
          merged := merged + [s];
        }
      }
      assert segments[..|segments|] == segments;
    }

    method SmoothSegments(segments: seq<Segment>) returns (result: seq<Segment>)
      ensures result == Smoothed(texts, minDurationMs, hangoverGapMs, segments)
    {
      var kept := KeepMeaningful(segments);
      var corrected := CorrectSpeakers(kept);
      var merged := MergeNeighbours(corrected);
      result := Numbered(merged);
    }

    method SmoothWindow(window: Window) returns (smooth: Window)
      ensures smooth == if enabled then window.(segments := Smoothed(texts, minDurationMs, hangoverGapMs, window.segments))
                        else window
    {
      if !enabled || window.segments == [] {
        return window;
      }
      var smoothed := SmoothSegments(window.segments);
      if smoothed == window.segments {
        return window;
      }
      smooth := window.(segments := smoothed);
    }
  }

  lemma FirstIsNoFlicker(segments: seq<Segment>, keys: seq<string>, minMs: int)
    requires |keys| == |segments|
    ensures FixSingles(segments, keys, minMs, 1) == FixDoubles(segments, keys, minMs, 1) == keys
  {
  }

  lemma SinglesEnd(segments: seq<Segment>, keys: seq<string>, minMs: int, i: nat, n: nat)
    requires n == |segments| == |keys| && 1 <= i && n - 1 <= i && (i <= n - 1 || i == 1)
    ensures FixSingles(segments, keys, minMs, i) == FixSingles(segments, keys, minMs, n)
  {
  }

  lemma DoublesEnd(segments: seq<Segment>, keys: seq<string>, minMs: int, i: nat, n: nat)
    requires n == |segments| == |keys| && 1 <= i && n - 2 <= i && (i <= n - 2 || i == 1)
    ensures FixDoubles(segments, keys, minMs, i) == FixDoubles(segments, keys, minMs, n)
  {
    assert n >= 1 ==> FixDoubles(segments, keys, minMs, n) == FixDoubles(segments, keys, minMs, n - 1);
    assert n >= 2 ==> FixDoubles(segments, keys, minMs, n - 1) == FixDoubles(segments, keys, minMs, n - 2);
  }
}
