/**
Long-conversation memory: which messages form completed turns, how old turns are split off for a rolling
summary, and when a memory packet built from the split is valid.
*/
module ContextMemory {
  import opened Wrappers

  datatype Role = System | User | Assistant | Other

  /** content is None when it is not text. */
  datatype Message = Message(role: Role, content: Option<string>)

  datatype Turn = Turn(id: nat, role: Role, content: string)

  /** Construction of a turn strips its text and bounds its length; None where that is refused. */
  type Clean = string -> Option<string>

  // ---------- normalisation ----------

  /** The scan over the messages: refused, or the turns so far and the role that has to come next. */
  datatype Scan = Refused | Scanned(turns: seq<Turn>, expected: Role)

  predicate HasText(m: Message) {
    m.content.Some? && m.content.value != ""
  }

  function NextRole(role: Role): Role {
    if role == User then Assistant else User
  }

  function ScanOne(clean: Clean, s: Scan, m: Message): Scan {
    if s.Refused? then Refused
    else if m.role != User && m.role != Assistant then Refused
    else if !HasText(m) then Refused
    else
      match clean(m.content.value)
      case None => Refused
      case Some(text) =>
        if m.role == s.expected then Scanned(s.turns + [Turn(|s.turns| + 1, m.role, text)], NextRole(s.expected))
        else if m.role == User && s.turns != [] && s.turns[|s.turns| - 1].role == User then
          var last := s.turns[|s.turns| - 1];
          Scanned(s.turns[..|s.turns| - 1] + [Turn(last.id, User, text)], s.expected)
        else Refused
  }

  function ScanAll(clean: Clean, messages: seq<Message>): Scan {
    if messages == [] then Scanned([], User)
    else ScanOne(clean, ScanAll(clean, messages[..|messages| - 1]), messages[|messages| - 1])
  }

  predicate StartsWithSystem(messages: seq<Message>) {
    messages != [] && messages[0].role == System && HasText(messages[0])
  }

  function DropOpenUser(turns: seq<Turn>): seq<Turn> {
    if turns != [] && turns[|turns| - 1].role == User then turns[..|turns| - 1] else turns
  }

  /** The completed turns; None where the history is refused. */
  function Normalize(clean: Clean, messages: seq<Message>, assistantText: Option<string>): Option<seq<Turn>> {
    if !StartsWithSystem(messages) then None
    else
      match ScanAll(clean, messages[1..])
      case Refused => None
      case Scanned(turns, expected) =>
        match assistantText
        case None => Some(DropOpenUser(turns))
        case Some(text) =>
          if text == "" || expected != Assistant then None
          else
            match clean(text)
            case None => None
            case Some(t) => Some(turns + [Turn(|turns| + 1, Assistant, t)])
  }

  lemma ScanNext(clean: Clean, messages: seq<Message>, n: nat)
    requires 0 < n <= |messages|
    ensures ScanAll(clean, messages[..n]) == ScanOne(clean, ScanAll(clean, messages[..n - 1]), messages[n - 1])
  {
    assert messages[..n][..n - 1] == messages[..n - 1];
  }

  method NormalizeCompletedTurns(clean: Clean, messages: seq<Message>, assistantText: Option<string>)
    returns (r: Option<seq<Turn>>)
    ensures r == Normalize(clean, messages, assistantText)
  {
    if !StartsWithSystem(messages) {
      return None;
    }
    var turns: seq<Turn> := [];
    var expected := User;
    ghost var rest := messages[1..];
    for i := 1 to |messages|
      invariant ScanAll(clean, rest[..i - 1]) == Scanned(turns, expected)
    {
      var message := messages[i];
      ScanNext(clean, rest, i);
      ghost var next := ScanOne(clean, Scanned(turns, expected), message);
      assert ScanAll(clean, rest[..i]) == next;
      var text := if HasText(message) then clean(message.content.value) else None;
      if (message.role != User && message.role != Assistant) || text.None? {
        RefusedStays(clean, rest, i);
        return None;
      }
      if message.role != expected {
        if message.role == User && turns != [] && turns[|turns| - 1].role == User {
          turns := turns[..|turns| - 1] + [Turn(turns[|turns| - 1].id, User, text.value)];
          continue;
        }
        RefusedStays(clean, rest, i);
        return None;
      }
      turns := turns + [Turn(|turns| + 1, message.role, text.value)];
      expected := NextRole(expected);
    }
    assert rest[..|messages| - 1] == rest;
    if assistantText.Some? {
      if assistantText.value == "" || expected != Assistant {
        return None;
      }
      var text := clean(assistantText.value);
      if text.None? {
        return None;
      }
      turns := turns + [Turn(|turns| + 1, Assistant, text.value)];
    } else if turns != [] && turns[|turns| - 1].role == User {
      turns := turns[..|turns| - 1];
    }
    return Some(turns);
  }

  lemma {:induction false} RefusedStays(clean: Clean, messages: seq<Message>, n: nat)
    requires n <= |messages| && ScanAll(clean, messages[..n]).Refused?
    ensures ScanAll(clean, messages).Refused?
    decreases |messages| - n
  {
    if n == |messages| {
      assert messages[..n] == messages;
    } else {
      assert messages[..n + 1][..n] == messages[..n];
      RefusedStays(clean, messages, n + 1);
    }
  }

  /** User and assistant strictly alternate from 1 on. */
  predicate Alternating(turns: seq<Turn>) {
    forall i :: 0 <= i < |turns| ==> turns[i].id == i + 1 && turns[i].role == if i % 2 == 0 then User else Assistant
  }

  predicate Complete(turns: seq<Turn>) {
    |turns| % 2 == 0 && Alternating(turns)
  }

  /** The turns alternate, and the role to come next fits them. */
  predicate InOrder(s: Scan) {
    s.Scanned? ==> Alternating(s.turns) && s.expected == if |s.turns| % 2 == 0 then User else Assistant
  }

  lemma ScanOneInOrder(clean: Clean, s: Scan, m: Message)
    requires InOrder(s)
    ensures InOrder(ScanOne(clean, s, m))
  {
    var t := ScanOne(clean, s, m);
    if t.Scanned? && |t.turns| == |s.turns| {
      assert s.turns[|s.turns| - 1].id == |s.turns|;
    }
  }

  lemma {:induction false} ScanAlternates(clean: Clean, messages: seq<Message>)
    ensures InOrder(ScanAll(clean, messages))
  {
    if messages != [] {
      ScanAlternates(clean, messages[..|messages| - 1]);
      ScanOneInOrder(clean, ScanAll(clean, messages[..|messages| - 1]), messages[|messages| - 1]);
    }
  }

  lemma DroppingOpenUserCompletes(s: Scan)
    requires s.Scanned? && InOrder(s)
    ensures Complete(DropOpenUser(s.turns))
  {
    if s.turns != [] {
      assert s.turns[|s.turns| - 1].role == if (|s.turns| - 1) % 2 == 0 then User else Assistant;
    }
  }

  /** Whatever was interrupted, the completed turns are numbered 1..2n and come in user/assistant pairs. */
  lemma NormalizedIsComplete(clean: Clean, messages: seq<Message>, assistantText: Option<string>)
    requires Normalize(clean, messages, assistantText).Some?
    ensures Complete(Normalize(clean, messages, assistantText).value)
  {
    var s := ScanAll(clean, messages[1..]);
    ScanAlternates(clean, messages[1..]);
    if assistantText.None? {
      DroppingOpenUserCompletes(s);
    }
  }

  /** Passing the assistant text equals appending it as a message, refusals included. */
  lemma AssistantTextIsAMessage(clean: Clean, messages: seq<Message>, text: string)
    ensures Normalize(clean, messages, Some(text)) ==
            Normalize(clean, messages + [Message(Assistant, Some(text))], None)
  {
    if messages != [] {
      var all := messages + [Message(Assistant, Some(text))];
      assert all[1..] == messages[1..] + [Message(Assistant, Some(text))];
      assert all[1..][..|messages| - 1] == messages[1..];
      ScanAlternates(clean, messages[1..]);
    }
  }

  /** The turns of a scan that can no longer change. */
  function Settled(s: Scan): seq<Turn>
    requires s.Scanned?
  {
    DropOpenUser(s.turns)
  }

  lemma ScanOneGrows(clean: Clean, s: Scan, m: Message)
    requires s.Scanned? && InOrder(s)
    requires ScanOne(clean, s, m).Scanned?
    ensures Settled(s) <= Settled(ScanOne(clean, s, m))
  {
  }

  lemma ScanStep(clean: Clean, messages: seq<Message>, n: nat)
    requires n < |messages|
    ensures ScanAll(clean, messages[..n + 1]) == ScanOne(clean, ScanAll(clean, messages[..n]), messages[n])
  {
    assert messages[..n + 1][..n] == messages[..n];
  }

  /** The second scan continues the first: what was settled stays. */
  predicate Continues(s: Scan, t: Scan) {
    t.Scanned? ==> s.Scanned? && Settled(s) <= Settled(t)
  }

  lemma ScanOneContinues(clean: Clean, s: Scan, m: Message, t: Scan)
    requires InOrder(s) && Continues(ScanOne(clean, s, m), t)
    ensures Continues(s, t)
  {
    if t.Scanned? {
      ScanOneGrows(clean, s, m);
    }
  }

  lemma {:induction false} ScanGrows(clean: Clean, messages: seq<Message>, n: nat)
    requires n <= |messages|
    ensures Continues(ScanAll(clean, messages[..n]), ScanAll(clean, messages))
    decreases |messages| - n
  {
    if n == |messages| {
      assert messages[..n] == messages;
    } else {
      ScanGrows(clean, messages, n + 1);
      ScanStep(clean, messages, n);
      ScanAlternates(clean, messages[..n]);
      ScanOneContinues(clean, ScanAll(clean, messages[..n]), messages[n], ScanAll(clean, messages));
    }
  }

  /** A valid history stays valid when cut short, and its completed turns are a prefix of those of any extension. */
  lemma NormalizationIsStable(clean: Clean, messages: seq<Message>, more: seq<Message>)
    requires messages != [] && Normalize(clean, messages + more, None).Some?
    ensures Normalize(clean, messages, None).Some?
    ensures Normalize(clean, messages, None).value <= Normalize(clean, messages + more, None).value
  {
    var n := |messages| - 1;
    assert (messages + more)[1..][..n] == messages[1..];
    ScanGrows(clean, (messages + more)[1..], n);
  }

  function Answers(messages: seq<Message>): nat {
    if messages == [] then 0
    else Answers(messages[..|messages| - 1]) + if messages[|messages| - 1].role == Assistant then 1 else 0
  }

  lemma {:induction false} SettledCountsAnswers(clean: Clean, messages: seq<Message>)
    requires ScanAll(clean, messages).Scanned?
    ensures |Settled(ScanAll(clean, messages))| == 2 * Answers(messages)
  {
    if messages != [] {
      SettledCountsAnswers(clean, messages[..|messages| - 1]);
      ScanAlternates(clean, messages[..|messages| - 1]);
    }
  }

  /** A scan that waits for the assistant has just read a user message, which is its open turn. */
  lemma {:induction false} OpenTurnIsLastMessage(clean: Clean, messages: seq<Message>)
    requires ScanAll(clean, messages).Scanned? && ScanAll(clean, messages).expected == Assistant
    ensures messages != [] && messages[|messages| - 1].role == User && HasText(messages[|messages| - 1])
    ensures var turns := ScanAll(clean, messages).turns;
            turns != [] && clean(messages[|messages| - 1].content.value) == Some(turns[|turns| - 1].content)
  {
    if messages != [] {
      ScanAlternates(clean, messages[..|messages| - 1]);
    }
  }

  /** Reading an assistant message after a valid scan completes the pair with the user message before it. */
  lemma AnswerCompletesPair(clean: Clean, before: seq<Message>, answer: Message)
    requires answer.role == Assistant && ScanOne(clean, ScanAll(clean, before), answer).Scanned?
    ensures before != [] && before[|before| - 1].role == User && HasText(before[|before| - 1]) && HasText(answer)
    ensures var turns := Settled(ScanOne(clean, ScanAll(clean, before), answer));
            var k := Answers(before);
            && |turns| == 2 * k + 2
            && clean(before[|before| - 1].content.value) == Some(turns[2 * k].content)
            && clean(answer.content.value) == Some(turns[2 * k + 1].content)
  {
    ScanAlternates(clean, before);
    OpenTurnIsLastMessage(clean, before);
    SettledCountsAnswers(clean, before);
  }

  /**
   Each completed pair is an assistant message and the message right before it, in order of the assistant
   messages: an interrupted input never shows up in a pair.
   */
  lemma PairsAreAdjacentMessages(clean: Clean, messages: seq<Message>, i: nat)
    requires Normalize(clean, messages, None).Some?
    requires 0 < i < |messages| && messages[i].role == Assistant
    ensures var turns := Normalize(clean, messages, None).value;
            var k := Answers(messages[1..i]);
            && 1 < i && messages[i - 1].role == User
            && 2 * k + 1 < |turns|
            && HasText(messages[i - 1]) && clean(messages[i - 1].content.value) == Some(turns[2 * k].content)
            && HasText(messages[i]) && clean(messages[i].content.value) == Some(turns[2 * k + 1].content)
  {
    var rest := messages[1..];
    assert rest[..i - 1] == messages[1..i] && rest[i - 1] == messages[i];
    ScanGrows(clean, rest, i);
    ScanStep(clean, rest, i - 1);
    AnswerCompletesPair(clean, messages[1..i], messages[i]);
    assert i > 1 && messages[1..i][i - 2] == messages[i - 1];
    assert Settled(ScanAll(clean, rest[..i])) <= Normalize(clean, messages, None).value;
  }

  /** There are exactly two turns for every assistant message. */
  lemma TwoTurnsPerAnswer(clean: Clean, messages: seq<Message>)
    requires Normalize(clean, messages, None).Some?
    ensures |Normalize(clean, messages, None).value| == 2 * Answers(messages[1..])
  {
    SettledCountsAnswers(clean, messages[1..]);
  }

  // ---------- splitting ----------

  /** The range of turns a summary covers; its text is not modelled. */
  datatype Snapshot = Snapshot(start: nat, end: nat)

  predicate ValidSnapshot(s: Snapshot) {
    s == Snapshot(0, 0) || 1 <= s.start <= s.end
  }

  datatype Window = Window(
    previous: Snapshot,
    summarize: seq<Turn>,
    recent: seq<Turn>,
    expectedStart: nat,
    expectedEnd: nat)

  datatype WindowError = PairsNotPositive | TurnsInvalid | SnapshotTooLong | BoundaryInsidePair

  function BuildWindow(turns: seq<Turn>, previous: Snapshot, pairs: int): Result<Option<Window>, WindowError> {
    if pairs < 1 then Failure(PairsNotPositive)
    else if !Complete(turns) then Failure(TurnsInvalid)
    else if previous.end > |turns| then Failure(SnapshotTooLong)
    else
      var newTurns := turns[previous.end..];
      var keep := 2 * pairs;
      if |newTurns| <= keep then Success(None)
      else
        var summarize := newTurns[..|newTurns| - keep];
        var recent := newTurns[|newTurns| - keep..];
        if |summarize| % 2 != 0 then Failure(BoundaryInsidePair)
        else
          Success(Some(Window(previous, summarize, recent,
                              if previous.start != 0 then previous.start else summarize[0].id,
                              summarize[|summarize| - 1].id)))
  }

  /** Snapshot, summarised and recent turns lie side by side and make up the whole history, cut between pairs. */
  predicate Tiles(turns: seq<Turn>, w: Window) {
    && w.previous.end <= |turns|
    && turns == turns[..w.previous.end] + w.summarize + w.recent
    && w.previous.end % 2 == 0 && |w.summarize| % 2 == 0 && |w.recent| % 2 == 0
    && w.summarize != [] && 2 <= |w.recent|
    && w.expectedEnd == w.previous.end + |w.summarize|
    && w.expectedStart == if w.previous.start != 0 then w.previous.start else w.previous.end + 1
  }

  lemma BuiltWindowTiles(turns: seq<Turn>, previous: Snapshot, pairs: int)
    ensures var r := BuildWindow(turns, previous, pairs);
            && (r.Success? && r.value.Some? ==>
                  && Complete(turns) && Tiles(turns, r.value.value)
                  && r.value.value.previous == previous && |r.value.value.recent| == 2 * pairs)
            && (r == Failure(BoundaryInsidePair) ==> previous.end % 2 == 1)
  {
    var r := BuildWindow(turns, previous, pairs);
    if r.Success? && r.value.Some? {
      var summarize := r.value.value.summarize;
      assert summarize[0] == turns[previous.end];
      assert summarize[|summarize| - 1] == turns[previous.end + |summarize| - 1];
    }
  }

  /**
  When a window is built, and which refusal is raised: the checks come in this order, and exactly more than the wanted
  number of new pairs gives a window.
  */
  lemma WindowBuiltIff(turns: seq<Turn>, previous: Snapshot, pairs: int)
    ensures var r := BuildWindow(turns, previous, pairs);
            var newer := |turns| - previous.end;
            && (r == Failure(PairsNotPositive) <==> pairs <= 0)
            && (r == Failure(TurnsInvalid) <==> pairs > 0 && !Complete(turns))
            && (r == Failure(SnapshotTooLong) <==> pairs > 0 && Complete(turns) && newer < 0)
            && (r == Success(None) <==> pairs > 0 && Complete(turns) && 0 <= newer <= 2 * pairs)
            && (r == Failure(BoundaryInsidePair) <==>
                  pairs > 0 && Complete(turns) && newer > 2 * pairs && previous.end % 2 == 1)
            && (r.Success? && r.value.Some? <==>
                  pairs > 0 && Complete(turns) && newer > 2 * pairs && previous.end % 2 == 0)
  {
  }

  // ---------- fitting ----------

  /** How many turns of a window have to leave its recent part. */
  function Moved(size: seq<Turn> -> nat, recent: seq<Turn>, maxBytes: nat): (n: nat)
    ensures n <= |recent| && n % 2 == 0
    ensures |recent| % 2 == 0 && recent != [] ==> n + 2 <= |recent|
  {
    if size(recent) > maxBytes && |recent| > 2 then 2 + Moved(size, recent[2..], maxBytes) else 0
  }

  /** The window with the oldest pairs of its recent part moved to the summary; None for a non-positive limit. */
  function Fit(size: seq<Turn> -> nat, w: Window, maxBytes: int): Option<Window>
    requires w.summarize != []
  {
    if maxBytes <= 0 then None
    else
      var n := Moved(size, w.recent, maxBytes);
      var summarize := w.summarize + w.recent[..n];
      Some(w.(summarize := summarize, recent := w.recent[n..], expectedEnd := summarize[|summarize| - 1].id))
  }

  lemma PairMoves(summarize: seq<Turn>, recent: seq<Turn>, n: nat)
    requires n + 2 <= |recent|
    ensures summarize + recent[..n] + recent[n..][..2] == summarize + recent[..n + 2]
    ensures recent[n..][2..] == recent[n + 2..]
  {
  }

  method FitCompactionWindow(size: seq<Turn> -> nat, w: Window, maxBytes: int) returns (r: Option<Window>)
    requires w.summarize != []
    ensures r == Fit(size, w, maxBytes)
  {
    if maxBytes <= 0 {
      return None;
    }
    var summarize, recent := w.summarize, w.recent;
    ghost var n := 0;
    while size(recent) > maxBytes && |recent| > 2
      invariant n <= |w.recent| && recent == w.recent[n..] && summarize == w.summarize + w.recent[..n]
      invariant Moved(size, w.recent, maxBytes) == n + Moved(size, recent, maxBytes)
      decreases |recent|
    {
      assert Moved(size, recent, maxBytes) == 2 + Moved(size, recent[2..], maxBytes);
      PairMoves(w.summarize, w.recent, n);
      summarize := summarize + recent[..2];
      recent := recent[2..];
      n := n + 2;
    }
    return Some(Window(w.previous, summarize, recent, w.expectedStart, summarize[|summarize| - 1].id));
  }

  /** Moving whole pairs from the recent turns to the summary keeps the tiling. */
  lemma MovingTiles(turns: seq<Turn>, w: Window, n: nat)
    requires Complete(turns) && Tiles(turns, w) && n % 2 == 0 && n + 2 <= |w.recent|
    ensures var summarize := w.summarize + w.recent[..n];
            && summarize[|summarize| - 1].id == w.expectedEnd + n
            && Tiles(turns, w.(summarize := summarize, recent := w.recent[n..], expectedEnd := w.expectedEnd + n))
  {
    var summarize := w.summarize + w.recent[..n];
    assert w.recent == w.recent[..n] + w.recent[n..];
    assert turns == turns[..w.previous.end] + summarize + w.recent[n..];
    assert summarize[|summarize| - 1] == turns[w.expectedEnd + n - 1];
  }

  /** Fitting keeps the tiling, and what stays recent fits the limit or is a single pair. */
  lemma FittedWindowTiles(size: seq<Turn> -> nat, turns: seq<Turn>, w: Window, maxBytes: int)
    requires Complete(turns) && Tiles(turns, w) && maxBytes > 0
    ensures var f := Fit(size, w, maxBytes).value;
            && Tiles(turns, f)
            && f.previous == w.previous
            && w.summarize <= f.summarize && |f.recent| <= |w.recent|
            && (size(f.recent) <= maxBytes || |f.recent| == 2)
  {
    MovingTiles(turns, w, Moved(size, w.recent, maxBytes));
    MovedIsEnough(size, w.recent, maxBytes);
  }

  lemma {:induction false} MovedIsEnough(size: seq<Turn> -> nat, recent: seq<Turn>, maxBytes: nat)
    requires |recent| % 2 == 0 && recent != []
    ensures var n := Moved(size, recent, maxBytes); size(recent[n..]) <= maxBytes || |recent[n..]| == 2
    ensures forall k :: 0 <= k < Moved(size, recent, maxBytes) && k % 2 == 0 ==> size(recent[k..]) > maxBytes
  {
    var n := Moved(size, recent, maxBytes);
    assert recent[0..] == recent;
    if n > 0 {
      MovedIsEnough(size, recent[2..], maxBytes);
      assert recent[2..][n - 2..] == recent[n..];
      forall k | 0 <= k < n && k % 2 == 0 ensures size(recent[k..]) > maxBytes {
        if k > 0 {
          assert recent[2..][k - 2..] == recent[k..];
        }
      }
    }
  }

  /** No pair is moved that could have stayed: every longer suffix of the recent turns is over the limit. */
  lemma FittingIsMinimal(size: seq<Turn> -> nat, turns: seq<Turn>, w: Window, maxBytes: int, kept: nat)
    requires Complete(turns) && Tiles(turns, w) && maxBytes > 0
    requires kept % 2 == 0 && |Fit(size, w, maxBytes).value.recent| < kept <= |w.recent|
    ensures size(w.recent[|w.recent| - kept..]) > maxBytes
  {
    MovedIsEnough(size, w.recent, maxBytes);
  }

  // ---------- packets ----------

  /** The structural checks on a packet: snapshot followed by at most 16 complete, contiguous pairs. */
  predicate ValidPacket(snapshot: Snapshot, recent: seq<Turn>) {
    && ValidSnapshot(snapshot)
    && 2 <= |recent| <= 32
    && |recent| % 2 == 0
    && forall i :: 0 <= i < |recent| ==>
         recent[i].role == (if i % 2 == 0 then User else Assistant) && recent[i].id == snapshot.end + 1 + i
  }

  lemma RecentFollowsSnapshot(turns: seq<Turn>, w: Window, i: nat)
    requires Complete(turns) && Tiles(turns, w) && i < |w.recent|
    ensures w.recent[i].id == w.expectedEnd + 1 + i && w.recent[i].role == if i % 2 == 0 then User else Assistant
  {
    assert w.recent[i] == turns[w.expectedEnd + i];
  }

  /** Any summary of exactly the frozen range gives a valid packet, provided at most 16 pairs stay recent. */
  lemma FittedWindowMakesPacket(size: seq<Turn> -> nat, turns: seq<Turn>, w: Window, maxBytes: int)
    requires Complete(turns) && Tiles(turns, w) && maxBytes > 0 && ValidSnapshot(w.previous)
    ensures var f := Fit(size, w, maxBytes).value;
            ValidPacket(Snapshot(f.expectedStart, f.expectedEnd), f.recent) <==> |f.recent| <= 32
  {
    FittedWindowTiles(size, turns, w, maxBytes);
    TiledWindowMakesPacket(turns, Fit(size, w, maxBytes).value);
  }

  lemma TiledWindowMakesPacket(turns: seq<Turn>, w: Window)
    requires Complete(turns) && Tiles(turns, w) && ValidSnapshot(w.previous)
    ensures ValidPacket(Snapshot(w.expectedStart, w.expectedEnd), w.recent) <==> |w.recent| <= 32
  {
    forall i | 0 <= i < |w.recent|
      ensures w.recent[i].id == w.expectedEnd + 1 + i && w.recent[i].role == if i % 2 == 0 then User else Assistant
    {
      RecentFollowsSnapshot(turns, w, i);
    }
  }

  /** Without a window, the turns behind the old snapshot are the packet. */
  lemma RecentTailMakesPacket(turns: seq<Turn>, snapshot: Snapshot, pairs: int)
    requires ValidSnapshot(snapshot) && snapshot.end % 2 == 0
    requires BuildWindow(turns, snapshot, pairs) == Success(None) && snapshot.end < |turns| && pairs <= 16
    ensures ValidPacket(snapshot, turns[snapshot.end..])
  {
  }

  // ---------- rolling compaction ----------

  /** One compaction of a growing history: built, fitted and summarised over exactly the frozen range. */
  predicate Compacts(
    size: seq<Turn> -> nat, turns: seq<Turn>, before: Snapshot, pairs: int, maxBytes: int, after: Snapshot,
    summarized: seq<Turn>)
  {
    && maxBytes > 0
    && var r := BuildWindow(turns, before, pairs);
       && r.Success? && r.value.Some?
       && r.value.value.summarize != []
       && var f := Fit(size, r.value.value, maxBytes).value;
          after == Snapshot(f.expectedStart, f.expectedEnd) && summarized == f.summarize
  }

  function Flatten(parts: seq<seq<Turn>>): seq<Turn> {
    if parts == [] then [] else Flatten(parts[..|parts| - 1]) + parts[|parts| - 1]
  }

  /** The new snapshot covers what the old one did and the part, which follows it; a pair at least stays recent. */
  predicate Extends(turns: seq<Turn>, before: Snapshot, after: Snapshot, part: seq<Turn>) {
    && before.end < after.end && after.end + 2 <= |turns| && after.end % 2 == 0
    && turns[..before.end] + part == turns[..after.end]
    && after.start == if before.start != 0 then before.start else before.end + 1
  }

  lemma TilesExtend(turns: seq<Turn>, w: Window)
    requires Tiles(turns, w)
    ensures Extends(turns, w.previous, Snapshot(w.expectedStart, w.expectedEnd), w.summarize)
  {
    assert turns[..w.expectedEnd] == turns[..w.previous.end] + w.summarize;
  }

  lemma CompactionTiles(
    size: seq<Turn> -> nat, turns: seq<Turn>, before: Snapshot, pairs: int, maxBytes: int, after: Snapshot,
    summarized: seq<Turn>)
    requires Compacts(size, turns, before, pairs, maxBytes, after, summarized)
    ensures Complete(turns) && Extends(turns, before, after, summarized)
  {
    var w := BuildWindow(turns, before, pairs).value.value;
    BuiltWindowTiles(turns, before, pairs);
    FittedWindowTiles(size, turns, w, maxBytes);
    TilesExtend(turns, Fit(size, w, maxBytes).value);
  }

  predicate Grew(histories: seq<seq<Turn>>, i: int)
    requires 0 < i < |histories|
  {
    histories[i - 1] <= histories[i]
  }

  predicate ExtendsAt(histories: seq<seq<Turn>>, snapshots: seq<Snapshot>, summarized: seq<seq<Turn>>, i: nat)
    requires |snapshots| == |histories| + 1 == |summarized| + 1 && i < |histories|
  {
    Extends(histories[i], snapshots[i], snapshots[i + 1], summarized[i])
  }

  lemma {:induction false} ExtensionsTile(
      histories: seq<seq<Turn>>, snapshots: seq<Snapshot>, summarized: seq<seq<Turn>>, n: nat)
    requires |snapshots| == |histories| + 1 == |summarized| + 1 && snapshots[0] == Snapshot(0, 0) && n <= |histories|
    requires forall i {:trigger ExtendsAt(histories, snapshots, summarized, i)} ::
               0 <= i < |histories| ==> ExtendsAt(histories, snapshots, summarized, i)
    requires forall i {:trigger Grew(histories, i)} :: 0 < i < |histories| ==> Grew(histories, i)
    ensures ValidSnapshot(snapshots[n]) && snapshots[n].end % 2 == 0 && snapshots[n].start == (if n == 0 then 0 else 1)
    ensures n > 0 ==> snapshots[n].end + 2 <= |histories[n - 1]|
                      && Flatten(summarized[..n]) == histories[n - 1][..snapshots[n].end]
    decreases n
  {
    if n > 0 {
      ExtensionsTile(histories, snapshots, summarized, n - 1);
      assert ExtendsAt(histories, snapshots, summarized, n - 1);
      assert summarized[..n][..n - 1] == summarized[..n - 1];
      var turns, covered := histories[n - 1], snapshots[n - 1].end;
      if n > 1 {
        assert Grew(histories, n - 1);
        assert histories[n - 2][..covered] == turns[..covered];
      } else {
        assert turns[..covered] == [];
      }
    }
  }

  predicate CompactsAt(
    size: seq<Turn> -> nat, histories: seq<seq<Turn>>, snapshots: seq<Snapshot>, summarized: seq<seq<Turn>>,
    pairs: seq<int>, maxBytes: int, i: nat)
    requires |snapshots| == |histories| + 1 == |summarized| + 1 && |pairs| == |histories| && i < |histories|
  {
    Compacts(size, histories[i], snapshots[i], pairs[i], maxBytes, snapshots[i + 1], summarized[i])
  }

  lemma AllExtend(
    size: seq<Turn> -> nat, histories: seq<seq<Turn>>, snapshots: seq<Snapshot>, summarized: seq<seq<Turn>>,
    pairs: seq<int>, maxBytes: int)
    requires |snapshots| == |histories| + 1 == |summarized| + 1 && |pairs| == |histories|
    requires forall i {:trigger CompactsAt(size, histories, snapshots, summarized, pairs, maxBytes, i)} ::
               0 <= i < |histories| ==> CompactsAt(size, histories, snapshots, summarized, pairs, maxBytes, i)
    ensures forall i {:trigger ExtendsAt(histories, snapshots, summarized, i)} ::
              0 <= i < |histories| ==> ExtendsAt(histories, snapshots, summarized, i)
  {
    forall i | 0 <= i < |histories| ensures ExtendsAt(histories, snapshots, summarized, i) {
      assert CompactsAt(size, histories, snapshots, summarized, pairs, maxBytes, i);
      CompactionTiles(size, histories[i], snapshots[i], pairs[i], maxBytes, snapshots[i + 1], summarized[i]);
    }
  }

  /**
   Over any number of compactions of a growing history, each keeping a number of pairs of its own (a recovery keeps
   another than a background compaction), starting from the empty snapshot, every turn is summarised exactly once and
   in order: the snapshot covers 1..end, and what was summarised is exactly those turns.
   */
  lemma RollingSummariesTile(
    size: seq<Turn> -> nat, histories: seq<seq<Turn>>, snapshots: seq<Snapshot>, summarized: seq<seq<Turn>>,
    pairs: seq<int>, maxBytes: int)
    requires |snapshots| == |histories| + 1 == |summarized| + 1 && |pairs| == |histories|
    requires snapshots[0] == Snapshot(0, 0)
    requires forall i {:trigger CompactsAt(size, histories, snapshots, summarized, pairs, maxBytes, i)} ::
               0 <= i < |histories| ==> CompactsAt(size, histories, snapshots, summarized, pairs, maxBytes, i)
    requires forall i {:trigger Grew(histories, i)} :: 0 < i < |histories| ==> Grew(histories, i)
    ensures var end := snapshots[|histories|];
            && ValidSnapshot(end) && end.end % 2 == 0 && end.start == (if histories == [] then 0 else 1)
            && (histories != [] ==>
                  var turns := histories[|histories| - 1];
                  end.end + 2 <= |turns| && Flatten(summarized) == turns[..end.end])
  {
    AllExtend(size, histories, snapshots, summarized, pairs, maxBytes);
    ExtensionsTile(histories, snapshots, summarized, |histories|);
    assert summarized[..|histories|] == summarized;
  }
}
