/**
The append-only recovery journal of one meeting: a file of numbered envelopes, written while the database
is down and replayed, perhaps partially and perhaps repeatedly, before the next write.
*/
module RecoveryJournal {
  import opened Wrappers
  import opened Transcript
  import opened MeetingRepository

  datatype Envelope = Envelope(meetingId: Id, sequence: nat, operation: Operation)

  /** One line of the file; Garbage is a line that is not a valid envelope. */
  datatype Line = Blank | Garbage | Entry(envelope: Envelope)

  // ---------- reading ----------

  /** The envelopes of the lines, provided they are this meeting's and numbered expected, expected + 1, ... */
  function ReadFrom(lines: seq<Line>, meetingId: Id, expected: nat): Result<seq<Envelope>, Fault> {
    if lines == [] then Success([])
    else match lines[0]
      case Blank => ReadFrom(lines[1..], meetingId, expected)
      case Garbage => Failure(JournalFault)
      case Entry(e) =>
        if e.meetingId != meetingId || e.sequence != expected then Failure(JournalFault)
        else
          match ReadFrom(lines[1..], meetingId, expected + 1)
          case Success(rest) => Success([e] + rest)
          case Failure(f) => Failure(f)
  }

  function NonBlank(lines: seq<Line>): seq<Line> {
    if lines == [] then []
    else (if lines[0].Blank? then [] else [lines[0]]) + NonBlank(lines[1..])
  }

  predicate Contiguous(entries: seq<Line>, meetingId: Id, first: nat) {
    forall i :: 0 <= i < |entries| ==>
      entries[i].Entry? && entries[i].envelope.meetingId == meetingId && entries[i].envelope.sequence == first + i
  }

  /** A file reads back exactly when its non-blank lines are this meeting's envelopes numbered without a gap. */
  lemma {:induction false} ReadsIffContiguous(lines: seq<Line>, meetingId: Id, first: nat)
    ensures ReadFrom(lines, meetingId, first).Success? <==> Contiguous(NonBlank(lines), meetingId, first)
    ensures ReadFrom(lines, meetingId, first).Success? ==>
              var es := ReadFrom(lines, meetingId, first).value;
              |es| == |NonBlank(lines)| && forall i :: 0 <= i < |es| ==> NonBlank(lines)[i] == Entry(es[i])
  {
    if lines != [] {
      match lines[0]
      case Blank =>
        ReadsIffContiguous(lines[1..], meetingId, first);
        assert NonBlank(lines) == NonBlank(lines[1..]);
      case Garbage =>
        assert NonBlank(lines)[0] == Garbage;
      case Entry(e) =>
        ReadsIffContiguous(lines[1..], meetingId, first + 1);
        var rest := NonBlank(lines[1..]);
        assert NonBlank(lines) == [Entry(e)] + rest;
        if Contiguous(NonBlank(lines), meetingId, first) {
          forall i | 0 <= i < |rest|
            ensures rest[i].Entry? && rest[i].envelope.meetingId == meetingId
                    && rest[i].envelope.sequence == first + 1 + i
          {
            assert NonBlank(lines)[i + 1] == rest[i];
          }
        }
    }
  }

  lemma {:induction false} ReadAppend(lines: seq<Line>, line: Line, meetingId: Id, first: nat)
    ensures ReadFrom(lines, meetingId, first).Failure? ==>
              ReadFrom(lines + [line], meetingId, first) == ReadFrom(lines, meetingId, first)
    ensures ReadFrom(lines, meetingId, first).Success? ==>
              var es := ReadFrom(lines, meetingId, first).value;
              ReadFrom(lines + [line], meetingId, first) ==
                match line
                case Blank => Success(es)
                case Garbage => Failure(JournalFault)
                case Entry(e) =>
                  if e.meetingId == meetingId && e.sequence == first + |es| then Success(es + [e])
                  else Failure(JournalFault)
  {
    var all := lines + [line];
    if lines == [] {
      assert all[0] == line && all[1..] == [];
      var none: seq<Envelope> := [];
      if line.Entry? {
        assert none + [line.envelope] == [line.envelope] + none;
      }
    } else {
      assert all[0] == lines[0] && all[1..] == lines[1..] + [line];
      match lines[0]
      case Blank => ReadAppend(lines[1..], line, meetingId, first);
      case Garbage =>
      case Entry(e) =>
        ReadAppend(lines[1..], line, meetingId, first + 1);
        if e.meetingId == meetingId && e.sequence == first && ReadFrom(lines[1..], meetingId, first + 1).Success? {
          var rest := ReadFrom(lines[1..], meetingId, first + 1).value;
          match line {
            case Entry(f) => assert ([e] + rest) + [f] == [e] + (rest + [f]);
            case _ =>
          }
        }
    }
  }

  // ---------- what fits on one line ----------

  /**
  The file is split at every Unicode line boundary, while the JSON of an envelope escapes only those below U+0020:
  a text with one of these three puts its envelope on several lines.
  */
  predicate IsSeparator(c: char) {
    c == '\U{0085}' || c == '\U{2028}' || c == '\U{2029}'
  }

  predicate OneLineText(text: string) {
    forall i :: 0 <= i < |text| ==> !IsSeparator(text[i])
  }

  predicate OneLineSegment(s: Segment) {
    && OneLineText(s.speakerKey) && OneLineText(s.text)
    && (s.translation.Some? ==> OneLineText(s.translation.value))
    && (s.detectedLanguage.Some? ==> OneLineText(s.detectedLanguage.value))
  }

  predicate OneLineWindow(w: Window) {
    && (forall s :: s in w.segments ==> OneLineSegment(s))
    && (forall t :: t in w.volatile ==> OneLineText(t))
  }

  /** The texts of a window that its envelope holds. */
  ghost predicate Holds(w: Window, t: string) {
    || t in w.volatile
    || exists s :: s in w.segments && HoldsIn(s, t)
  }

  predicate HoldsIn(s: Segment, t: string) {
    t == s.speakerKey || t == s.text || s.translation == Some(t) || s.detectedLanguage == Some(t)
  }

  /** A window fits on one line exactly where no text of it has a character U+0085, U+2028 or U+2029. */
  lemma OneLineWindowIff(w: Window)
    ensures OneLineWindow(w) <==> forall t: string, c: char :: Holds(w, t) && c in t ==> c as int !in {0x85, 0x2028, 0x2029}
  {
    if forall t: string, c: char :: Holds(w, t) && c in t ==> c as int !in {0x85, 0x2028, 0x2029} {
      forall t: string | Holds(w, t) ensures OneLineText(t) {
        forall i | 0 <= i < |t| ensures !IsSeparator(t[i]) { assert t[i] in t; }
      }
      forall s | s in w.segments ensures OneLineSegment(s) {
        assert HoldsIn(s, s.speakerKey) && HoldsIn(s, s.text);
        assert s.translation.Some? ==> HoldsIn(s, s.translation.value);
        assert s.detectedLanguage.Some? ==> HoldsIn(s, s.detectedLanguage.value);
      }
    }
    if OneLineWindow(w) {
      forall t: string, c: char | Holds(w, t) && c in t ensures c as int !in {0x85, 0x2028, 0x2029} {
        assert OneLineText(t);
        var i :| 0 <= i < |t| && t[i] == c;
      }
    }
  }

  /** The envelope of the operation reads back. */
  predicate OneLine(op: Operation) {
    op.ReconcileWindow? ==> OneLineWindow(op.window)
  }

  // ---------- the state that survives a crash ----------

  /** What the journal file means: no journal configured, pending operations, or an unreadable file. */
  datatype Journal = NoJournal | Readable(pending: seq<Operation>) | Torn

  datatype Persisted = Persisted(db: Db, journal: Journal)

  function Operations(envelopes: seq<Envelope>): (ops: seq<Operation>)
    ensures |ops| == |envelopes|
    ensures forall i :: 0 <= i < |ops| ==> ops[i] == envelopes[i].operation
  {
    seq(|envelopes|, i requires 0 <= i < |envelopes| => envelopes[i].operation)
  }

  function Meaning(file: Option<seq<Line>>, meetingId: Id): Journal {
    match file
    case None => Readable([])
    case Some(lines) =>
      match ReadFrom(lines, meetingId, 1)
      case Success(es) => Readable(Operations(es))
      case Failure(_) => Torn
  }

  /** Run the operations in order until one is refused. */
  function RunOps(db: Db, ops: seq<Operation>): Result<Db, Fault> {
    if ops == [] then Success(db)
    else
      match RunOps(db, ops[..|ops| - 1])
      case Success(d) => Execute(d, ops[|ops| - 1])
      case Failure(f) => Failure(f)
  }

  /** What an append has left in the file: nothing, its whole envelope, or a piece of it. */
  datatype Wrote = Nothing | Whole | Piece

  /** The journal once the envelope of the operation has been written in full. */
  function Appended(pending: seq<Operation>, op: Operation): Journal {
    if OneLine(op) then Readable(pending + [op]) else Torn
  }

  /** The journal after an append that wrote so much; only a readable journal is written to. */
  predicate WroteTo(journal: Journal, op: Operation, wrote: Wrote, journal': Journal) {
    match wrote
    case Nothing => journal' == journal
    case Whole => journal.Readable? && journal' == Appended(journal.pending, op)
    case Piece => journal.Readable? && journal' == Torn
  }

  /** Run the operations in order until one is refused: the rows then, and the refusal. */
  function RanUntil(db: Db, ops: seq<Operation>): (Db, Option<Fault>) {
    if ops == [] then (db, None)
    else
      var (d, error) := RanUntil(db, ops[..|ops| - 1]);
      if error.Some? then (d, error)
      else
        match Execute(d, ops[|ops| - 1])
        case Success(e) => (e, None)
        case Failure(f) => (d, Some(f))
  }

  /** An attempt to replay during which nothing fails outside of the program. */
  function FaultlessReplay(s: Persisted): (Persisted, Option<Fault>) {
    match s.journal
    case NoJournal => (s, None)
    case Torn => (s, Some(JournalFault))
    case Readable(ops) =>
      if Terminated(s.db) then (s.(journal := Readable([])), None)
      else
        var (d, error) := RanUntil(s.db, ops);
        (Persisted(d, if error.None? then Readable([]) else s.journal), error)
  }

  lemma {:induction false} RanUntilRuns(db: Db, ops: seq<Operation>)
    ensures RunOps(db, ops) == var (d, error) := RanUntil(db, ops); if error.None? then Success(d) else Failure(error.value)
  {
    if ops != [] {
      RanUntilRuns(db, ops[..|ops| - 1]);
    }
  }

  /** A refusal ends the run, whatever follows. */
  lemma {:induction false} RefusalIsFinal(db: Db, ops: seq<Operation>, n: nat)
    requires n <= |ops| && RanUntil(db, ops[..n]).1.Some?
    ensures RanUntil(db, ops) == RanUntil(db, ops[..n])
    decreases |ops| - n
  {
    if n == |ops| {
      assert ops[..n] == ops;
    } else {
      assert ops[..n + 1][..n] == ops[..n];
      RefusalIsFinal(db, ops, n + 1);
    }
  }

  /** One more operation of a replay. */
  lemma OneMoreRan(db: Db, ops: seq<Operation>, i: nat, mid: Db, after: Db, error: Option<Fault>, failed: bool)
    requires i < |ops| && RanUntil(db, ops[..i]) == (mid, None) && Transacted(mid, ops[i], after, error, failed)
    ensures error.None? ==> RanUntil(db, ops[..i + 1]) == (after, None)
    ensures RanPrefix(db, ops, after)
    ensures error.Some? && !failed ==> RanUntil(db, ops) == (after, error)
  {
    assert ops[..i + 1][..i] == ops[..i];
    RanUntilRuns(db, ops[..i]);
    if after != mid || error.None? {
      RanUntilRuns(db, ops[..i + 1]);
      assert RunOps(db, ops[..i + 1]) == Success(after);
    } else {
      assert RunOps(db, ops[..i]) == Success(after);
    }
    if error.Some? && !failed {
      RefusalIsFinal(db, ops, i + 1);
    }
  }

  predicate Terminated(db: Db) {
    db.present && !Live(db.status)
  }

  /** One attempt to replay the journal: everything and the file is gone, or some prefix and it is kept. */
  ghost predicate ReplayStep(s: Persisted, s': Persisted, ok: bool) {
    match s.journal
    case NoJournal => ok && s' == s
    case Torn => !ok && s' == s
    case Readable(ops) =>
      if ok then
        && s'.journal == Readable([])
        && if Terminated(s.db) then s'.db == s.db else RunOps(s.db, ops) == Success(s'.db)
      else
        && s'.journal == s.journal
        && if Terminated(s.db) then s'.db == s.db else RanPrefix(s.db, ops, s'.db)
  }

  ghost predicate RanPrefix(db: Db, ops: seq<Operation>, db': Db) {
    exists k :: 0 <= k <= |ops| && RunOps(db, ops[..k]) == Success(db')
  }

  class JournalFile {
    const meetingId: Id
    const world: World
    var file: Option<seq<Line>>

    function View(): Journal
      reads this
    {
      Meaning(file, meetingId)
    }

    constructor (meetingId: Id, world: World)
      ensures this.meetingId == meetingId && this.world == world && file == None
    {
      this.meetingId, this.world := meetingId, world;
      file := None;
    }

    /** Read the file line by line, checking meeting and sequence number of every envelope. */
    method Read(lines: seq<Line>) returns (r: Result<seq<Envelope>, Fault>)
      ensures r == ReadFrom(lines, meetingId, 1)
    {
      var envelopes: seq<Envelope> := [];
      var expected := 1;
      for i := 0 to |lines|
        invariant expected == |envelopes| + 1
        invariant ReadFrom(lines[..i], meetingId, 1) == Success(envelopes)
      {
        assert lines[..i + 1] == lines[..i] + [lines[i]];
        ReadAppend(lines[..i], lines[i], meetingId, 1);
        match lines[i] {
          case Blank =>
          case Garbage =>
            ReadStaysBroken(lines, i + 1, meetingId, 1);
            return Failure(JournalFault);
          case Entry(e) =>
            if e.meetingId != meetingId || e.sequence != expected {
              ReadStaysBroken(lines, i + 1, meetingId, 1);
              return Failure(JournalFault);
            }
            envelopes := envelopes + [e];
            expected := expected + 1;
        }
      }
      assert lines[..|lines|] == lines;
      return Success(envelopes);
    }

    /**
     Append one envelope with the next sequence number. A failed append may have written nothing, the whole
     envelope, or a part of it that no longer reads. A successful one has written all of it, which reads back only
     where it is one line: else its first piece is an object cut short.
     */
    method Append(op: Operation) returns (r: Result<Envelope, Fault>, ghost wrote: Wrote, ghost failed: bool)
      modifies this, world
      ensures world.calls == old(world.calls) + OnFile(Filed(op), failed)
      ensures WroteTo(old(View()), op, wrote, View())
      ensures r.Success? ==> !failed && wrote == Whole && r.value == Envelope(meetingId, |old(View()).pending| + 1, op)
      ensures r.Failure? ==> r.error == JournalFault
      ensures !failed ==> (r.Success? <==> old(View()).Readable?)
    {
      var down := world.CallFile(Filed(op));
      if down {
        return Failure(JournalFault), Nothing, true;
      }
      var lines := if file.Some? then file.value else [];
      var read := Read(lines);
      if read.Failure? {
        return Failure(JournalFault), Nothing, false;
      }
      var envelopes := read.value;
      var sequence := if envelopes != [] then envelopes[|envelopes| - 1].sequence + 1 else 1;
      LastSequence(lines, meetingId, 1);
      var cut := world.FileFails();
      AfterAll(old(world.calls), Filed(op));
      wrote := WriteLines(lines, Envelope(meetingId, sequence, op), cut);
      failed := cut;
      r := if cut then Failure(JournalFault) else Success(Envelope(meetingId, sequence, op));
    }

    /** The file with the envelope appended; a write cut short leaves nothing of it, some of it, or all. */
    method WriteLines(lines: seq<Line>, envelope: Envelope, cut: bool) returns (ghost wrote: Wrote)
      requires lines == if file.Some? then file.value else []
      requires envelope.meetingId == meetingId
      requires View().Readable? && envelope.sequence == |View().pending| + 1
      modifies this`file
      ensures WroteTo(old(View()), envelope.operation, wrote, View())
      ensures !cut ==> wrote == Whole
    {
      ghost var envelopes := ReadFrom(lines, meetingId, 1).value;
      ReadAppend(lines, Entry(envelope), meetingId, 1);
      assert Operations(envelopes + [envelope]) == Operations(envelopes) + [envelope.operation];
      if cut {
        if * {
          return Nothing;
        } else if * {
          file := Some(lines + [Garbage]);
          GarbageStays(lines, [], meetingId);
          assert lines + [Garbage] + [] == lines + [Garbage];
          return Piece;
        }
      }
      var pieces: seq<Line> := *;
      GarbageStays(lines, pieces, meetingId);
      file := Some(if OneLine(envelope.operation) then lines + [Entry(envelope)] else lines + [Garbage] + pieces);
      wrote := Whole;
    }

    /** Replay every pending envelope into the store and delete the file; drop them if the meeting ended. */
    method ReplayMeeting(store: MeetingStore) returns (r: Result<nat, Fault>, ghost log: seq<Call>)
      requires store.world == world
      modifies this, store, world
      ensures ReplayStep(Persisted(old(store.View()), old(View())), Persisted(store.View(), View()), r.Success?)
      ensures r.Success? ==> r.value == |old(View()).pending|
      ensures r.Success? ==> file == None
      ensures r.Failure? ==> file == old(file)
      ensures world.calls == old(world.calls) + log && AppendsNothing(log) && (r.Success? ==> Clean(log))
      ensures Clean(log) ==>
                FaultlessReplay(Persisted(old(store.View()), old(View()))) == (Persisted(store.View(), View()), ErrorOf(r))
    {
      if file == None {
        return Success(0), [];
      }
      ghost var before := store.View();
      assert View().Readable? ==> RunOps(before, View().pending[..0]) == Success(before);
      var down := world.CallFile(Opened);
      log := OnFile(Opened, down);
      if down {
        return Failure(JournalFault), log;
      }
      var read := Read(file.value);
      if read.Failure? {
        return Failure(JournalFault), log;
      }
      assert View() == Readable(Operations(read.value));
      ghost var rest;
      r, rest := ReplayEnvelopes(store, read.value);
      log := log + rest;
    }

    /** What follows the reading: a look at the meeting, the operations unless it has ended, and the deletion. */
    method ReplayEnvelopes(store: MeetingStore, envelopes: seq<Envelope>)
      returns (r: Result<nat, Fault>, ghost log: seq<Call>)
      requires store.world == world && View() == Readable(Operations(envelopes))
      modifies this`file, store, world
      ensures ReplayStep(Persisted(old(store.View()), old(View())), Persisted(store.View(), View()), r.Success?)
      ensures r.Success? ==> r.value == |envelopes| && file == None
      ensures r.Failure? ==> file == old(file)
      ensures world.calls == old(world.calls) + log && AppendsNothing(log) && (r.Success? ==> Clean(log))
      ensures Clean(log) ==>
                FaultlessReplay(Persisted(old(store.View()), old(View()))) == (Persisted(store.View(), View()), ErrorOf(r))
    {
      ghost var before := store.View();
      assert RunOps(before, Operations(envelopes)[..0]) == Success(before);
      var meeting := store.GetMeeting();
      log := OnStore(Looked, meeting.Failure?);
      if meeting.Failure? {
        return Failure(meeting.error), log;
      }
      if meeting.value.Some? && !Live(meeting.value.value) {
        var kept := Remove();
        log := log + OnFile(Removed, kept);
        return if kept then Failure(JournalFault) else Success(|envelopes|), log;
      }
      var refused, ran := ReplayAll(store, envelopes);
      log := log + ran;
      if refused.Some? {
        return Failure(refused.value), log;
      }
      var kept := Remove();
      log := log + OnFile(Removed, kept);
      r := if kept then Failure(JournalFault) else Success(|envelopes|);
    }

    /** Delete the file, or fail and keep it. */
    method Remove() returns (kept: bool)
      modifies this`file, world
      ensures world.calls == old(world.calls) + OnFile(Removed, kept)
      ensures file == if kept then old(file) else None
    {
      kept := world.CallFile(Removed);
      if !kept {
        file := None;
      }
    }

    /** Carry the envelopes out in order until one fails. */
    method ReplayAll(store: MeetingStore, envelopes: seq<Envelope>) returns (error: Option<Fault>, ghost log: seq<Call>)
      requires store.world == world
      modifies store, world
      ensures world.calls == old(world.calls) + log && AppendsNothing(log)
      ensures error.None? ==> RunOps(old(store.View()), Operations(envelopes)) == Success(store.View())
      ensures RanPrefix(old(store.View()), Operations(envelopes), store.View())
      ensures Clean(log) ==> RanUntil(old(store.View()), Operations(envelopes)) == (store.View(), error)
      ensures !Clean(log) ==> error.Some?
    {
      ghost var before, ops := store.View(), Operations(envelopes);
      log := [];
      for i := 0 to |envelopes|
        invariant world.calls == old(world.calls) + log && AppendsNothing(log) && Clean(log)
        invariant RanUntil(before, ops[..i]) == (store.View(), None)
      {
        ghost var mid := store.View();
        var done, failed := ReplayOne(store, envelopes[i]);
        log := log + OpCalls(ops[i], failed);
        OneMoreRan(before, ops, i, mid, store.View(), ErrorOf(done), failed);
        if done.Failure? {
          return Some(done.error), log;
        }
      }
      assert ops[..|ops|] == ops;
      RanUntilRuns(before, ops);
      error := None;
    }

    method ReplayOne(store: MeetingStore, envelope: Envelope) returns (r: Result<(), Fault>, ghost failed: bool)
      requires store.world == world
      modifies store, world
      ensures world.calls == old(world.calls) + OpCalls(envelope.operation, failed)
      ensures Transacted(old(store.View()), envelope.operation, store.View(), ErrorOf(r), failed)
      ensures failed ==> StoreFailed in OpCalls(envelope.operation, failed)
    {
      match envelope.operation
      case ReconcileWindow(w) =>
        var done;
        done, failed := store.Reconcile(w);
        r := if done.Success? then Success(()) else Failure(done.error);
      case SetStatus(target) =>
        r, failed := store.ChangeStatus(target);
      case FinalizeTranscript(target) =>
        r, failed := store.Finalize(target);
      case Unsupported =>
        r, failed := Failure(JournalFault), false;
    }

    method Discard() returns (r: Result<(), Fault>)
      modifies this`file, world
      ensures world.calls == old(world.calls) + OnFile(Removed, r.Failure?)
      ensures r.Success? ==> file == None
      ensures r.Failure? ==> file == old(file)
    {
      var kept := Remove();
      r := if kept then Failure(JournalFault) else Success(());
    }
  }

  /** The calls of one operation of the journal. */
  function OpCalls(op: Operation, failed: bool): seq<Call> {
    match op
    case Unsupported => []
    case FinalizeTranscript(target) => if Final(target) then OnStore(Ran(op), failed) else []
    case _ => OnStore(Ran(op), failed)
  }

  predicate AppendsNothing(calls: seq<Call>) {
    forall c :: c in calls ==> !c.Filed?
  }

  lemma {:induction false} ReadStaysBroken(lines: seq<Line>, n: nat, meetingId: Id, first: nat)
    requires n <= |lines| && ReadFrom(lines[..n], meetingId, first).Failure?
    ensures ReadFrom(lines, meetingId, first) == ReadFrom(lines[..n], meetingId, first)
    decreases |lines| - n
  {
    if n == |lines| {
      assert lines[..n] == lines;
    } else {
      assert lines[..n + 1] == lines[..n] + [lines[n]];
      ReadAppend(lines[..n], lines[n], meetingId, first);
      ReadStaysBroken(lines, n + 1, meetingId, first);
    }
  }

  lemma GarbageStays(lines: seq<Line>, pieces: seq<Line>, meetingId: Id)
    ensures ReadFrom(lines + [Garbage] + pieces, meetingId, 1).Failure?
  {
    var all, n := lines + [Garbage] + pieces, |lines| + 1;
    assert all[..n] == lines + [Garbage];
    ReadAppend(lines, Garbage, meetingId, 1);
    ReadStaysBroken(all, n, meetingId, 1);
  }

  lemma LastSequence(lines: seq<Line>, meetingId: Id, first: nat)
    requires ReadFrom(lines, meetingId, first).Success?
    ensures var es := ReadFrom(lines, meetingId, first).value;
            es != [] ==> es[|es| - 1].sequence == first + |es| - 1
  {
    ReadsIffContiguous(lines, meetingId, first);
    var es := ReadFrom(lines, meetingId, first).value;
    if es != [] {
      assert NonBlank(lines)[|es| - 1] == Entry(es[|es| - 1]);
    }
  }
}
