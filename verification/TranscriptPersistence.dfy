/**
Online reconciliation of windows with journal fallback, and the write-ahead sealing of a meeting.

The database may fail before or after a commit at every call, a replay may stop anywhere, and deleting the
journal may fail. The lemmas show what no such failure can change: the stored transcript followed by a replay
of the pending journal.
*/
module TranscriptPersistence {
  import opened Wrappers
  import opened Transcript
  import opened MeetingRepository
  import opened RecoveryJournal

  // ---------- one submission ----------

  /** What the service compares to recognise a repeated window: not order, translation or language. */
  datatype Signature = Signature(sourceEpoch: nat, parts: seq<(Id, nat, nat, string, string)>)

  function SignatureOf(w: Window): Signature {
    Signature(w.sourceEpoch, seq(|w.segments|, i requires 0 <= i < |w.segments| =>
      var s := w.segments[i]; (s.id, s.startMs, s.endMs, s.speakerKey, s.text)))
  }

  /** Deduplicated and Journaled both return None to the caller; Raised lets the fault through. */
  datatype Outcome = Deduplicated | Stored(receipt: Receipt) | Journaled | Raised(fault: Fault)

  /** The part of a submission that failed before the fallback: the replay, or the write after it. */
  ghost predicate FailedWrite(s: Persisted, w: Window, m: Persisted) {
    || ReplayStep(s, m, false)
    || exists r: Persisted ::
         ReplayStep(s, r, true) && CallOutcome(r.db, ReconcileWindow(w), m.db, false) && m.journal == r.journal
  }

  ghost predicate StoredBy(s: Persisted, w: Window, s': Persisted) {
    exists m: Persisted ::
      ReplayStep(s, m, true) && Execute(m.db, ReconcileWindow(w)) == Success(s'.db) && s'.journal == m.journal
  }

  /** A write after a finished replay, told apart by how its transaction ended. */
  lemma WriteEnds(s: Persisted, w: Window, m: Persisted, s': Persisted, error: Option<Fault>, failed: bool)
    requires ReplayStep(s, m, true) && s'.journal == m.journal
    requires Transacted(m.db, ReconcileWindow(w), s'.db, error, failed)
    ensures if error.None? then !failed && StoredBy(s, w, s') else FailedWrite(s, w, s')
    ensures !failed && FaultlessReplay(s) == (m, None) ==> FaultlessWrite(s, w) == (s', error)
  {
  }

  ghost predicate FellBack(s: Persisted, w: Window, m: Persisted, s': Persisted) {
    && FailedWrite(s, w, m) && m.journal.Readable?
    && s' == m.(journal := Appended(m.journal.pending, ReconcileWindow(w)))
  }

  /** The append that was to save the window failed too, whatever it left in the file. */
  ghost predicate GaveUp(s: Persisted, w: Window, m: Persisted, s': Persisted, wrote: Wrote) {
    && FailedWrite(s, w, m)
    && s'.db == m.db
    && WroteTo(m.journal, ReconcileWindow(w), wrote, s'.journal)
  }

  ghost predicate ReconcileStep(s: Persisted, w: Window, s': Persisted, out: Outcome, wrote: Wrote) {
    match out
    case Deduplicated => s' == s && wrote == Nothing
    case Stored(_) => wrote == Nothing && StoredBy(s, w, s')
    case Journaled => wrote == Whole && exists m :: FellBack(s, w, m, s')
    case Raised(_) => exists m :: GaveUp(s, w, m, s', wrote)
  }

  /** Replay and write where nothing fails outside of the program: what they leave, and the refusal. */
  function FaultlessWrite(s: Persisted, w: Window): (Persisted, Option<Fault>) {
    var (m, refused) := FaultlessReplay(s);
    if refused.Some? then (m, refused)
    else
      match Execute(m.db, ReconcileWindow(w))
      case Success(d) => (m.(db := d), None)
      case Failure(f) => (m, Some(f))
  }

  /** A submission that is no repeat and during which nothing fails outside of the program. */
  predicate FaultlessReconcile(s: Persisted, w: Window, s': Persisted, out: Outcome) {
    var (m, refused) := FaultlessWrite(s, w);
    match refused
    case None => out.Stored? && s' == m
    case Some(f) =>
      match m.journal
      case NoJournal => out == Raised(f) && s' == m
      case Torn => out == Raised(JournalFault) && s' == m
      case Readable(ops) => out == Journaled && s' == m.(journal := Appended(ops, ReconcileWindow(w)))
  }

  /** What the calls of a submission tell of its outcome. */
  predicate Called(s: Persisted, w: Window, s': Persisted, out: Outcome, calls: seq<Call>) {
    if out.Deduplicated? then calls == []
    else
      && (Clean(calls) ==> FaultlessReconcile(s, w, s', out))
      && (out.Raised? && s.journal.Readable? ==> FileFailed in calls)
      && (out.Raised? && !s.journal.NoJournal? ==> out.fault == JournalFault)
      && (out.Raised? && s.journal.NoJournal? && StoreFailed in calls ==> out.fault == Unavailable)
  }

  // ---------- the service over time ----------

  /** What survives in the database and the journal, and the signature the process remembers. */
  datatype Serving = Serving(persisted: Persisted, last: Option<Signature>)

  /**
  A submission with its outcome, what it left in the journal file and the calls it made, a change of the lifecycle
  status between two live statuses, a replay of the pending journal on its own, or a restart of the process.
  */
  datatype Event =
    | Submitted(window: Window, outcome: Outcome, wrote: Wrote, calls: seq<Call>)
    | Lifecycle(status: Status)
    | Replayed(error: Option<Fault>, calls: seq<Call>)
    | Restarted

  ghost predicate RunStep(s: Serving, e: Event, s': Serving) {
    match e
    case Submitted(w, out, wrote, calls) =>
      && ReconcileStep(s.persisted, w, s'.persisted, out, wrote)
      && Called(s.persisted, w, s'.persisted, out, calls)
      && (out.Deduplicated? <==> s.last == Some(SignatureOf(w)))
      && s'.last == if out.Stored? then Some(SignatureOf(w)) else s.last
    case Lifecycle(status) =>
      Live(status) && s' == s.(persisted := s.persisted.(db := s.persisted.db.(status := status)))
    case Replayed(error, calls) =>
      && ReplayStep(s.persisted, s'.persisted, error.None?)
      && (Clean(calls) ==> FaultlessReplay(s.persisted) == (s'.persisted, error))
      && s'.last == s.last
    case Restarted => s' == s.(last := None)
  }

  // ---------- sealing ----------

  /**
  The journal after the write-ahead of a finalisation. A failed append is only logged; where the disk does not fail
  both operations are in a readable journal.
  */
  predicate Prewritten(journal: Journal, target: Status, failed: bool, journal': Journal) {
    match journal
    case NoJournal => journal' == NoJournal
    case Torn => journal' == Torn
    case Readable(ops) =>
      || journal' == Readable(ops + [FinalizeTranscript(Completed), SetStatus(target)])
      || (failed && (|| journal' == Torn
                     || journal' == Readable(ops)
                     || journal' == Readable(ops + [FinalizeTranscript(Completed)])))
  }

  /** The calls of a finalisation, part by part; reached says that its replay succeeded. */
  datatype SealLog = SealLog(
    reached: bool, replay: seq<Call>, ahead: seq<Call>, seal: seq<Call>, removal: seq<Call>)
  {
    function All(): seq<Call> {
      replay + ahead + seal + removal
    }
  }

  /** The database call of a finalisation, and the deletion that follows where it returned. */
  predicate SealedBy(m: Persisted, target: Status, s': Persisted, ok: bool, seal: seq<Call>, removal: seq<Call>) {
    && CallOutcome(m.db, FinalizeTranscript(target), s'.db, ok)
    && (if StoreFailed in seal then !ok else ok <==> Execute(m.db, FinalizeTranscript(target)).Success?)
    && s'.journal == if ok && m.journal != NoJournal && FileFailed !in removal then Readable([]) else m.journal
  }

  predicate SealedFrom(m: Persisted, target: Status, p: Journal, s': Persisted, ok: bool, log: SealLog) {
    && Prewritten(m.journal, target, FileFailed in log.ahead, p)
    && SealedBy(m.(journal := p), target, s', ok, log.seal, log.removal)
  }

  ghost predicate SealedAfter(m: Persisted, target: Status, s': Persisted, ok: bool, log: SealLog) {
    exists p :: SealedFrom(m, target, p, s', ok, log)
  }

  ghost predicate FinalizeStep(s: Persisted, target: Status, s': Persisted, ok: bool, log: SealLog) {
    if !log.reached then
      && !ok && ReplayStep(s, s', false)
      && (Clean(log.replay) ==> FaultlessReplay(s).0 == s' && FaultlessReplay(s).1.Some?)
    else
      exists m :: ReplayStep(s, m, true) && SealedAfter(m, target, s', ok, log)
  }

  lemma AllCalls(before: seq<Call>, log: SealLog)
    ensures before + log.All() == before + log.replay + log.ahead + log.seal + log.removal
  {
  }

  /** The two appends of a write-ahead; the second is tried only where the first succeeded. */
  predicate Ahead(calls: seq<Call>, target: Status) {
    if FileFailed !in calls then calls == [Filed(FinalizeTranscript(Completed)), Filed(SetStatus(target))]
    else
      || calls == [Filed(FinalizeTranscript(Completed)), FileFailed]
      || calls == [Filed(FinalizeTranscript(Completed)), Filed(SetStatus(target)), FileFailed]
  }

  /** Both operations are in the file before the database is called, and the file goes only after it has returned. */
  predicate InOrder(log: SealLog, target: Status, journaled: bool, sealed: bool) {
    && AppendsNothing(log.replay)
    && if !log.reached then log.ahead == log.seal == log.removal == [] && !sealed
       else
         && (if journaled then Ahead(log.ahead, target) else log.ahead == [])
         && log.seal == (if Final(target) then OnStore(Ran(FinalizeTranscript(target)), StoreFailed in log.seal) else [])
         && log.removal == if sealed && journaled then OnFile(Removed, FileFailed in log.removal) else []
  }

  // ---------- the service ----------

  class Persistence {
    const store: MeetingStore
    const journal: JournalFile?
    const world: World
    var degraded: bool
    var lastSignature: Option<Signature>

    /** Store and journal fail in, and are called in, one world. */
    predicate Wired() {
      store.world == world && (journal != null ==> journal.world == world)
    }

    function View(): Persisted
      reads this, store, journal
    {
      Persisted(store.View(), if journal == null then NoJournal else journal.View())
    }

    function Memory(): Serving
      reads this, store, journal
    {
      Serving(View(), lastSignature)
    }

    constructor (store: MeetingStore, journal: JournalFile?)
      requires journal != null ==> journal.world == store.world
      ensures this.store == store && this.journal == journal && Wired() && !degraded && lastSignature == None
    {
      this.store := store;
      this.journal := journal;
      world := store.world;
      degraded := false;
      lastSignature := None;
    }

    method ReplayPending() returns (r: Result<nat, Fault>, ghost calls: seq<Call>)
      requires Wired()
      modifies this`degraded, store, journal, world
      ensures world.calls == old(world.calls) + calls && AppendsNothing(calls) && (r.Success? ==> Clean(calls))
      ensures RunStep(old(Memory()), Replayed(ErrorOf(r), calls), Memory())
      ensures r.Success? ==> degraded == (old(degraded) && r.value == 0)
      ensures r.Failure? ==> degraded == old(degraded)
      ensures journal == null ==> r == Success(0) && calls == []
    {
      if journal == null {
        return Success(0), [];
      }
      r, calls := journal.ReplayMeeting(store);
      if r.Success? && r.value > 0 {
        degraded := false;
      }
    }

    /** The write of a submission, after a replay that led here from s. */
    method WriteReplayed(w: Window, ghost s: Persisted) returns (r: Result<Receipt, Fault>, ghost failed: bool)
      requires Wired() && ReplayStep(s, View(), true) && FaultlessReplay(s) == (View(), None)
      modifies store, world
      ensures world.calls == old(world.calls) + OnStore(Ran(ReconcileWindow(w)), failed)
      ensures r.Success? ==> !failed && StoredBy(s, w, View())
      ensures r.Success? ==> r.value == ReceiptFor(w, store.transcriptRevision, store.contentRevision)
      ensures r.Failure? ==> FailedWrite(s, w, View()) && (failed ==> r.error == Unavailable)
      ensures !failed ==> FaultlessWrite(s, w) == (View(), ErrorOf(r))
    {
      ghost var middle := View();
      r, failed := store.Reconcile(w);
      ghost var after := View();
      assert after.journal == middle.journal;
      WriteEnds(s, w, middle, after, ErrorOf(r), failed);
    }

    /** The part of a submission before the fallback: the replay, then the write. */
    method Write(w: Window) returns (r: Result<Receipt, Fault>, ghost calls: seq<Call>)
      requires Wired()
      modifies this`degraded, store, journal, world
      ensures world.calls == old(world.calls) + calls
      ensures r.Success? ==> Clean(calls) && StoredBy(old(View()), w, View())
      ensures r.Success? ==> r.value == ReceiptFor(w, store.transcriptRevision, store.contentRevision)
      ensures r.Failure? ==> FailedWrite(old(View()), w, View())
      ensures Clean(calls) ==> FaultlessWrite(old(View()), w) == (View(), ErrorOf(r))
      ensures journal == null && StoreFailed in calls ==> r == Failure(Unavailable)
    {
      var replayed;
      replayed, calls := ReplayPending();
      if replayed.Failure? {
        return Failure(replayed.error), calls;
      }
      ghost var failed;
      r, failed := WriteReplayed(w, old(View()));
      calls := calls + OnStore(Ran(ReconcileWindow(w)), failed);
    }

    /** Submit one confirmed window. */
    method Reconcile(w: Window) returns (out: Outcome, ghost wrote: Wrote, ghost calls: seq<Call>)
      requires Wired()
      modifies this, store, journal, world
      ensures world.calls == old(world.calls) + calls
      ensures RunStep(old(Memory()), Submitted(w, out, wrote, calls), Memory())
      ensures out.Stored? ==> out.receipt == ReceiptFor(w, store.transcriptRevision, store.contentRevision)
      ensures match out
              case Deduplicated => degraded == old(degraded)
              case Stored(_) => !degraded
              case _ => degraded
    {
      var signature := SignatureOf(w);
      if Some(signature) == lastSignature {
        return Deduplicated, Nothing, [];
      }
      ghost var before := View();
      var written;
      written, calls := Write(w);
      if written.Success? {
        lastSignature := Some(signature);
        degraded := false;
        return Stored(written.value), Nothing, calls;
      }
      ghost var middle := View();
      degraded := true;
      if journal == null {
        assert GaveUp(before, w, middle, View(), Nothing);
        return Raised(written.error), Nothing, calls;
      }
      var appended, left, failed := journal.Append(ReconcileWindow(w));
      calls := calls + OnFile(Filed(ReconcileWindow(w)), failed);
      if before.journal.Readable? { FailedWriteReads(before, w, middle); }
      if appended.Failure? {
        assert GaveUp(before, w, middle, View(), left);
        return Raised(appended.error), left, calls;
      }
      assert FellBack(before, w, middle, View());
      return Journaled, Whole, calls;
    }

    /** The two appends ahead of the sealing; a failure is only logged. */
    method WriteAhead(target: Status) returns (ghost calls: seq<Call>)
      requires journal != null && Wired() && journal.View().Readable?
      modifies journal, world
      ensures world.calls == old(world.calls) + calls && Ahead(calls, target)
      ensures Prewritten(old(journal.View()), target, FileFailed in calls, journal.View())
    {
      ghost var ops := journal.View().pending;
      var first, leftFirst, failed := journal.Append(FinalizeTranscript(Completed));
      calls := OnFile(Filed(FinalizeTranscript(Completed)), failed);
      if first.Success? {
        var second, leftSecond, cut := journal.Append(SetStatus(target));
        calls := calls + OnFile(Filed(SetStatus(target)), cut);
        assert ops + [FinalizeTranscript(Completed)] + [SetStatus(target)]
            == ops + [FinalizeTranscript(Completed), SetStatus(target)];
      }
    }

    /** The database call, and the deletion of the file where it returned. */
    method Seal(target: Status) returns (r: Result<(), Fault>, ghost seal: seq<Call>, ghost removal: seq<Call>)
      requires Wired()
      modifies store, journal, world
      ensures world.calls == old(world.calls) + seal + removal
      ensures seal == if Final(target) then OnStore(Ran(FinalizeTranscript(target)), StoreFailed in seal) else []
      ensures removal == if r.Success? && journal != null then OnFile(Removed, FileFailed in removal) else []
      ensures SealedBy(old(View()), target, View(), r.Success?, seal, removal)
      ensures StoreFailed in seal ==> r == Failure(Unavailable)
    {
      ghost var failed;
      r, failed := store.Finalize(target);
      seal, removal := if Final(target) then OnStore(Ran(FinalizeTranscript(target)), failed) else [], [];
      if r.Success? && journal != null {
        var discarded := journal.Discard();
        removal := OnFile(Removed, discarded.Failure?);
      }
    }

    /** What follows the replay of a finalisation: the write-ahead, the database call and the deletion. */
    method FinalizeReplayed(target: Status, ghost replay: seq<Call>) returns (r: Result<(), Fault>, ghost log: SealLog)
      requires Wired() && AppendsNothing(replay) && (journal != null ==> journal.View().Readable?)
      modifies store, journal, world
      ensures log.reached && log.replay == replay
      ensures world.calls == old(world.calls) + log.ahead + log.seal + log.removal
      ensures InOrder(log, target, journal != null, r.Success?)
      ensures SealedAfter(old(View()), target, View(), r.Success?, log)
      ensures StoreFailed in log.seal ==> r == Failure(Unavailable)
    {
      ghost var middle, ahead := View(), [];
      if journal != null {
        ahead := WriteAhead(target);
      }
      ghost var p, seal, removal := View().journal, [], [];
      r, seal, removal := Seal(target);
      log := SealLog(true, replay, ahead, seal, removal);
      assert SealedFrom(middle, target, p, View(), r.Success?, log);
    }

    /** Seal the transcript and set the final status, journaling both operations ahead of the write. */
    method Finalize(target: Status) returns (r: Result<(), Fault>, ghost log: SealLog)
      requires Wired()
      modifies this`degraded, store, journal, world
      ensures world.calls == old(world.calls) + log.All()
      ensures InOrder(log, target, journal != null, r.Success?)
      ensures FinalizeStep(old(View()), target, View(), r.Success?, log)
      ensures log.reached && StoreFailed in log.seal ==> r == Failure(Unavailable)
    {
      var replayed, calls := ReplayPending();
      if replayed.Failure? {
        log := SealLog(false, calls, [], [], []);
        AllCalls(old(world.calls), log);
        return Failure(replayed.error), log;
      }
      ghost var middle := View();
      assert ReplayStep(old(View()), middle, true);
      r, log := FinalizeReplayed(target, calls);
      assert SealedAfter(middle, target, View(), r.Success?, log);
      AllCalls(old(world.calls), log);
    }
  }

  /** A journal that was readable is still readable after a failed write. */
  lemma FailedWriteReads(s: Persisted, w: Window, m: Persisted)
    requires FailedWrite(s, w, m) && s.journal.Readable?
    ensures m.journal.Readable?
  {
  }

  // ---------- what every submission keeps ----------

  function WindowsOf(ops: seq<Operation>): (ws: seq<Window>)
    requires WindowsOnly(ops)
    ensures |ws| == |ops|
  {
    seq(|ops|, i requires 0 <= i < |ops| => ops[i].window)
  }

  predicate WindowsOnly(ops: seq<Operation>) {
    forall i :: 0 <= i < |ops| ==> ops[i].ReconcileWindow?
  }

  /** A recording meeting whose journal, if there is one, is readable and holds windows only. */
  predicate Good(s: Persisted) {
    && s.db.present
    && Live(s.db.status)
    && match s.journal
       case NoJournal => true
       case Torn => false
       case Readable(ops) => WindowsOnly(ops)
  }

  /** The transcript once the pending journal has been replayed. */
  function Virtual(s: Persisted): Rows
    requires Good(s)
  {
    match s.journal
    case NoJournal => s.db.rows
    case Readable(ops) => Replay(s.db.rows, WindowsOf(ops))
  }

  lemma {:induction false} RunWindows(db: Db, ops: seq<Operation>)
    requires db.present && Live(db.status) && WindowsOnly(ops)
    ensures RunOps(db, ops) == Success(db.(rows := Replay(db.rows, WindowsOf(ops))))
  {
    if ops != [] {
      var rest := ops[..|ops| - 1];
      RunWindows(db, rest);
      assert WindowsOf(ops)[..|ops| - 1] == WindowsOf(rest);
    }
  }

  lemma WindowsOfPrefix(ops: seq<Operation>, k: nat)
    requires WindowsOnly(ops) && k <= |ops|
    ensures WindowsOf(ops[..k]) == WindowsOf(ops)[..k]
  {
  }

  /** Having run any prefix first, the whole list still leads to the same transcript. */
  lemma PartialReplayConverges(db: Db, ops: seq<Operation>, k: nat)
    requires db.present && Live(db.status) && WindowsOnly(ops) && k <= |ops|
    ensures var partial := RunOps(db, ops[..k]);
            && partial == Success(db.(rows := Replay(db.rows, WindowsOf(ops)[..k])))
            && Replay(partial.value.rows, WindowsOf(ops)) == Replay(db.rows, WindowsOf(ops))
  {
    RunWindows(db, ops[..k]);
    WindowsOfPrefix(ops, k);
    ReplayConverges(db.rows, WindowsOf(ops)[..k], WindowsOf(ops));
  }

  /** A replay attempt, whether it finishes, stops anywhere or cannot delete the file, keeps the virtual transcript. */
  lemma ReplayKeepsVirtual(s: Persisted, s': Persisted, ok: bool)
    requires Good(s) && ReplayStep(s, s', ok)
    ensures Good(s') && Virtual(s') == Virtual(s)
    ensures ok && s.journal.Readable? ==> s'.journal == Readable([]) && s'.db.rows == Virtual(s)
    ensures s'.journal.NoJournal? <==> s.journal.NoJournal?
  {
    if s.journal.Readable? {
      var ops := s.journal.pending;
      if ok {
        RunWindows(s.db, ops);
      } else {
        var k :| 0 <= k <= |ops| && RunOps(s.db, ops[..k]) == Success(s'.db);
        PartialReplayConverges(s.db, ops, k);
      }
    }
  }

  lemma AppendedWindow(s: Persisted, w: Window)
    requires Good(s) && s.journal.Readable? && OneLineWindow(w)
    ensures var s' := s.(journal := Appended(s.journal.pending, ReconcileWindow(w)));
            Good(s') && Virtual(s') == Apply(Virtual(s), w)
  {
    var ops := s.journal.pending + [ReconcileWindow(w)];
    assert WindowsOf(ops)[..|ops| - 1] == WindowsOf(s.journal.pending);
  }

  /** After a failed write the window has reached the virtual transcript or not, and journaling it gives the same. */
  lemma FailedWriteKeepsVirtual(s: Persisted, w: Window, m: Persisted)
    requires Good(s) && FailedWrite(s, w, m)
    ensures Good(m)
    ensures Virtual(m) == Virtual(s) || Virtual(m) == Apply(Virtual(s), w)
    ensures Apply(Virtual(m), w) == Apply(Virtual(s), w)
    ensures s.journal.NoJournal? <==> m.journal.NoJournal?
  {
    if ReplayStep(s, m, false) {
      ReplayKeepsVirtual(s, m, false);
    } else {
      var r: Persisted :| ReplayStep(s, r, true) && CallOutcome(r.db, ReconcileWindow(w), m.db, false)
                          && m.journal == r.journal;
      ReplayKeepsVirtual(s, r, true);
      ApplyTwice(r.db.rows, w);
    }
  }

  predicate LeftReadable(w: Window, wrote: Wrote) {
    wrote == Nothing || (wrote == Whole && OneLineWindow(w))
  }

  /**
   One submission is atomic. If it stores or journals the window, the virtual transcript has exactly this
   window applied; if it raises, the window is applied or it is not; a deduplicated window changes nothing. A
   submission leaves the journal readable exactly when it wrote nothing to it, or the whole of a window of one line.
   */
  lemma ReconcileIsAtomic(s: Persisted, w: Window, s': Persisted, out: Outcome, wrote: Wrote)
    requires Good(s) && ReconcileStep(s, w, s', out, wrote)
    ensures LeftReadable(w, wrote) <==> s'.journal != Torn
    ensures s'.journal != Torn ==> Good(s')
    ensures out.Deduplicated? ==> s' == s
    ensures out.Stored? ==>
              Good(s') && s'.db.rows == Virtual(s') == Apply(Virtual(s), w)
              && (s'.journal == NoJournal || s'.journal == Readable([]))
    ensures out.Journaled? && OneLineWindow(w) ==> Good(s') && Virtual(s') == Apply(Virtual(s), w)
    ensures out.Raised? && s'.journal != Torn ==>
              Virtual(s') == Virtual(s) || Virtual(s') == Apply(Virtual(s), w)
  {
    match out
    case Deduplicated =>
    case Stored(_) =>
      var m: Persisted :| ReplayStep(s, m, true) && Execute(m.db, ReconcileWindow(w)) == Success(s'.db)
                          && s'.journal == m.journal;
      ReplayKeepsVirtual(s, m, true);
    case Journaled =>
      var m :| FellBack(s, w, m, s');
      FailedWriteKeepsVirtual(s, w, m);
      if OneLineWindow(w) {
        AppendedWindow(m, w);
      }
    case Raised(_) =>
      var m :| GaveUp(s, w, m, s', wrote);
      FailedWriteKeepsVirtual(s, w, m);
      if m.journal.Readable? && OneLineWindow(w) {
        AppendedWindow(m, w);
      }
  }

  /** An unreadable journal is never silent: every later submission that is not a repeat raises and writes nothing. */
  lemma TornJournalBlocks(s: Persisted, w: Window, s': Persisted, out: Outcome, wrote: Wrote)
    requires s.journal == Torn && ReconcileStep(s, w, s', out, wrote) && !out.Deduplicated?
    ensures out.Raised? && wrote == Nothing && s' == s
  {
    assert forall m :: FailedWrite(s, w, m) ==> m == s;
    assert forall m :: !FellBack(s, w, m, s');
  }

  // ---------- whole runs ----------

  ghost predicate IsRun(states: seq<Serving>, events: seq<Event>) {
    && |states| == |events| + 1
    && forall i {:trigger events[i]} :: 0 <= i < |events| ==> RunStep(states[i], events[i], states[i + 1])
  }

  /** Nothing makes the journal unreadable: no piece of an envelope is left, and no whole one of several lines. */
  predicate Intact(events: seq<Event>) {
    forall i {:trigger events[i]} :: 0 <= i < |events| ==> KeepsLine(events[i])
  }

  predicate KeepsLine(e: Event) {
    e.Submitted? ==> LeftReadable(e.window, e.wrote)
  }

  lemma {:induction false} StaysGood(states: seq<Serving>, events: seq<Event>, n: nat)
    requires IsRun(states, events) && Good(states[0].persisted) && n <= |events|
    requires forall i {:trigger events[i]} :: 0 <= i < n ==> KeepsLine(events[i])
    ensures Good(states[n].persisted)
  {
    if n > 0 {
      StaysGood(states, events, n - 1);
      StepStaysGood(states[n - 1], events[n - 1], states[n]);
    }
  }

  lemma StepStaysGood(s: Serving, e: Event, s': Serving)
    requires Good(s.persisted) && RunStep(s, e, s')
    ensures KeepsLine(e) <==> s'.persisted.journal != Torn
    ensures KeepsLine(e) ==> Good(s'.persisted)
  {
    match e
    case Submitted(w, out, wrote, _) => ReconcileIsAtomic(s.persisted, w, s'.persisted, out, wrote);
    case Replayed(error, _) => ReplayKeepsVirtual(s.persisted, s'.persisted, error.None?);
    case _ =>
  }

  /** The journal stays readable over a run exactly when the run is intact. */
  lemma ReadableIffIntact(states: seq<Serving>, events: seq<Event>)
    requires IsRun(states, events) && Good(states[0].persisted)
    ensures Intact(events) <==> forall n :: 0 <= n <= |events| ==> states[n].persisted.journal != Torn
  {
    if Intact(events) {
      forall n | 0 <= n <= |events| ensures states[n].persisted.journal != Torn { StaysGood(states, events, n); }
    }
    if forall n :: 0 <= n <= |events| ==> states[n].persisted.journal != Torn {
      ReadableIsIntact(states, events, |events|);
    }
  }

  lemma {:induction false} ReadableIsIntact(states: seq<Serving>, events: seq<Event>, n: nat)
    requires IsRun(states, events) && Good(states[0].persisted) && n <= |events|
    requires forall k :: 0 <= k <= |events| ==> states[k].persisted.journal != Torn
    ensures forall i {:trigger events[i]} :: 0 <= i < n ==> KeepsLine(events[i])
  {
    if n > 0 {
      ReadableIsIntact(states, events, n - 1);
      StaysGood(states, events, n - 1);
      StepStaysGood(states[n - 1], events[n - 1], states[n]);
    }
  }

  lemma TornStepStays(s: Serving, e: Event, s': Serving)
    requires s.persisted.journal == Torn && RunStep(s, e, s')
    ensures s'.persisted.journal == Torn && s'.persisted.db.rows == s.persisted.db.rows
    ensures e.Submitted? ==> e.outcome.Deduplicated? || e.outcome.Raised?
  {
    if e.Submitted? && !e.outcome.Deduplicated? {
      TornJournalBlocks(s.persisted, e.window, s'.persisted, e.outcome, e.wrote);
    }
  }

  /** Once the journal is unreadable it stays so, over restarts too, and no window reaches the transcript any more. */
  lemma {:induction false} UnreadableIsFinal(states: seq<Serving>, events: seq<Event>, i: nat, j: nat)
    requires IsRun(states, events) && i <= j <= |events| && states[i].persisted.journal == Torn
    ensures states[j].persisted.journal == Torn && states[j].persisted.db.rows == states[i].persisted.db.rows
    ensures forall k :: i <= k < j && events[k].Submitted? ==> events[k].outcome.Deduplicated? || events[k].outcome.Raised?
    decreases j
  {
    if i < j {
      UnreadableIsFinal(states, events, i, j - 1);
      TornStepStays(states[j - 1], events[j - 1], states[j]);
    }
  }

  /**
  A window with a separator in one of its texts, submitted while the database is down, is accepted and lost: it is
  reported as journaled, the journal never reads again, and the transcript keeps the rows it had before.
  */
  lemma SplitWindowIsLost(s: Serving, w: Window, states: seq<Serving>, events: seq<Event>)
    requires Good(s.persisted) && s.persisted.journal.Readable? && s.last != Some(SignatureOf(w)) && !OneLineWindow(w)
    requires var s' := s.(persisted := s.persisted.(journal := Torn)); IsRun(states, events) && states[0] == s'
    ensures RunStep(s, Submitted(w, Journaled, Whole, FallbackCalls(w)), states[0])
    ensures states[|events|].persisted.db.rows == s.persisted.db.rows
  {
    JournalsNow(s, w);
    UnreadableIsFinal(states, events, 0, |events|);
  }

  /** A replay attempt may fail before its first operation. */
  lemma NothingReplayed(s: Persisted)
    requires s.journal.Readable?
    ensures ReplayStep(s, s, false)
  {
    assert RunOps(s.db, s.journal.pending[..0]) == Success(s.db);
  }

  /** The windows of the events that were taken, in submission order. */
  function Taken(events: seq<Event>, choice: seq<bool>): seq<Window>
    requires |choice| == |events|
  {
    if events == [] then []
    else
      var last := events[|events| - 1];
      Taken(events[..|events| - 1], choice[..|events| - 1])
      + if choice[|events| - 1] && last.Submitted? then [last.window] else []
  }

  /** Accepted submissions are taken, repeats are not, and a raised submission may be either. */
  predicate MayTake(e: Event, took: bool) {
    match e
    case Submitted(_, Deduplicated, _, _) => !took
    case Submitted(_, Raised(_), _, _) => true
    case Submitted(_, _, _, _) => took
    case _ => !took
  }

  predicate Admissible(events: seq<Event>, choice: seq<bool>) {
    |choice| == |events| && forall i :: 0 <= i < |events| ==> MayTake(events[i], choice[i])
  }

  lemma TakeOne(s: Serving, e: Event, s': Serving) returns (took: bool)
    requires Good(s.persisted) && RunStep(s, e, s') && KeepsLine(e)
    ensures MayTake(e, took) && Good(s'.persisted)
    ensures Virtual(s'.persisted)
            == if took && e.Submitted? then Apply(Virtual(s.persisted), e.window) else Virtual(s.persisted)
    ensures e.Submitted? && e.outcome.Stored? ==> Settled(s'.persisted)
  {
    StepStaysGood(s, e, s');
    match e
    case Submitted(w, out, wrote, _) =>
      ReconcileIsAtomic(s.persisted, w, s'.persisted, out, wrote);
      took := !out.Deduplicated? && (out.Raised? ==> Virtual(s'.persisted) != Virtual(s.persisted));
    case Replayed(error, _) =>
      ReplayKeepsVirtual(s.persisted, s'.persisted, error.None?);
      took := false;
    case _ =>
      took := false;
  }

  /** Nothing is pending: the database holds the whole transcript. */
  predicate Settled(s: Persisted)
    requires Good(s)
  {
    s.db.rows == Virtual(s) && (s.journal == NoJournal || s.journal == Readable([]))
  }

  lemma TakenOne(events: seq<Event>, choice: seq<bool>, e: Event, took: bool)
    requires |choice| == |events|
    ensures Taken(events + [e], choice + [took])
            == Taken(events, choice) + if took && e.Submitted? then [e.window] else []
  {
    assert (events + [e])[..|events|] == events && (choice + [took])[..|choice|] == choice;
  }

  lemma ReplayOneMore(initial: Rows, windows: seq<Window>, w: Window)
    ensures Replay(initial, windows + [w]) == Apply(Replay(initial, windows), w)
  {
    assert (windows + [w])[..|windows|] == windows;
  }

  lemma TakenAppend(initial: Rows, events: seq<Event>, choice: seq<bool>, e: Event, took: bool)
    requires |choice| == |events|
    ensures Replay(initial, Taken(events + [e], choice + [took])) ==
            if took && e.Submitted? then Apply(Replay(initial, Taken(events, choice)), e.window)
            else Replay(initial, Taken(events, choice))
  {
    TakenOne(events, choice, e, took);
    if took && e.Submitted? {
      ReplayOneMore(initial, Taken(events, choice), e.window);
    } else {
      assert Taken(events, choice) + [] == Taken(events, choice);
    }
  }

  /** The state after the first n events, as the fold of the windows taken among them. */
  ghost predicate Folded(states: seq<Serving>, events: seq<Event>, n: nat, choice: seq<bool>)
    requires |states| == |events| + 1 && n <= |events| && Good(states[0].persisted)
  {
    && Admissible(events[..n], choice)
    && Good(states[n].persisted)
    && Virtual(states[n].persisted) == Replay(Virtual(states[0].persisted), Taken(events[..n], choice))
    && (n > 0 && events[n - 1].Submitted? && events[n - 1].outcome.Stored? ==> Settled(states[n].persisted))
  }

  lemma AdmissibleAppend(events: seq<Event>, n: nat, choice: seq<bool>, took: bool)
    requires n < |events| && Admissible(events[..n], choice) && MayTake(events[n], took)
    ensures Admissible(events[..n + 1], choice + [took])
  {
    forall i | 0 <= i < n + 1 ensures MayTake(events[..n + 1][i], (choice + [took])[i]) {
      if i < n { assert MayTake(events[..n][i], choice[i]); }
    }
  }

  lemma TakenExtends(initial: Rows, events: seq<Event>, n: nat, choice: seq<bool>, took: bool)
    requires n < |events| && |choice| == n
    ensures Replay(initial, Taken(events[..n + 1], choice + [took])) ==
            if took && events[n].Submitted? then Apply(Replay(initial, Taken(events[..n], choice)), events[n].window)
            else Replay(initial, Taken(events[..n], choice))
  {
    assert events[..n + 1] == events[..n] + [events[n]];
    TakenAppend(initial, events[..n], choice, events[n], took);
  }

  lemma FoldOneMore(
    states: seq<Serving>, events: seq<Event>, n: nat, choice: seq<bool>, took: bool)
    requires |states| == |events| + 1 && n < |events| && Good(states[0].persisted) && Folded(states, events, n, choice)
    requires MayTake(events[n], took) && Good(states[n + 1].persisted)
    requires Virtual(states[n + 1].persisted)
             == if took && events[n].Submitted? then Apply(Virtual(states[n].persisted), events[n].window)
                else Virtual(states[n].persisted)
    requires events[n].Submitted? && events[n].outcome.Stored? ==> Settled(states[n + 1].persisted)
    ensures Folded(states, events, n + 1, choice + [took])
  {
    TakenExtends(Virtual(states[0].persisted), events, n, choice, took);
    AdmissibleAppend(events, n, choice, took);
  }

  lemma FoldNext(states: seq<Serving>, events: seq<Event>, n: nat, choice: seq<bool>) returns (more: seq<bool>)
    requires |states| == |events| + 1 && n < |events| && Good(states[0].persisted) && Folded(states, events, n, choice)
    requires RunStep(states[n], events[n], states[n + 1]) && KeepsLine(events[n])
    ensures Folded(states, events, n + 1, more)
  {
    var took := TakeOne(states[n], events[n], states[n + 1]);
    FoldOneMore(states, events, n, choice, took);
    more := choice + [took];
  }

  lemma NothingFolded(states: seq<Serving>, events: seq<Event>)
    requires |states| == |events| + 1 && Good(states[0].persisted)
    ensures Folded(states, events, 0, [])
  {
    assert events[..0] == [];
  }

  lemma StepOfRun(states: seq<Serving>, events: seq<Event>, n: nat)
    requires IsRun(states, events) && Intact(events) && n < |events|
    ensures RunStep(states[n], events[n], states[n + 1]) && KeepsLine(events[n])
  {
  }

  lemma {:induction false} RunFolds(states: seq<Serving>, events: seq<Event>, n: nat) returns (choice: seq<bool>)
    requires IsRun(states, events) && Intact(events) && Good(states[0].persisted) && n <= |events|
    ensures Folded(states, events, n, choice)
  {
    if n == 0 {
      choice := [];
      NothingFolded(states, events);
    } else {
      var earlier := RunFolds(states, events, n - 1);
      StepOfRun(states, events, n - 1);
      choice := FoldNext(states, events, n - 1, earlier);
    }
  }

  /**
   Over any intact run, with any pattern of database failures, partial replays, failed deletions and restarts, the
   virtual transcript is the fold of the accepted windows in submission order over the initial one. When the last
   submission was stored, nothing is pending and the database holds exactly that fold.
   */
  lemma RunRefinesFold(states: seq<Serving>, events: seq<Event>) returns (choice: seq<bool>)
    requires IsRun(states, events) && Intact(events) && Good(states[0].persisted)
    ensures Admissible(events, choice)
    ensures var initial, end := Virtual(states[0].persisted), states[|events|].persisted;
            && Good(end)
            && Virtual(end) == Replay(initial, Taken(events, choice))
            && (events != [] && events[|events| - 1].Submitted? && events[|events| - 1].outcome.Stored? ==>
                  && end.db.rows == Replay(initial, Taken(events, choice))
                  && (end.journal == NoJournal || end.journal == Readable([])))
  {
    choice := RunFolds(states, events, |events|);
    assert events[..|events|] == events;
  }

  // ---------- when nothing fails ----------

  /** What the database and an emptied journal look like once the window has been added. */
  function StoredDirectly(s: Persisted, w: Window): Persisted
    requires Good(s)
  {
    Persisted(s.db.(rows := Apply(Virtual(s), w)), if s.journal.NoJournal? then NoJournal else Readable([]))
  }

  lemma FaultlessReplayEmpties(s: Persisted)
    requires Good(s)
    ensures FaultlessReplay(s)
            == (Persisted(s.db.(rows := Virtual(s)), if s.journal.NoJournal? then NoJournal else Readable([])), None)
  {
    if s.journal.Readable? {
      RunWindows(s.db, s.journal.pending);
      RanUntilRuns(s.db, s.journal.pending);
    }
  }

  /** While the database and the disk work, every window of a recording meeting that is no repeat is stored at once. */
  lemma FaultlessIsStored(s: Serving, e: Event, s': Serving)
    requires Good(s.persisted) && RunStep(s, e, s') && e.Submitted? && Clean(e.calls)
    ensures if e.outcome.Deduplicated? then s' == s
            else e.outcome.Stored? && s'.persisted == StoredDirectly(s.persisted, e.window)
  {
    if !e.outcome.Deduplicated? {
      FaultlessReplayEmpties(s.persisted);
    }
  }

  predicate NothingFails(events: seq<Event>) {
    forall i :: 0 <= i < |events| ==>
      (events[i].Submitted? ==> Clean(events[i].calls)) && (events[i].Replayed? ==> Clean(events[i].calls))
  }

  /** The windows that were no repeats, in submission order. */
  function NoRepeats(events: seq<Event>): seq<Window> {
    if events == [] then []
    else
      var last := events[|events| - 1];
      NoRepeats(events[..|events| - 1]) + if last.Submitted? && !last.outcome.Deduplicated? then [last.window] else []
  }

  /** The step leaves the window in the rows and nothing in the journal, or, for a repeat, both as they were. */
  predicate StoresAtOnce(s: Serving, e: Event, s': Serving) {
    Good(s.persisted) ==>
      && Good(s'.persisted)
      && (e.Submitted? && !e.outcome.Deduplicated? ==> s'.persisted == StoredDirectly(s.persisted, e.window))
      && (!e.Submitted? || e.outcome.Deduplicated? ==>
            Virtual(s'.persisted) == Virtual(s.persisted) && (Settled(s.persisted) ==> Settled(s'.persisted)))
  }

  lemma StepStoresAtOnce(s: Serving, e: Event, s': Serving)
    requires RunStep(s, e, s') && ((e.Submitted? || e.Replayed?) ==> Clean(e.calls))
    ensures StoresAtOnce(s, e, s')
  {
    if Good(s.persisted) {
      match e
      case Submitted(w, _, _, _) => FaultlessIsStored(s, e, s');
      case Replayed(error, _) => ReplayKeepsVirtual(s.persisted, s'.persisted, error.None?);
      case _ =>
    }
  }

  lemma NoRepeatsNext(initial: Rows, events: seq<Event>, n: nat)
    requires n < |events|
    ensures var rows, e := Replay(initial, NoRepeats(events[..n])), events[n];
            Replay(initial, NoRepeats(events[..n + 1]))
            == if e.Submitted? && !e.outcome.Deduplicated? then Apply(rows, e.window) else rows
  {
    var e := events[n];
    assert events[..n + 1][..n] == events[..n];
    if e.Submitted? && !e.outcome.Deduplicated? {
      ReplayOneMore(initial, NoRepeats(events[..n]), e.window);
    } else {
      assert NoRepeats(events[..n]) + [] == NoRepeats(events[..n]);
    }
  }

  lemma {:induction false} StoredAtOnce(states: seq<Serving>, events: seq<Event>, n: nat)
    requires |states| == |events| + 1 && Good(states[0].persisted) && Settled(states[0].persisted) && n <= |events|
    requires forall i {:trigger events[i]} :: 0 <= i < |events| ==> StoresAtOnce(states[i], events[i], states[i + 1])
    ensures Good(states[n].persisted) && Settled(states[n].persisted)
    ensures Virtual(states[n].persisted) == Replay(Virtual(states[0].persisted), NoRepeats(events[..n]))
  {
    if n == 0 {
      assert events[..0] == [];
    } else {
      StoredAtOnce(states, events, n - 1);
      assert StoresAtOnce(states[n - 1], events[n - 1], states[n]);
      NoRepeatsNext(Virtual(states[0].persisted), events, n - 1);
    }
  }

  /**
  Over any run in which nothing fails outside of the program, from a meeting with nothing pending: the journal is not
  used, no submission raises or is journaled, and the database alone holds the fold of all windows but repeats.
  */
  lemma FaultlessRunStoresAll(states: seq<Serving>, events: seq<Event>)
    requires IsRun(states, events) && NothingFails(events)
    requires Good(states[0].persisted) && Settled(states[0].persisted)
    ensures forall i :: 0 <= i < |events| && events[i].Submitted? ==>
              events[i].outcome.Deduplicated? || events[i].outcome.Stored?
    ensures var start, end := states[0].persisted, states[|events|].persisted;
            && end.db.rows == Replay(start.db.rows, NoRepeats(events))
            && (end.journal == NoJournal || end.journal == Readable([]))
  {
    forall i | 0 <= i < |events| ensures StoresAtOnce(states[i], events[i], states[i + 1]) {
      StepStoresAtOnce(states[i], events[i], states[i + 1]);
    }
    forall i | 0 <= i < |events| && events[i].Submitted?
      ensures events[i].outcome.Deduplicated? || events[i].outcome.Stored?
    {
      StoredAtOnce(states, events, i);
      FaultlessIsStored(states[i], events[i], states[i + 1]);
    }
    StoredAtOnce(states, events, |events|);
    assert events[..|events|] == events;
  }

  /** Only a failing disk keeps a window from being stored or journaled: while it works, no submission raises. */
  lemma WorkingDiskNeverRaises(s: Serving, e: Event, s': Serving)
    requires Good(s.persisted) && s.persisted.journal.Readable? && RunStep(s, e, s')
    requires e.Submitted? && FileFailed !in e.calls
    ensures !e.outcome.Raised?
  {
  }

  // ---------- deduplication ----------

  /** Skipping a repeat is harmless while the stored window it repeats is the last one taken. */
  lemma RepeatOfLastTakenIsHarmless(initial: Rows, taken: seq<Window>, w: Window)
    requires taken != [] && taken[|taken| - 1].segments == w.segments
    ensures Apply(Replay(initial, taken), w) == Replay(initial, taken)
  {
    var last := taken[|taken| - 1];
    var before := Replay(initial, taken[..|taken| - 1]);
    assert Apply(before, last) == Apply(before, w);
    ApplyTwice(before, w);
  }

  predicate Stores(e: Event) {
    e.Submitted? && e.outcome.Stored?
  }

  /** The signature moves only where a window is stored, and is forgotten only by a restart. */
  predicate Remembers(last: Option<Signature>, e: Event, last': Option<Signature>) {
    last'.Some? ==> !e.Restarted? && if Stores(e) then last' == Some(SignatureOf(e.window)) else last' == last
  }

  lemma StepRemembers(s: Serving, e: Event, s': Serving)
    requires RunStep(s, e, s')
    ensures Remembers(s.last, e, s'.last)
  {
  }

  lemma RunRemembers(states: seq<Serving>, events: seq<Event>)
    requires IsRun(states, events)
    ensures forall i {:trigger events[i]} :: 0 <= i < |events| ==> Remembers(states[i].last, events[i], states[i + 1].last)
  {
    forall i | 0 <= i < |events| ensures Remembers(states[i].last, events[i], states[i + 1].last) {
      StepRemembers(states[i], events[i], states[i + 1]);
    }
  }

  /** The signature remembered is that of the last stored window, and the process has not restarted since. */
  lemma {:induction false} LastStored(states: seq<Serving>, events: seq<Event>, j: nat) returns (i: nat)
    requires |states| == |events| + 1 && j <= |events| && states[0].last == None && states[j].last.Some?
    requires forall i {:trigger events[i]} ::
               0 <= i < |events| ==> Remembers(states[i].last, events[i], states[i + 1].last)
    ensures i < j && Stores(events[i]) && states[j].last == Some(SignatureOf(events[i].window))
    ensures forall k :: i < k < j ==> !Stores(events[k]) && !events[k].Restarted?
  {
    var e := events[j - 1];
    if Stores(e) {
      i := j - 1;
    } else {
      i := LastStored(states, events, j - 1);
    }
  }

  lemma SubRun(states: seq<Serving>, events: seq<Event>, i: nat, j: nat)
    requires IsRun(states, events) && Intact(events) && i <= j <= |events|
    ensures IsRun(states[i..j + 1], events[i..j]) && Intact(events[i..j])
  {
    var ss, es := states[i..j + 1], events[i..j];
    forall k | 0 <= k < |es| ensures RunStep(ss[k], es[k], ss[k + 1]) && KeepsLine(es[k]) {
      assert es[k] == events[i + k] && ss[k] == states[i + k] && ss[k + 1] == states[i + k + 1];
    }
  }

  lemma SignatureFixesSpans(v: Window, w: Window)
    requires SignatureOf(v) == SignatureOf(w)
    ensures SameSpans(v, w)
  {
    assert |SignatureOf(v).parts| == |v.segments| && |SignatureOf(w).parts| == |w.segments|;
    forall i | 0 <= i < |v.segments|
      ensures v.segments[i].id == w.segments[i].id && v.segments[i].startMs == w.segments[i].startMs
              && v.segments[i].endMs == w.segments[i].endMs
    {
      assert SignatureOf(v).parts[i] == SignatureOf(w).parts[i];
    }
  }

  lemma StoredAddsWindow(s: Serving, e: Event, s': Serving)
    requires Good(s.persisted) && RunStep(s, e, s') && Stores(e)
    ensures Good(s'.persisted) && Virtual(s'.persisted) == Apply(Virtual(s.persisted), e.window)
  {
    ReconcileIsAtomic(s.persisted, e.window, s'.persisted, e.outcome, e.wrote);
  }

  lemma SubFold(states: seq<Serving>, events: seq<Event>, i: nat, j: nat) returns (choice: seq<bool>)
    requires IsRun(states, events) && Intact(events) && i <= j <= |events| && Good(states[i].persisted)
    ensures Good(states[j].persisted) && Admissible(events[i..j], choice)
    ensures Virtual(states[j].persisted) == Replay(Virtual(states[i].persisted), Taken(events[i..j], choice))
  {
    SubRun(states, events, i, j);
    var ss, es := states[i..j + 1], events[i..j];
    assert ss[0] == states[i] && ss[|es|] == states[j];
    choice := RunRefinesFold(ss, es);
  }

  /** From a stored window on, the transcript is that window and what was taken since. */
  lemma FoldSince(states: seq<Serving>, events: seq<Event>, i: nat, j: nat) returns (choice: seq<bool>)
    requires IsRun(states, events) && Intact(events) && Good(states[0].persisted)
    requires i < j <= |events| && Stores(events[i])
    ensures Good(states[i].persisted) && Good(states[j].persisted) && Admissible(events[i + 1..j], choice)
    ensures Virtual(states[j].persisted)
            == Replay(Apply(Virtual(states[i].persisted), events[i].window), Taken(events[i + 1..j], choice))
  {
    StaysGood(states, events, i);
    StoredAddsWindow(states[i], events[i], states[i + 1]);
    choice := SubFold(states, events, i + 1, j);
  }

  lemma RepeatHarmlessIff(before: Rows, v: Window, w: Window, between: seq<Window>)
    requires SignatureOf(v) == SignatureOf(w)
    ensures var rows := Replay(Apply(before, v), between);
            && (Apply(rows, w) == rows
                <==> w.segments == [] || IsListing(LeftBy(w), rows, ReplaceFrom(w.segments)))
            && (between == [] ==> (Apply(rows, w) == rows <==> Written(v) == Written(w)))
  {
    WindowChangesNothingIff(Replay(Apply(before, v), between), w);
    SignatureFixesSpans(v, w);
    RepeatChangesNothingIff(before, v, w);
  }

  /**
  What a deduplicated window means, in any intact run. It repeats the signature of the last stored window, v; since
  then the transcript has taken the windows journaled or raised in between. Skipping it is harmless exactly when it
  is empty or the virtual transcript already reads like it; where nothing was taken in between, exactly when v wrote
  the rows it would write.
  */
  lemma SkipIsHarmlessIff(states: seq<Serving>, events: seq<Event>, j: nat, w: Window) returns (i: nat, choice: seq<bool>)
    requires IsRun(states, events) && Intact(events) && Good(states[0].persisted) && states[0].last == None
    requires j < |events| && events[j].Submitted? && events[j].window == w && events[j].outcome == Deduplicated
    ensures i < j && Stores(events[i]) && SignatureOf(events[i].window) == SignatureOf(w)
    ensures forall k :: i < k < j ==> !Stores(events[k])
    ensures Good(states[i].persisted) && Good(states[j].persisted) && Admissible(events[i + 1..j], choice)
    ensures states[j + 1].persisted == states[j].persisted
    ensures var between := Taken(events[i + 1..j], choice);
            var rows := Virtual(states[j].persisted);
            && rows == Replay(Apply(Virtual(states[i].persisted), events[i].window), between)
            && (Apply(rows, w) == rows
                <==> w.segments == [] || IsListing(LeftBy(w), rows, ReplaceFrom(w.segments)))
            && (between == [] ==> (Apply(rows, w) == rows <==> Written(events[i].window) == Written(w)))
  {
    var e := events[j];
    SkippedLeaves(states[j], e, states[j + 1]);
    RunRemembers(states, events);
    i := LastStored(states, events, j);
    choice := FoldSince(states, events, i, j);
    RepeatHarmlessIff(Virtual(states[i].persisted), events[i].window, w, Taken(events[i + 1..j], choice));
  }

  lemma SkippedLeaves(s: Serving, e: Event, s': Serving)
    requires RunStep(s, e, s') && e.Submitted? && e.outcome.Deduplicated?
    ensures s.last == Some(SignatureOf(e.window)) && s'.persisted == s.persisted
  {
  }

  lemma StoresNow(s: Serving, w: Window, receipt: Receipt)
    requires Good(s.persisted) && s.persisted.journal == Readable([]) && s.last != Some(SignatureOf(w))
    ensures var s' := Serving(s.persisted.(db := s.persisted.db.(rows := Apply(s.persisted.db.rows, w))), Some(SignatureOf(w)));
            RunStep(s, Submitted(w, Stored(receipt), Nothing, [Ran(ReconcileWindow(w))]), s')
  {
    assert RunOps(s.persisted.db, []) == Success(s.persisted.db);
    assert ReplayStep(s.persisted, s.persisted, true);
  }

  /** The calls of a replay that finishes. */
  function ReplayCalls(ops: seq<Operation>): seq<Call> {
    [Opened, Looked] + seq(|ops|, i requires 0 <= i < |ops| => Ran(ops[i])) + [Removed]
  }

  /** The file is read, the database does not answer, and the window is appended. */
  function FallbackCalls(w: Window): seq<Call> {
    [Opened, Looked, StoreFailed, Filed(ReconcileWindow(w))]
  }

  lemma JournalsNow(s: Serving, w: Window)
    requires s.persisted.journal.Readable? && s.last != Some(SignatureOf(w))
    ensures var s' := s.(persisted := s.persisted.(journal := Appended(s.persisted.journal.pending, ReconcileWindow(w))));
            RunStep(s, Submitted(w, Journaled, Whole, FallbackCalls(w)), s')
  {
    NothingReplayed(s.persisted);
    var p := s.persisted.(journal := Appended(s.persisted.journal.pending, ReconcileWindow(w)));
    assert FellBack(s.persisted, w, s.persisted, p);
  }

  /** A window is stored, another is journaled, and the first is submitted again. */
  function RepeatEvents(first: Window, second: Window, receipt: Receipt): seq<Event> {
    [Submitted(first, Stored(receipt), Nothing, [Ran(ReconcileWindow(first))]),
     Submitted(second, Journaled, Whole, FallbackCalls(second)),
     Submitted(first, Deduplicated, Nothing, [])]
  }

  lemma ThreeSteps(a: Serving, b: Serving, c: Serving, d: Serving, e: Event, f: Event, g: Event)
    requires RunStep(a, e, b) && RunStep(b, f, c) && RunStep(c, g, d)
    requires KeepsLine(e) && KeepsLine(f) && KeepsLine(g)
    ensures IsRun([a, b, c, d], [e, f, g]) && Intact([e, f, g])
  {
    var states, events := [a, b, c, d], [e, f, g];
    forall i | 0 <= i < 3 ensures RunStep(states[i], events[i], states[i + 1]) && KeepsLine(events[i]) {
      assert i == 0 || i == 1 || i == 2;
    }
  }

  /** These events are a run: the repeat is skipped whatever the second window was. */
  lemma RepeatIsSkipped(s: Serving, first: Window, second: Window, receipt: Receipt) returns (states: seq<Serving>)
    requires Good(s.persisted) && s.persisted.journal == Readable([]) && s.last == None
    requires SignatureOf(first) != SignatureOf(second) && OneLineWindow(second)
    ensures |states| == 4 && states[0] == s
    ensures IsRun(states, RepeatEvents(first, second, receipt)) && Intact(RepeatEvents(first, second, receipt))
    ensures Good(states[3].persisted)
            && Virtual(states[3].persisted) == Apply(Apply(Virtual(s.persisted), first), second)
  {
    var db := s.persisted.db.(rows := Apply(s.persisted.db.rows, first));
    var stored := Serving(Persisted(db, Readable([])), Some(SignatureOf(first)));
    var pending := stored.(persisted := Persisted(db, Appended([], ReconcileWindow(second))));
    StoresNow(s, first, receipt);
    JournalsNow(stored, second);
    AppendedWindow(stored.persisted, second);
    states := [s, stored, pending, pending];
    ThreeSteps(s, stored, pending, pending,
               RepeatEvents(first, second, receipt)[0], RepeatEvents(first, second, receipt)[1],
               RepeatEvents(first, second, receipt)[2]);
  }

  lemma OnlySegment(rows: Rows, x: Segment)
    ensures At(Apply(rows, Window(0, [x], [])), x.id) == Some(x)
  {
    var w := Window(0, [x], []);
    assert x in w.segments;
    SameMembers(w.segments);
    ApplyActsPointwise(rows, w, x.id);
  }

  /**
   Deduplication loses a window: in the run above the repeat is skipped although it would have replaced the second
   window, so that the transcript lacks it.
   */
  lemma RepeatCanBeLost(a: Segment, b: Segment, receipt: Receipt) returns (states: seq<Serving>)
    requires a.id == b.id && OneLineSegment(b)
    requires SignatureOf(Window(0, [a], [])) != SignatureOf(Window(0, [b], []))
    ensures var first, second := Window(0, [a], []), Window(0, [b], []);
            && |states| == 4 && states[0] == Serving(Persisted(Db(true, Recording, map[]), Readable([])), None)
            && IsRun(states, RepeatEvents(first, second, receipt))
            && Good(states[3].persisted)
            && Apply(Virtual(states[3].persisted), first) != Virtual(states[3].persisted)
  {
    var first, second := Window(0, [a], []), Window(0, [b], []);
    var start := Serving(Persisted(Db(true, Recording, map[]), Readable([])), None);
    states := RepeatIsSkipped(start, first, second, receipt);
    var rows := Virtual(states[3].persisted);
    OnlySegment(Apply(Virtual(start.persisted), first), b);
    OnlySegment(rows, a);
    assert a != b;
  }

  /** A window that differs only in order, translation or language carries the same signature. */
  lemma SignatureIgnoresTranslation(w: Window, v: Window)
    requires w.sourceEpoch == v.sourceEpoch && |w.segments| == |v.segments|
    ensures SignatureOf(w) == SignatureOf(v) <==>
            forall i :: 0 <= i < |w.segments| ==>
              v.segments[i] == w.segments[i].(order := v.segments[i].order,
                                              sourceEpoch := v.segments[i].sourceEpoch,
                                              translation := v.segments[i].translation,
                                              detectedLanguage := v.segments[i].detectedLanguage)
  {
    if SignatureOf(w) == SignatureOf(v) {
      forall i | 0 <= i < |w.segments|
        ensures v.segments[i] == w.segments[i].(order := v.segments[i].order,
                                                sourceEpoch := v.segments[i].sourceEpoch,
                                                translation := v.segments[i].translation,
                                                detectedLanguage := v.segments[i].detectedLanguage)
      {
        assert SignatureOf(w).parts[i] == SignatureOf(v).parts[i];
      }
    }
  }

  // ---------- finalisation ----------

  /** A finalisation that returns has sealed the virtual transcript under the requested status. */
  lemma FinalizeSeals(s: Persisted, target: Status, s': Persisted, log: SealLog)
    requires Good(s) && FinalizeStep(s, target, s', true, log)
    ensures target == Completed || target == Interrupted
    ensures s'.db.status == target && s'.db.rows == Renumber(Virtual(s))
  {
    var m :| ReplayStep(s, m, true) && SealedAfter(m, target, s', true, log);
    var p :| SealedFrom(m, target, p, s', true, log);
    ReplayKeepsVirtual(s, m, true);
  }

  /** While nothing fails, a finalisation returns, with the transcript sealed and nothing left in the journal. */
  lemma FaultlessFinalizes(s: Persisted, target: Status, s': Persisted, ok: bool, log: SealLog)
    requires Good(s) && Final(target) && FinalizeStep(s, target, s', ok, log) && Clean(log.All())
    ensures ok && s'.db == s.db.(status := target, rows := Renumber(Virtual(s)))
    ensures s'.journal == if s.journal.NoJournal? then NoJournal else Readable([])
  {
    assert forall c :: c in log.replay || c in log.ahead || c in log.seal || c in log.removal ==> c in log.All();
    FaultlessReplayEmpties(s);
    if log.reached {
      var m :| ReplayStep(s, m, true) && SealedAfter(m, target, s', ok, log);
    var p :| SealedFrom(m, target, p, s', ok, log);
      ReplayKeepsVirtual(s, m, true);
    }
  }

  /** Where the disk takes both appends, a failing database leaves exactly them, or them and the sealed rows. */
  lemma WriteAheadIsWhole(s: Persisted, target: Status, s': Persisted, log: SealLog)
    requires Good(s) && s.journal.Readable? && FinalizeStep(s, target, s', false, log)
    requires log.reached && FileFailed !in log.ahead
    ensures s'.journal == Readable([FinalizeTranscript(Completed), SetStatus(target)])
  {
    var m :| ReplayStep(s, m, true) && SealedAfter(m, target, s', false, log);
    var p :| SealedFrom(m, target, p, s', false, log);
    assert [] + [FinalizeTranscript(Completed), SetStatus(target)] == [FinalizeTranscript(Completed), SetStatus(target)];
  }

  /** On the way to being sealed: still live with the write-ahead pending, or sealed. */
  predicate Sealing(s: Persisted, rows: Rows, target: Status) {
    && s.db.present
    && s.journal.Readable?
    && if Live(s.db.status) then
         && s.db.rows == rows
         && (|| s.journal.pending == [FinalizeTranscript(Completed)]
             || s.journal.pending == [FinalizeTranscript(Completed), SetStatus(target)])
       else
         s.db.rows == Renumber(rows) && (s.db.status == Completed || s.db.status == target)
  }

  predicate WrittenAhead(journal: Journal) {
    journal.Readable? && exists op :: op in journal.pending && op.FinalizeTranscript?
  }

  lemma NothingWrittenAhead(s: Persisted)
    requires Good(s)
    ensures !WrittenAhead(s.journal)
  {
  }

  lemma WrittenAheadOfNothing(journal: Journal, target: Status, failed: bool, p: Journal)
    requires journal == NoJournal || journal == Readable([])
    requires Prewritten(journal, target, failed, p) && WrittenAhead(p)
    ensures p == Readable([FinalizeTranscript(Completed)])
            || p == Readable([FinalizeTranscript(Completed), SetStatus(target)])
  {
    assert [] + [FinalizeTranscript(Completed)] == [FinalizeTranscript(Completed)];
  }

  lemma FailedSealLeavesSealing(m: Persisted, target: Status, p: Journal, s': Persisted, log: SealLog)
    requires Good(m) && (m.journal == NoJournal || m.journal == Readable([]))
    requires target == Completed || target == Interrupted
    requires SealedFrom(m, target, p, s', false, log) && WrittenAhead(s'.journal)
    ensures Sealing(s', m.db.rows, target) && (!Live(s'.db.status) ==> s'.db.status == target)
  {
    assert s'.journal == p;
    WrittenAheadOfNothing(m.journal, target, FileFailed in log.ahead, p);
  }

  /**
  A finalisation that raises after its write-ahead leaves the meeting on the way to being sealed; where its call had
  committed, under the requested status.
  */
  lemma FinalizeLeavesSealing(s: Persisted, target: Status, s': Persisted, log: SealLog)
    requires Good(s) && FinalizeStep(s, target, s', false, log)
    requires target == Completed || target == Interrupted
    requires WrittenAhead(s'.journal)
    ensures Sealing(s', Virtual(s), target) && (!Live(s'.db.status) ==> s'.db.status == target)
  {
    if !log.reached {
      ReplayKeepsVirtual(s, s', false);
      NothingWrittenAhead(s');
    } else {
      var m :| ReplayStep(s, m, true) && SealedAfter(m, target, s', false, log);
    var p :| SealedFrom(m, target, p, s', false, log);
      ReplayKeepsVirtual(s, m, true);
      FailedSealLeavesSealing(m, target, p, s', log);
    }
  }

  lemma RunSealing(db: Db, target: Status)
    requires db.present && Live(db.status) && (target == Completed || target == Interrupted)
    ensures var sealed := db.(status := Completed, rows := Renumber(db.rows));
            && RunOps(db, []) == Success(db)
            && RunOps(db, [FinalizeTranscript(Completed)]) == Success(sealed)
            && RunOps(db, [FinalizeTranscript(Completed), SetStatus(target)]) == Success(sealed.(status := target))
  {
    var f, t := FinalizeTranscript(Completed), SetStatus(target);
    assert [f][..0] == [] && [f, t][..1] == [f];
  }

  lemma RunSealingPrefix(db: Db, target: Status, ops: seq<Operation>, k: nat)
    requires db.present && Live(db.status) && (target == Completed || target == Interrupted)
    requires ops == [FinalizeTranscript(Completed)] || ops == [FinalizeTranscript(Completed), SetStatus(target)]
    requires k <= |ops|
    ensures var sealed := db.(status := Completed, rows := Renumber(db.rows));
            RunOps(db, ops[..k]) == Success(if k == 0 then db else if k == 1 then sealed else sealed.(status := target))
  {
    RunSealing(db, target);
    assert ops[..k] == if k == 0 then [] else if k == 1 then [FinalizeTranscript(Completed)]
                       else [FinalizeTranscript(Completed), SetStatus(target)];
  }

  /** Every replay attempt keeps the meeting on the way to being sealed; one that finishes has sealed it. */
  lemma ReplayKeepsSealing(s: Persisted, s': Persisted, rows: Rows, target: Status, ok: bool)
    requires Sealing(s, rows, target) && (target == Completed || target == Interrupted)
    requires ReplayStep(s, s', ok)
    ensures Sealing(s', rows, target)
    ensures ok ==> !Live(s'.db.status)
  {
    var ops := s.journal.pending;
    if Live(s.db.status) {
      if ok {
        RunSealingPrefix(s.db, target, ops, |ops|);
        assert ops[..|ops|] == ops;
      } else {
        var k :| 0 <= k <= |ops| && RunOps(s.db, ops[..k]) == Success(s'.db);
        RunSealingPrefix(s.db, target, ops, k);
      }
    }
  }

  /** Successive replay attempts, each of which finishes or not. */
  ghost predicate Attempts(states: seq<Persisted>, finished: seq<bool>) {
    && |states| == |finished| + 1
    && forall i {:trigger finished[i]} :: 0 <= i < |finished| ==> ReplayStep(states[i], states[i + 1], finished[i])
  }

  /** However often the replay is interrupted, once one attempt finishes the sealed transcript is the right one. */
  lemma {:induction false} RecoverySeals(states: seq<Persisted>, finished: seq<bool>, rows: Rows, target: Status)
    requires Attempts(states, finished) && Sealing(states[0], rows, target)
    requires target == Completed || target == Interrupted
    requires exists i :: 0 <= i < |finished| && finished[i]
    ensures var end := states[|finished|];
            end.db.rows == Renumber(rows) && (end.db.status == Completed || end.db.status == target)
  {
    var n := |finished| - 1;
    SealingThroughout(states[..n + 1], finished[..n], rows, target);
    ReplayKeepsSealing(states[n], states[n + 1], rows, target, finished[n]);
    if !finished[n] {
      var i :| 0 <= i < |finished| && finished[i];
      assert finished[..n][i];
      RecoverySeals(states[..n + 1], finished[..n], rows, target);
    }
  }

  lemma {:induction false} SealingThroughout(states: seq<Persisted>, finished: seq<bool>, rows: Rows, target: Status)
    requires Attempts(states, finished) && Sealing(states[0], rows, target)
    requires target == Completed || target == Interrupted
    ensures Sealing(states[|finished|], rows, target)
  {
    if finished != [] {
      var n := |finished| - 1;
      SealingThroughout(states[..n + 1], finished[..n], rows, target);
      ReplayKeepsSealing(states[n], states[n + 1], rows, target, finished[n]);
    }
  }

  /** The attempt sealed the live meeting, the first pending operation, and failed before or at the second. */
  ghost predicate StoppedAfterSealing(s: Persisted, s': Persisted, ok: bool) {
    && !ok && Live(s.db.status)
    && s.journal.Readable? && s.journal.pending != []
    && RunOps(s.db, s.journal.pending[..1]) == Success(s'.db)
  }

  /** One attempt on a request for Interrupted, ops having been written ahead; stopped: it failed after the sealing. */
  predicate Attempted(s: Persisted, s': Persisted, ops: seq<Operation>, ok: bool, stopped: bool) {
    s.db.present && s.journal.Readable? ==>
      && s'.db.present && s'.journal.Readable?
      && (Live(s.db.status) && s.journal.pending == ops ==>
            if Live(s'.db.status) then s' == s && !ok && !stopped
            else s'.db.status == if |ops| == 2 && !stopped then Interrupted else Completed)
      && (!Live(s.db.status) ==> s'.db == s.db && !stopped)
  }

  predicate AheadOf(ops: seq<Operation>, target: Status) {
    ops == [FinalizeTranscript(Completed)] || ops == [FinalizeTranscript(Completed), SetStatus(target)]
  }

  lemma LiveAttempt(s: Persisted, s': Persisted, ok: bool)
    requires s.db.present && Live(s.db.status) && s.journal.Readable? && AheadOf(s.journal.pending, Interrupted)
    requires ReplayStep(s, s', ok)
    ensures Attempted(s, s', s.journal.pending, ok, StoppedAfterSealing(s, s', ok))
  {
    var ops := s.journal.pending;
    RunSealingPrefix(s.db, Interrupted, ops, 1);
    if ok {
      RunSealingPrefix(s.db, Interrupted, ops, |ops|);
      assert ops[..|ops|] == ops;
    } else {
      var k :| 0 <= k <= |ops| && RunOps(s.db, ops[..k]) == Success(s'.db);
      RunSealingPrefix(s.db, Interrupted, ops, k);
    }
  }

  lemma AnyAttempt(s: Persisted, s': Persisted, ops: seq<Operation>, ok: bool)
    requires AheadOf(ops, Interrupted) && ReplayStep(s, s', ok)
    ensures Attempted(s, s', ops, ok, StoppedAfterSealing(s, s', ok))
  {
    if s.db.present && s.journal.Readable? && Live(s.db.status) && s.journal.pending == ops {
      LiveAttempt(s, s', ok);
    }
  }

  lemma {:induction false} AttemptsSettle(
      states: seq<Persisted>, finished: seq<bool>, stopped: seq<bool>, ops: seq<Operation>, n: nat)
    requires |states| == |finished| + 1 && |stopped| == |finished| && n <= |finished|
    requires states[0].db.present && Live(states[0].db.status) && states[0].journal == Readable(ops)
    requires forall i {:trigger stopped[i]} ::
               0 <= i < |finished| ==> Attempted(states[i], states[i + 1], ops, finished[i], stopped[i])
    ensures states[n].db.present && states[n].journal.Readable?
    ensures if Live(states[n].db.status) then
              states[n].journal.pending == ops && forall i :: 0 <= i < n ==> !stopped[i] && !finished[i]
            else
              states[n].db.status == if |ops| == 2 && forall i :: 0 <= i < n ==> !stopped[i] then Interrupted
                                     else Completed
  {
    if n > 0 {
      AttemptsSettle(states, finished, stopped, ops, n - 1);
      assert Attempted(states[n - 1], states[n], ops, finished[n - 1], stopped[n - 1]);
    }
  }

  lemma StoppedAttempts(states: seq<Persisted>, finished: seq<bool>, ops: seq<Operation>) returns (stopped: seq<bool>)
    requires Attempts(states, finished) && AheadOf(ops, Interrupted)
    ensures |stopped| == |finished|
    ensures forall i {:trigger stopped[i]} :: 0 <= i < |finished| ==>
              && Attempted(states[i], states[i + 1], ops, finished[i], stopped[i])
              && stopped[i] == StoppedAfterSealing(states[i], states[i + 1], finished[i])
  {
    stopped := seq(|finished|, i requires 0 <= i < |finished| =>
      StoppedAfterSealing(states[i], states[i + 1], finished[i]));
    forall i | 0 <= i < |finished| ensures Attempted(states[i], states[i + 1], ops, finished[i], stopped[i]) {
      AnyAttempt(states[i], states[i + 1], ops, finished[i]);
    }
  }

  /** The attempts as the caller saw them: none of them sealed the meeting and failed before the status. */
  ghost predicate NoneStopped(states: seq<Persisted>, finished: seq<bool>)
    requires |states| == |finished| + 1
  {
    forall i {:trigger finished[i]} :: 0 <= i < |finished| ==>
      !StoppedAfterSealing(states[i], states[i + 1], finished[i])
  }

  lemma InterruptedReached(states: seq<Persisted>, finished: seq<bool>, ops: seq<Operation>)
    requires Attempts(states, finished) && AheadOf(ops, Interrupted)
    requires states[0].db.present && Live(states[0].db.status) && states[0].journal == Readable(ops)
    requires exists i :: 0 <= i < |finished| && finished[i]
    ensures states[|finished|].db.status == if |ops| == 2 && NoneStopped(states, finished) then Interrupted else Completed
  {
    var stopped := StoppedAttempts(states, finished, ops);
    AttemptsSettle(states, finished, stopped, ops, |finished|);
    if NoneStopped(states, finished) {
      forall i | 0 <= i < |finished| ensures !stopped[i] {
        assert !StoppedAfterSealing(states[i], states[i + 1], finished[i]);
      }
    } else {
      var i :| 0 <= i < |finished| && StoppedAfterSealing(states[i], states[i + 1], finished[i]);
      assert stopped[i];
    }
  }

  /**
   The requested status, unlike the transcript, does not always survive. Over any attempts of which one finishes,
   from any state the write-ahead of a live meeting may have left, it is reached exactly when it is Completed, or both
   operations had been written ahead and no attempt sealed the transcript and failed before the status.
   */
  lemma RecoveredStatus(states: seq<Persisted>, finished: seq<bool>, rows: Rows, target: Status)
    requires Attempts(states, finished) && Sealing(states[0], rows, target) && Live(states[0].db.status)
    requires target == Completed || target == Interrupted
    requires exists i :: 0 <= i < |finished| && finished[i]
    ensures states[|finished|].db.status == target
            <==> || target == Completed
                 || (&& states[0].journal.pending == [FinalizeTranscript(Completed), SetStatus(target)]
                     && NoneStopped(states, finished))
  {
    if target == Completed {
      RecoverySeals(states, finished, rows, target);
    } else {
      InterruptedReached(states, finished, states[0].journal.pending);
    }
  }

  lemma EndedKeepsStatus(s: Persisted, s': Persisted, ok: bool)
    requires s.db.present && !Live(s.db.status) && s.journal.Readable? && ReplayStep(s, s', ok)
    ensures s'.db == s.db && s'.journal.Readable?
  {
  }

  lemma {:induction false} EndedStays(states: seq<Persisted>, finished: seq<bool>, n: nat)
    requires Attempts(states, finished) && n <= |finished|
    requires states[0].db.present && !Live(states[0].db.status) && states[0].journal.Readable?
    ensures states[n].db == states[0].db && states[n].journal.Readable?
  {
    if n > 0 {
      EndedStays(states, finished, n - 1);
      EndedKeepsStatus(states[n - 1], states[n], finished[n - 1]);
    }
  }

  /**
   The same from the finalisation on: it raised after its write-ahead, and a replay has finished since. The meeting
   has the requested status exactly when the call had committed, or under the condition of RecoveredStatus.
   */
  lemma StatusAfterFailure(
      s: Persisted, states: seq<Persisted>, finished: seq<bool>, target: Status, log: SealLog)
    requires Good(s) && Attempts(states, finished) && FinalizeStep(s, target, states[0], false, log)
    requires target == Completed || target == Interrupted
    requires WrittenAhead(states[0].journal)
    requires exists i :: 0 <= i < |finished| && finished[i]
    ensures states[|finished|].db.rows == Renumber(Virtual(s))
    ensures states[|finished|].db.status == target
            <==> || target == Completed
                 || !Live(states[0].db.status)
                 || (&& states[0].journal.pending == [FinalizeTranscript(Completed), SetStatus(target)]
                     && NoneStopped(states, finished))
  {
    FinalizeLeavesSealing(s, target, states[0], log);
    RecoverySeals(states, finished, Virtual(s), target);
    if Live(states[0].db.status) {
      RecoveredStatus(states, finished, Virtual(s), target);
    } else {
      EndedStays(states, finished, |finished|);
    }
  }

  /** It happens: an attempt seals and stops, and the next one finds the meeting ended and drops the status. */
  lemma StatusCanBeLost(s: Persisted) returns (m: Persisted, s': Persisted)
    requires s.db.present && Live(s.db.status)
    requires s.journal == Readable([FinalizeTranscript(Completed), SetStatus(Interrupted)])
    ensures ReplayStep(s, m, false) && StoppedAfterSealing(s, m, false) && ReplayStep(m, s', true)
    ensures s'.db.status == Completed && s'.journal == Readable([])
  {
    var ops := s.journal.pending;
    m := s.(db := s.db.(status := Completed, rows := Renumber(s.db.rows)));
    RunSealingPrefix(s.db, Interrupted, ops, 1);
    assert RanPrefix(s.db, ops, m.db);
    s' := m.(journal := Readable([]));
  }

  /** The second append and the database call fail. */
  function HalfAhead(replay: seq<Call>): SealLog {
    SealLog(true, replay, [Filed(FinalizeTranscript(Completed)), Filed(SetStatus(Interrupted)), FileFailed],
            [Ran(FinalizeTranscript(Interrupted)), StoreFailed], [])
  }

  lemma HalfAheadSeals(m: Persisted, replay: seq<Call>)
    requires m.journal == Readable([])
    ensures SealedAfter(m, Interrupted, m.(journal := Readable([FinalizeTranscript(Completed)])), false, HalfAhead(replay))
  {
    var f := m.(journal := Readable([FinalizeTranscript(Completed)]));
    assert [] + [FinalizeTranscript(Completed)] == [FinalizeTranscript(Completed)];
    assert SealedFrom(m, Interrupted, f.journal, f, false, HalfAhead(replay));
  }

  /**
   It happens without any interrupted replay, too: of the write-ahead only the sealing reached the file, the database
   call failed, and one complete replay seals the meeting as Completed.
   */
  lemma HalfWrittenAheadLosesStatus(s: Persisted) returns (f: Persisted, e: Persisted, log: SealLog)
    requires Good(s) && s.journal.Readable?
    ensures FinalizeStep(s, Interrupted, f, false, log) && InOrder(log, Interrupted, true, false)
    ensures Sealing(f, Virtual(s), Interrupted)
    ensures ReplayStep(f, e, true) && e.db.status == Completed
  {
    var m := Persisted(s.db.(rows := Virtual(s)), Readable([]));
    RunWindows(s.db, s.journal.pending);
    assert ReplayStep(s, m, true);
    f := m.(journal := Readable([FinalizeTranscript(Completed)]));
    log := HalfAhead(ReplayCalls(s.journal.pending));
    HalfAheadSeals(m, ReplayCalls(s.journal.pending));
    RunSealing(f.db, Interrupted);
    e := Persisted(f.db.(status := Completed, rows := Renumber(f.db.rows)), Readable([]));
  }
}
