/**
The meeting row and its transcript rows in the database. Every call runs in one transaction and may fail
before the transaction starts or after it was committed.
*/
module MeetingRepository {
  import opened Wrappers
  import opened Transcript

  datatype Status = Recording | Finalizing | Completed | Interrupted | StorageError

  /** The statuses in which windows are accepted. */
  predicate Live(status: Status) {
    status == Recording || status == Finalizing
  }

  /** The statuses a meeting may be sealed under. */
  predicate Final(status: Status) {
    status == Completed || status == Interrupted
  }

  /** The lifecycle transitions that set_status admits. */
  predicate Allowed(current: Status, target: Status) {
    match current
    case Recording => target != Completed
    case Finalizing => target != Recording
    case Completed => target == Completed || target == Interrupted || target == StorageError
    case Interrupted => target == Interrupted
    case StorageError => target == StorageError
  }

  datatype Fault = NotFound | Conflict | InvalidStatus | Unavailable | JournalFault

  /** What the database knows of one meeting; present is false when there is no such meeting. */
  datatype Db = Db(present: bool, status: Status, rows: Rows)

  datatype Operation =
    | ReconcileWindow(window: Window)
    | SetStatus(status: Status)
    | FinalizeTranscript(finalStatus: Status)
    | Unsupported

  /** The committed effect of one operation, or the reason it is refused. */
  function Execute(db: Db, op: Operation): Result<Db, Fault> {
    match op
    case ReconcileWindow(w) =>
      if !db.present then Failure(NotFound)
      else if !Live(db.status) then Failure(Conflict)
      else Success(db.(rows := Apply(db.rows, w)))
    case SetStatus(target) =>
      if !db.present then Failure(NotFound)
      else if !Allowed(db.status, target) then Failure(Conflict)
      else Success(db.(status := target))
    case FinalizeTranscript(target) =>
      if !Final(target) then Failure(InvalidStatus)
      else if !db.present then Failure(NotFound)
      else if db.status == target then Success(db)
      else if !Live(db.status) then Failure(Conflict)
      else Success(db.(status := target, rows := Renumber(db.rows)))
    case Unsupported => Failure(JournalFault)
  }

  /** A call that returns has committed; a call that raises has committed entirely or not at all. */
  predicate CallOutcome(db: Db, op: Operation, db': Db, ok: bool) {
    if ok then Execute(db, op) == Success(db')
    else db' == db || Execute(db, op) == Success(db')
  }

  /** The moves of a meeting's status, as the table of the repository lists them. */
  lemma StatusMoves(db: Db, target: Status)
    ensures Execute(db, SetStatus(target)).Success?
            <==> db.present && (db.status, target) in {
              (Recording, Recording), (Recording, Finalizing), (Recording, Interrupted), (Recording, StorageError),
              (Finalizing, Finalizing), (Finalizing, Completed), (Finalizing, Interrupted), (Finalizing, StorageError),
              (Completed, Completed), (Completed, Interrupted), (Completed, StorageError),
              (Interrupted, Interrupted), (StorageError, StorageError)}
  {
  }

  /** States of the database with one call between each and the next, whether it returned or raised. */
  predicate IsHistory(dbs: seq<Db>, ops: seq<Operation>, oks: seq<bool>) {
    && |dbs| == |ops| + 1 && |oks| == |ops|
    && forall i :: 0 <= i < |ops| ==> CallOutcome(dbs[i], ops[i], dbs[i + 1], oks[i])
  }

  lemma CallKeepsEnd(db: Db, op: Operation, db': Db, ok: bool)
    requires CallOutcome(db, op, db', ok)
    ensures !Live(db.status) ==> !Live(db'.status) && db'.rows == db.rows
    ensures db.status == Interrupted || db.status == StorageError ==> db'.status == db.status
    ensures db.status != Recording ==> db'.status != Recording
  {
  }

  /**
  Over any calls in any order: a meeting that has ended keeps its transcript and is never live again, one interrupted
  or out of storage keeps its status, and recording never comes back.
  */
  lemma {:induction false} EndedStaysEnded(dbs: seq<Db>, ops: seq<Operation>, oks: seq<bool>, i: nat, j: nat)
    requires IsHistory(dbs, ops, oks) && i <= j < |dbs|
    ensures !Live(dbs[i].status) ==> !Live(dbs[j].status) && dbs[j].rows == dbs[i].rows
    ensures dbs[i].status == Interrupted || dbs[i].status == StorageError ==> dbs[j].status == dbs[i].status
    ensures dbs[i].status != Recording ==> dbs[j].status != Recording
    decreases j
  {
    if i < j {
      EndedStaysEnded(dbs, ops, oks, i, j - 1);
      CallKeepsEnd(dbs[j - 1], ops[j - 1], dbs[j], oks[j - 1]);
    }
  }

  // ---------- the world outside ----------

  /** A call to the database or to the journal file, or a failure in the one before it that is not the program's. */
  datatype Call =
    | Looked                // the status was read
    | Ran(op: Operation)    // one transaction
    | Opened                // the file was read for a replay
    | Filed(op: Operation)  // an append to the file
    | Removed               // the file was deleted
    | StoreFailed
    | FileFailed

  class World {
    /** Everything called, and every failure, in order. */
    ghost var calls: seq<Call>

    constructor ()
      ensures calls == []
    {
      calls := [];
    }

    ghost method Log(call: Call)
      requires call != StoreFailed && call != FileFailed
      modifies this
      ensures calls == old(calls) + [call]
    {
      calls := calls + [call];
    }

    /** Whether the database, or the answer to a commit, fails at this point. */
    method StoreFails() returns (failed: bool)
      modifies this
      ensures calls == if failed then old(calls) + [StoreFailed] else old(calls)
    {
      failed := *;
      calls := if failed then calls + [StoreFailed] else calls;
    }

    /** Begin a call to the database; it may fail at once. */
    method CallStore(call: Call) returns (failed: bool)
      requires call.Looked? || call.Ran?
      modifies this
      ensures calls == old(calls) + OnStore(call, failed)
    {
      Log(call);
      failed := StoreFails();
      assert old(calls) + [call] + [StoreFailed] == old(calls) + [call, StoreFailed];
    }

    /** Begin a call to the file; it may fail at once. */
    method CallFile(call: Call) returns (failed: bool)
      requires call.Opened? || call.Filed? || call.Removed?
      modifies this
      ensures calls == old(calls) + OnFile(call, failed)
    {
      Log(call);
      failed := FileFails();
      assert old(calls) + [call] + [FileFailed] == old(calls) + [call, FileFailed];
    }

    /** Whether the disk fails at this point. */
    method FileFails() returns (failed: bool)
      modifies this
      ensures calls == if failed then old(calls) + [FileFailed] else old(calls)
    {
      failed := *;
      calls := if failed then calls + [FileFailed] else calls;
    }
  }

  function OnStore(call: Call, failed: bool): seq<Call> {
    if failed then [call, StoreFailed] else [call]
  }

  function OnFile(call: Call, failed: bool): seq<Call> {
    if failed then [call, FileFailed] else [call]
  }

  /** Nothing failed outside of the program. */
  predicate Clean(calls: seq<Call>) {
    StoreFailed !in calls && FileFailed !in calls
  }

  lemma AfterAll(calls: seq<Call>, call: Call)
    ensures calls + OnStore(call, false) + [StoreFailed] == calls + OnStore(call, true)
    ensures calls + OnFile(call, false) + [FileFailed] == calls + OnFile(call, true)
  {
  }

  /** How a transaction ends: a failure outside leaves it done or not; else it does what its operation says. */
  predicate Transacted(db: Db, op: Operation, db': Db, error: Option<Fault>, failed: bool) {
    && CallOutcome(db, op, db', error.None?)
    && if failed then error == Some(Unavailable)
       else
         match Execute(db, op)
         case Success(d) => db' == d && error == None
         case Failure(f) => db' == db && error == Some(f)
  }

  function ErrorOf<T>(r: Result<T, Fault>): Option<Fault> {
    match r
    case Success(_) => None
    case Failure(f) => Some(f)
  }

  // ---------- the store ----------

  datatype Receipt = Receipt(
    transcriptRevision: nat,
    contentRevision: nat,
    replaceFromMs: nat,
    segments: seq<Segment>)

  function ReceiptFor(w: Window, transcriptRevision: nat, contentRevision: nat): Receipt {
    Receipt(transcriptRevision, contentRevision, ReplaceFrom(w.segments), SortSegments(w.segments))
  }

  /** Both revisions rise by one together, or both stay. */
  predicate RevisionsFollow(transcript: nat, transcript': nat, content: nat, content': nat) {
    transcript' - transcript == content' - content && transcript <= transcript' <= transcript + 1
  }

  class MeetingStore {
    const present: bool
    const world: World
    var status: Status
    var rows: Rows
    var transcriptRevision: nat
    var contentRevision: nat

    function View(): Db
      reads this
    {
      Db(present, status, rows)
    }

    constructor (present: bool, world: World)
      ensures View() == Db(present, Recording, map[]) && this.world == world
      ensures transcriptRevision == 0 && contentRevision == 0
    {
      this.present, this.world := present, world;
      status := Recording;
      rows := map[];
      transcriptRevision := 0;
      contentRevision := 0;
    }

    method GetMeeting() returns (r: Result<Option<Status>, Fault>)
      modifies world
      ensures world.calls == old(world.calls) + OnStore(Looked, r.Failure?)
      ensures r.Success? ==> r.value == if present then Some(status) else None
      ensures r.Failure? ==> r.error == Unavailable
    {
      var down := world.CallStore(Looked);
      if down {
        return Failure(Unavailable);
      }
      return Success(if present then Some(status) else None);
    }

    /** Rows ending at or after fromMs, in key order; rows with equal keys may come in any order. */
    method SelectFrom(fromMs: nat) returns (listing: seq<Segment>)
      ensures IsListing(listing, rows, fromMs)
    {
      listing := [];
      var remaining := rows.Keys;
      while remaining != {}
        invariant remaining <= rows.Keys
        invariant Sorted(listing)
        invariant forall s :: s in listing ==>
                    s.id in rows && s.id !in remaining && rows[s.id] == s && s.endMs >= fromMs
        invariant forall id :: id in rows && id !in remaining && rows[id].endMs >= fromMs ==> rows[id] in listing
        invariant DistinctIds(listing)
        decreases remaining
      {
        var id :| id in remaining;
        if rows[id].endMs >= fromMs {
          InsertSorts(listing, rows[id]);
          InsertKeepsIds(listing, rows[id]);
          listing := Insert(listing, rows[id]);
        }
        remaining := remaining - {id};
      }
    }

    /** Replace the stored suffix by the window, unless it already reads like it; changed tells whether rows were written. */
    method ReplaceSuffix(w: Window) returns (changed: bool)
      requires w.segments != []
      modifies this`rows
      ensures rows == Apply(old(rows), w)
      ensures !changed ==> rows == old(rows) && AlreadyStored(old(rows), w)
      ensures AlreadyStored(old(rows), w) && StrictKeys(SortSegments(w.segments)) ==> !changed
    {
      var segments := SortSegments(w.segments);
      var replaceFromMs := ReplaceFrom(w.segments);
      var current := SelectFrom(replaceFromMs);
      ListingDecides(rows, w, current);
      if current == segments {
        FastPathChangesNothing(rows, w);
        return false;
      }
      rows := Upsert(DeleteFrom(rows, replaceFromMs), segments);
      changed := true;
    }

    /** The suffix is replaced and both revisions raised where it has to be, and the answer to the commit may be lost. */
    method CommitWindow(w: Window) returns (lost: bool)
      requires w.segments != []
      modifies this`rows, this`transcriptRevision, this`contentRevision, world
      ensures world.calls == if lost then old(world.calls) + [StoreFailed] else old(world.calls)
      ensures rows == Apply(old(rows), w)
      ensures RevisionsFollow(old(transcriptRevision), transcriptRevision, old(contentRevision), contentRevision)
      ensures transcriptRevision == old(transcriptRevision) ==> !lost && rows == old(rows) && AlreadyStored(old(rows), w)
      ensures AlreadyStored(old(rows), w) && StrictKeys(SortSegments(w.segments)) ==>
                transcriptRevision == old(transcriptRevision)
    {
      var changed := ReplaceSuffix(w);
      if !changed {
        return false;
      }
      transcriptRevision := transcriptRevision + 1;
      contentRevision := contentRevision + 1;
      lost := world.StoreFails();
    }

    /** The transaction itself, once it has begun; lost says that its commit was not answered. */
    method WriteWindow(w: Window) returns (r: Result<Receipt, Fault>, lost: bool)
      modifies this, world
      ensures world.calls == if lost then old(world.calls) + [StoreFailed] else old(world.calls)
      ensures Transacted(old(View()), ReconcileWindow(w), View(), ErrorOf(r), lost)
      ensures RevisionsFollow(old(transcriptRevision), transcriptRevision, old(contentRevision), contentRevision)
      ensures transcriptRevision == old(transcriptRevision) ==> rows == old(rows)
      ensures w.segments == [] ==> transcriptRevision == old(transcriptRevision)
      ensures r.Success? && w.segments != [] && transcriptRevision == old(transcriptRevision) ==> AlreadyStored(old(rows), w)
      ensures AlreadyStored(old(rows), w) && StrictKeys(SortSegments(w.segments)) ==>
                transcriptRevision == old(transcriptRevision)
      ensures r.Success? ==> r.value == ReceiptFor(w, transcriptRevision, contentRevision)
    {
      if !present {
        return Failure(NotFound), false;
      }
      if !Live(status) {
        return Failure(Conflict), false;
      }
      lost := false;
      if w.segments != [] {
        lost := CommitWindow(w);
      }
      r := if lost then Failure(Unavailable) else Success(ReceiptFor(w, transcriptRevision, contentRevision));
    }

    /** Commit one window. */
    method Reconcile(w: Window) returns (r: Result<Receipt, Fault>, ghost failed: bool)
      modifies this, world
      ensures world.calls == old(world.calls) + OnStore(Ran(ReconcileWindow(w)), failed)
      ensures Transacted(old(View()), ReconcileWindow(w), View(), ErrorOf(r), failed)
      ensures RevisionsFollow(old(transcriptRevision), transcriptRevision, old(contentRevision), contentRevision)
      ensures transcriptRevision == old(transcriptRevision) ==> rows == old(rows)
      ensures w.segments == [] ==> transcriptRevision == old(transcriptRevision)
      ensures r.Success? && w.segments != [] && transcriptRevision == old(transcriptRevision) ==> AlreadyStored(old(rows), w)
      ensures AlreadyStored(old(rows), w) && StrictKeys(SortSegments(w.segments)) ==>
                transcriptRevision == old(transcriptRevision)
      ensures r.Success? ==> r.value == ReceiptFor(w, transcriptRevision, contentRevision)
    {
      var down := world.CallStore(Ran(ReconcileWindow(w)));
      if down {
        return Failure(Unavailable), true;
      }
      var lost;
      r, lost := WriteWindow(w);
      failed := lost;
      if lost {
        AfterAll(old(world.calls), Ran(ReconcileWindow(w)));
      }
    }

    /** Insert the segments one by one, overwriting rows that hold the same id. */
    static method Upsert(kept: Rows, segments: seq<Segment>) returns (written: Rows)
      ensures written == UpsertAll(kept, segments)
    {
      written := kept;
      for i := 0 to |segments|
        invariant written == UpsertAll(kept, segments[..i])
      {
        assert segments[..i + 1][..i] == segments[..i];
        written := written[segments[i].id := segments[i]];
      }
      assert segments[..|segments|] == segments;
    }

    method ChangeStatus(target: Status) returns (r: Result<(), Fault>, ghost failed: bool)
      modifies this`status, world
      ensures world.calls == old(world.calls) + OnStore(Ran(SetStatus(target)), failed)
      ensures Transacted(old(View()), SetStatus(target), View(), ErrorOf(r), failed)
    {
      var down := world.CallStore(Ran(SetStatus(target)));
      if down {
        return Failure(Unavailable), true;
      }
      if !present {
        return Failure(NotFound), false;
      }
      if !Allowed(status, target) {
        return Failure(Conflict), false;
      }
      status := target;
      var lost := world.StoreFails();
      if lost {
        AfterAll(old(world.calls), Ran(SetStatus(target)));
        return Failure(Unavailable), true;
      }
      return Success(()), false;
    }

    method Finalize(target: Status) returns (r: Result<(), Fault>, ghost failed: bool)
      modifies this`status, this`rows, world
      ensures world.calls == old(world.calls) + if Final(target) then OnStore(Ran(FinalizeTranscript(target)), failed) else []
      ensures Transacted(old(View()), FinalizeTranscript(target), View(), ErrorOf(r), failed) && (failed ==> Final(target))
    {
      if !Final(target) {
        return Failure(InvalidStatus), false;
      }
      var down := world.CallStore(Ran(FinalizeTranscript(target)));
      if down {
        return Failure(Unavailable), true;
      }
      if !present {
        return Failure(NotFound), false;
      }
      if status == target {
        return Success(()), false;
      }
      if !Live(status) {
        return Failure(Conflict), false;
      }
      rows := Renumber(rows);
      status := target;
      var lost := world.StoreFails();
      if lost {
        AfterAll(old(world.calls), Ran(FinalizeTranscript(target)));
        return Failure(Unavailable), true;
      }
      return Success(()), false;
    }
  }
}
