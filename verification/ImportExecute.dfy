/** Executing an import session (pkg/usecase/import.go): one draft a snapshot case, each outcome recorded in the
    session, and the session spent. */
module ImportExecute {
  import opened Cases
  import opened CaseSpec
  import CaseShape
  import opened CaseOutcomes
  import CaseUseCase

  datatype Row = Row(title: string, description: string, assignees: seq<string>, isPrivate: bool,
                     fields: map<string, FieldValue>)

  datatype Item = Pending | Created(id: int) | Failed(why: Err)

  datatype Status = IsPending | Applied | HasFailed

  datatype Session = Session(creator: string, status: Status, hasErrors: bool, hash: string, rows: seq<Row>,
                             items: seq<Item>, failed: nat)

  datatype Outcome = SessionNotFound | InvalidState | HasErrors | SchemaStale | UpdateFailed
    | Executed(session: Session)

  // ----- The rows -----

  function DraftOf(row: Row): NewCase {
    NewCase(row.title, row.description, row.assignees, row.fields, row.isPrivate, false, "")
  }

  function ItemOf(r: Result): Item {
    if r.Done? then Created(r.record.id) else Failed(r.err)
  }

  /** Every row is tried, whatever became of the ones before it. */
  function RunRows(cfg: Config, s: Sys, rows: seq<Row>, who: Actor, ws: seq<World>): (Sys, seq<Item>)
    requires |ws| == |rows|
    decreases |rows|
  {
    if rows == [] then (s, [])
    else
      var n := |rows| - 1;
      var (s1, items) := RunRows(cfg, s, rows[..n], who, ws[..n]);
      var reply := CreateDraft(cfg, s1, DraftOf(rows[n]), who, ws[n]);
      (reply.sys, items + [ItemOf(reply.result)])
  }

  function FailedCount(items: seq<Item>): nat
    decreases |items|
  {
    if items == [] then 0 else FailedCount(items[..|items| - 1]) + if items[|items| - 1].Failed? then 1 else 0
  }

  function FailedAt(items: seq<Item>): set<int> {
    set i | 0 <= i < |items| && items[i].Failed?
  }

  lemma {:induction false} FailedCountCounts(items: seq<Item>)
    ensures FailedCount(items) == |FailedAt(items)|
    decreases |items|
  {
    if items != [] {
      var n := |items| - 1;
      FailedCountCounts(items[..n]);
      assert FailedAt(items) == FailedAt(items[..n]) + if items[n].Failed? then {n} else {};
    }
  }

  // ----- The session -----

  /** The gate of Execute. */
  function Refusal(session: Session, who: Actor, hash: string): Option<Outcome> {
    if !who.Member? || who.sub == "" || session.creator != who.sub then Some(SessionNotFound)
    else if session.status != IsPending then Some(InvalidState)
    else if session.hasErrors then Some(HasErrors)
    else if hash != session.hash then Some(SchemaStale)
    else None
  }

  function Finished(session: Session, items: seq<Item>): Session {
    var failed := FailedCount(items);
    session.(items := items, failed := failed, status := if failed > 0 then HasFailed else Applied)
  }

  /** The stored session and the case store after the call. */
  function Execute(cfg: Config, s: Sys, session: Session, who: Actor, hash: string, ws: seq<World>,
                   update: Write): (Sys, Session, Outcome)
    requires |ws| == |session.rows|
  {
    var refusal := Refusal(session, who, hash);
    if refusal == Some(SchemaStale) then (s, if update.Lost? then session else session.(hasErrors := true), SchemaStale)
    else if refusal.Some? then (s, session, refusal.value)
    else
      var (s1, items) := RunRows(cfg, s, session.rows, who, ws);
      var done := Finished(session, items);
      (s1, if update.Lost? then session else done, if update.Acked? then Executed(done) else UpdateFailed)
  }

  // ----- What the items say about the store -----

  /** The ids the session records. */
  function Recorded(items: seq<Item>): set<int> {
    set item | item in items && item.Created? :: item.id
  }

  /** The draft a row becomes: the importer's own, private when the row says so, with the row's validated fields. */
  predicate IsDraftOf(c: Case, row: Row, who: Actor, w: World) {
    c.status == Draft && c.title == row.title && c.description == row.description && c.assignees == row.assignees
    && c.isPrivate == row.isPrivate && !c.isTest && who == Member(c.reporter) && c.requestKey == ""
    && Some(c.fields) == w.validated && c.channel == "" && c.threadTS == "" && c.board == ""
  }

  /** The row's draft may be stored, and its write is acknowledged. */
  predicate GoesThrough(cfg: Config, row: Row, who: Actor, w: World) {
    who.Member? && who.sub != "" && w.validated.Some? && w.create.Acked?
    && (row.isPrivate ==> !cfg.registry.UnknownWorkspace? && !(cfg.registry.Entry? && cfg.registry.threadMode))
  }

  /** Each row has an item: a draft stored as the row said, under its own new id, exactly when it goes through, and a
      failure otherwise. Nothing stored before is touched. */
  ghost predicate Records(cfg: Config, s: Sys, t: Sys, rows: seq<Row>, items: seq<Item>, who: Actor, ws: seq<World>)
    requires |ws| == |rows|
  {
    && |items| == |rows| && s.nextId <= t.nextId
    && (forall id :: id in s.cases ==> id in t.cases && t.cases[id] == s.cases[id])
    && (forall i :: 0 <= i < |items| ==>
          if GoesThrough(cfg, rows[i], who, ws[i]) then items[i].Created? else items[i].Failed?)
    && (forall i :: 0 <= i < |items| && items[i].Created? ==>
          s.nextId <= items[i].id < t.nextId && items[i].id in t.cases
          && IsDraftOf(t.cases[items[i].id], rows[i], who, ws[i]))
    && (forall i, j :: 0 <= i < j < |items| && items[i].Created? && items[j].Created? ==> items[i].id < items[j].id)
  }

  lemma {:induction false} RecordedDraftsAreStored(cfg: Config, s: Sys, rows: seq<Row>, who: Actor, ws: seq<World>)
    requires CaseShape.WellFormed(s) && |ws| == |rows|
    ensures var (t, items) := RunRows(cfg, s, rows, who, ws);
            CaseShape.WellFormed(t) && Records(cfg, s, t, rows, items, who, ws)
    decreases |rows|
  {
    if rows != [] {
      var n := |rows| - 1;
      var (s1, items) := RunRows(cfg, s, rows[..n], who, ws[..n]);
      RecordedDraftsAreStored(cfg, s, rows[..n], who, ws[..n]);
      var reply := CreateDraft(cfg, s1, DraftOf(rows[n]), who, ws[n]);
      DraftsAreStored(cfg, s1, DraftOf(rows[n]), who, ws[n]);
      OneMoreRecord(cfg, s, s1, reply, rows, items, who, ws);
    }
  }

  lemma OneMoreRecord(cfg: Config, s: Sys, t: Sys, reply: Reply, rows: seq<Row>, items: seq<Item>, who: Actor,
                      ws: seq<World>)
    requires rows != [] && |ws| == |rows|
    requires CaseShape.WellFormed(t) && Records(cfg, s, t, rows[..|rows| - 1], items, who, ws[..|ws| - 1])
    requires DraftStored(cfg, t, reply, DraftOf(rows[|rows| - 1]), who, ws[|ws| - 1])
    ensures Records(cfg, s, reply.sys, rows, items + [ItemOf(reply.result)], who, ws)
  {
  }

  lemma RecordedIdsAreNew(cfg: Config, s: Sys, rows: seq<Row>, who: Actor, ws: seq<World>)
    requires CaseShape.WellFormed(s) && |ws| == |rows|
    ensures var (t, items) := RunRows(cfg, s, rows, who, ws);
            CaseShape.WellFormed(t) && s.nextId <= t.nextId && s.cases.Keys + Recorded(items) <= t.cases.Keys
  {
    RecordedDraftsAreStored(cfg, s, rows, who, ws);
    var (t, items) := RunRows(cfg, s, rows, who, ws);
    forall id | id in Recorded(items)
      ensures id in t.cases
    {
      var item :| item in items && item.Created? && item.id == id;
      var i :| 0 <= i < |items| && items[i] == item;
    }
  }

  /** The session records every draft the import stored exactly when no row's write was applied but reported as
      failed; such a draft is left behind under a row that reads as failed. */
  lemma {:induction false} EveryDraftIsRecordedExactlyWhen(cfg: Config, s: Sys, rows: seq<Row>, who: Actor,
                                                           ws: seq<World>)
    requires CaseShape.WellFormed(s) && |ws| == |rows|
    ensures var (t, items) := RunRows(cfg, s, rows, who, ws);
            t.cases.Keys == s.cases.Keys + Recorded(items)
            <==> forall k :: 0 <= k < |rows| ==> !LeavesDraft(cfg, DraftOf(rows[k]), who, ws[k])
    decreases |rows|
  {
    if rows != [] {
      var n := |rows| - 1;
      var (s1, items) := RunRows(cfg, s, rows[..n], who, ws[..n]);
      EveryDraftIsRecordedExactlyWhen(cfg, s, rows[..n], who, ws[..n]);
      RecordedIdsAreNew(cfg, s, rows[..n], who, ws[..n]);
      DraftsAreStored(cfg, s1, DraftOf(rows[n]), who, ws[n]);
      var reply := CreateDraft(cfg, s1, DraftOf(rows[n]), who, ws[n]);
      RecordedOneMore(items, ItemOf(reply.result));
      OneMoreKey(s.cases.Keys, s1.cases.Keys, reply.sys.cases.Keys, Recorded(items), s1.nextId,
                 LeavesDraft(cfg, DraftOf(rows[n]), who, ws[n]), reply.result.Done?);
      assert forall k :: 0 <= k < n ==> rows[..n][k] == rows[k] && ws[..n][k] == ws[k];
    }
  }

  lemma OneMoreKey(first: set<int>, before: set<int>, after: set<int>, recorded: set<int>, next: int, left: bool,
                   done: bool)
    requires first + recorded <= before && next !in before && !(left && done)
    requires after == if left || done then before + {next} else before
    ensures after == first + (if done then recorded + {next} else recorded) <==> before == first + recorded && !left
  {
    assert left ==> next in after && next !in first + recorded;
    assert forall id :: id in before ==> id in after && id != next;
    assert before <= first + recorded ==> before == first + recorded;
  }

  lemma RecordedOneMore(items: seq<Item>, item: Item)
    ensures Recorded(items + [item]) == Recorded(items) + if item.Created? then {item.id} else {}
  {
    assert forall x :: x in items + [item] <==> x in items || x == item;
    assert item in items + [item];
  }

  /** Executing a session again repeats the import exactly when the first run's final write was lost. */
  lemma RunsAgainExactlyWhen(cfg: Config, s: Sys, session: Session, who: Actor, hash: string, ws: seq<World>,
                             update: Write)
    requires |ws| == |session.rows| && Refusal(session, who, hash).None?
    ensures var (_, after, _) := Execute(cfg, s, session, who, hash, ws, update);
            Refusal(after, who, hash).None? <==> update.Lost?
  {
  }

  lemma {:induction false} NoFailuresExactlyWhen(items: seq<Item>)
    ensures FailedCount(items) == 0 <==> forall i :: 0 <= i < |items| ==> !items[i].Failed?
    decreases |items|
  {
    if items != [] {
      NoFailuresExactlyWhen(items[..|items| - 1]);
      assert forall i :: 0 <= i < |items| - 1 ==> items[..|items| - 1][i] == items[i];
    }
  }

  /** A run ends Applied exactly when every row became a draft. */
  lemma AllCreatedExactlyWhen(cfg: Config, s: Sys, rows: seq<Row>, who: Actor, ws: seq<World>)
    requires |ws| == |rows|
    ensures var items := RunRows(cfg, s, rows, who, ws).1;
            FailedCount(items) == 0 <==> forall i :: 0 <= i < |items| ==> items[i].Created?
  {
    var items := RunRows(cfg, s, rows, who, ws).1;
    NoFailuresExactlyWhen(items);
    NothingStaysPending(cfg, s, rows, who, ws);
    assert forall i :: 0 <= i < |items| ==> items[i] in items && !items[i].Pending?;
  }

  lemma {:induction false} NothingStaysPending(cfg: Config, s: Sys, rows: seq<Row>, who: Actor, ws: seq<World>)
    requires |ws| == |rows|
    ensures forall item :: item in RunRows(cfg, s, rows, who, ws).1 ==> !item.Pending?
    decreases |rows|
  {
    if rows != [] {
      NothingStaysPending(cfg, s, rows[..|rows| - 1], who, ws[..|rows| - 1]);
    }
  }

  // ----- The use case object -----

  /** What a finished session says: its items are the drafts stored, it is Applied exactly when every row became one,
      and it names all of them exactly when no row's write was applied but reported as failed. */
  ghost predicate TellsTheStore(cfg: Config, s: Sys, t: Sys, session: Session, who: Actor, ws: seq<World>)
    requires |ws| == |session.rows|
  {
    && Records(cfg, s, t, session.rows, session.items, who, ws)
    && session.failed == |FailedAt(session.items)|
    && (session.status.Applied? <==> forall i :: 0 <= i < |session.items| ==> session.items[i].Created?)
    && (t.cases.Keys == s.cases.Keys + Recorded(session.items)
        <==> forall k :: 0 <= k < |session.rows| ==> !LeavesDraft(cfg, DraftOf(session.rows[k]), who, ws[k]))
  }

  lemma FinishedTellsTheStore(cfg: Config, s: Sys, session: Session, who: Actor, ws: seq<World>)
    requires CaseShape.WellFormed(s) && |ws| == |session.rows|
    ensures var (t, items) := RunRows(cfg, s, session.rows, who, ws);
            TellsTheStore(cfg, s, t, Finished(session, items), who, ws)
  {
    var (t, items) := RunRows(cfg, s, session.rows, who, ws);
    RecordedDraftsAreStored(cfg, s, session.rows, who, ws);
    EveryDraftIsRecordedExactlyWhen(cfg, s, session.rows, who, ws);
    AllCreatedExactlyWhen(cfg, s, session.rows, who, ws);
    FailedCountCounts(items);
  }

  /** Nobody but its creator runs a session, and only a pending one without errors whose schema is unchanged; any other
      call says why and changes nothing but the error mark of a stale session. A run tells the store, and leaves the
      session open to another run exactly when its final write was lost. */
  ghost predicate ExecutesAsAsked(cfg: Config, s: Sys, session: Session, who: Actor, hash: string, ws: seq<World>,
                                  update: Write, t: Sys, stored: Session, r: Outcome)
    requires |ws| == |session.rows|
  {
    if who != Member(session.creator) || session.creator == "" then t == s && stored == session && r == SessionNotFound
    else if session.status != IsPending then t == s && stored == session && r == InvalidState
    else if session.hasErrors then t == s && stored == session && r == HasErrors
    else if hash != session.hash then
      t == s && r == SchemaStale && stored == session.(hasErrors := !update.Lost?)
    else
      && (update.Acked? <==> r.Executed?) && (!update.Acked? ==> r == UpdateFailed)
      && (update.Lost? ==> stored == session)
      && (!update.Lost? ==>
            stored == session.(items := stored.items, failed := stored.failed, status := stored.status)
            && stored.status != IsPending && TellsTheStore(cfg, s, t, stored, who, ws))
      && (r.Executed? ==> r.session == stored)
  }

  lemma ExecutionIs(cfg: Config, s: Sys, session: Session, who: Actor, hash: string, ws: seq<World>, update: Write)
    requires CaseShape.WellFormed(s) && |ws| == |session.rows|
    ensures var (t, stored, r) := Execute(cfg, s, session, who, hash, ws, update);
            ExecutesAsAsked(cfg, s, session, who, hash, ws, update, t, stored, r)
  {
    if Refusal(session, who, hash).None? {
      FinishedTellsTheStore(cfg, s, session, who, ws);
    }
  }

  class ImportUseCase {
    const caseUC: CaseUseCase.UseCase
    var stored: Session

    constructor (caseUC: CaseUseCase.UseCase, session: Session)
      requires caseUC.Valid()
      ensures Valid() && this.caseUC == caseUC && stored == session
    {
      this.caseUC, stored := caseUC, session;
    }

    ghost predicate Valid()
      reads this, caseUC
    {
      caseUC.Valid()
    }

    method ExecuteImport(who: Actor, hash: string, ws: seq<World>, update: Write) returns (r: Outcome)
      requires Valid() && |ws| == |stored.rows|
      modifies this, caseUC
      ensures Valid()
      ensures (caseUC.State(), stored, r)
              == Execute(caseUC.cfg, old(caseUC.State()), old(stored), who, hash, ws, update)
      ensures ExecutesAsAsked(caseUC.cfg, old(caseUC.State()), old(stored), who, hash, ws, update,
                              caseUC.State(), stored, r)
    {
      var session := stored;
      ExecutionIs(caseUC.cfg, caseUC.State(), session, who, hash, ws, update);
      if !who.Member? || who.sub == "" || session.creator != who.sub {
        return SessionNotFound;
      }
      if session.status != IsPending {
        return InvalidState;
      }
      if session.hasErrors {
        return HasErrors;
      }
      if hash != session.hash {
        if !update.Lost? {
          stored := session.(hasErrors := true);
        }
        return SchemaStale;
      }
      var items, failed := RunSnapshot(session.rows, who, ws);
      session := session.(items := items, failed := failed);
      session := session.(status := if failed > 0 then HasFailed else Applied);
      if !update.Lost? {
        stored := session;
      }
      r := if update.Acked? then Executed(session) else UpdateFailed;
    }

    method RunSnapshot(rows: seq<Row>, who: Actor, ws: seq<World>) returns (items: seq<Item>, failed: nat)
      requires Valid() && |ws| == |rows|
      modifies caseUC
      ensures Valid()
      ensures (caseUC.State(), items) == RunRows(caseUC.cfg, old(caseUC.State()), rows, who, ws)
      ensures failed == FailedCount(items)
      ensures Records(caseUC.cfg, old(caseUC.State()), caseUC.State(), rows, items, who, ws)
    {
      items, failed := [], 0;
      ghost var s0 := caseUC.State();
      RecordedDraftsAreStored(caseUC.cfg, s0, rows, who, ws);
      for i := 0 to |rows|
        invariant Valid()
        invariant (caseUC.State(), items) == RunRows(caseUC.cfg, s0, rows[..i], who, ws[..i])
        invariant failed == FailedCount(items)
      {
        assert rows[..i + 1][..i] == rows[..i] && ws[..i + 1][..i] == ws[..i];
        var created := caseUC.CreateDraft(DraftOf(rows[i]), who, ws[i]);
        if created.Refused? {
          items := items + [Failed(created.err)];
          failed := failed + 1;
          continue;
        }
        items := items + [Created(created.record.id)];
      }
      assert rows[..|rows|] == rows && ws[..|ws|] == ws;
    }
  }
}
