/** What a caller may rely on after one case operation: what a failed call leaves behind, and what a successful one
    lets the caller read back. */
module CaseOutcomes {
  import opened Cases
  import opened CaseSpec
  import opened CaseShape
  import CaseTrace
  import CaseReads
  import CaseRollback
  import Assignees

  // ----- A failed creation -----

  /** The stored case a request key names, when the lookup finds it. */
  function Known(s: Sys, n: NewCase, w: World): Option<Case> {
    if n.requestKey != "" && w.keyLookup then FindByKey(s.cases, n.requestKey, s.nextId) else None
  }

  /** The key names an open case that never got its channel: the call activates that one again. */
  predicate Retries(s: Sys, n: NewCase, w: World) {
    n.title != "" && Known(s, n, w).Some? && Known(s, n, w).value.status == Open && Known(s, n, w).value.channel == ""
  }

  /** The channel route gets as far as storing a new row. */
  predicate StoresRow(s: Sys, n: NewCase, who: Actor, w: World) {
    n.title != "" && Known(s, n, w).None? && w.validated.Some? && ReporterOf(who) != ""
  }

  /** The thread route gets as far as storing a new row. */
  predicate StoresThread(s: Sys, n: NewCase, monitor: string, w: World) {
    n.title != "" && Known(s, n, w).None? && w.gate && w.root.Some? && w.root.value != "" && w.threadLookup
    && FindByThread(s.cases, monitor, w.root.value, s.nextId).None? && w.validated.Some?
  }

  /** The channel was made and written to the record, although the write reports an error. */
  predicate RewritesRow(cfg: Config, c: Case, w: World) {
    cfg.slack && !cfg.ThreadMode() && w.channel.Some? && w.activate.AppliedUnacked? && Activated(c, w) != c
  }

  /** The failed call changes what is stored: a row's write was applied but reported as failed; the row of a failed
      activation could not be deleted; or a retried activation failed and took the earlier case with it, or could
      not, after its own write had gone through. */
  predicate LeavesTrace(cfg: Config, s: Sys, n: NewCase, who: Actor, w: World) {
    match RouteFor(cfg, n.isPrivate)
    case NoRoute(_) => false
    case ViaThread(monitor) => StoresThread(s, n, monitor, w) && w.create.AppliedUnacked?
    case ViaChannel =>
      if Retries(s, n, w) then !w.delete.Lost? || RewritesRow(cfg, Known(s, n, w).value, w)
      else StoresRow(s, n, who, w) && (w.create.AppliedUnacked? || (w.create.Acked? && w.delete.Lost?))
  }

  lemma ThreadRouteLeaves(cfg: Config, s: Sys, monitor: string, n: NewCase, who: Actor, w: World)
    requires WellFormed(s) && RouteFor(cfg, n.isPrivate) == ViaThread(monitor)
    requires CreateThreadMode(cfg, s, monitor, n, who, w).result.Refused?
    ensures CreateThreadMode(cfg, s, monitor, n, who, w).sys.cases == s.cases <==> !LeavesTrace(cfg, s, n, who, w)
  {
    var after := CreateThreadMode(cfg, s, monitor, n, who, w).sys.cases;
    assert s.nextId !in s.cases;
    if StoresThread(s, n, monitor, w) && w.create.AppliedUnacked? {
      assert s.nextId in after;
    }
  }

  /** What an activation that fails leaves of the row it works on. */
  lemma FailedActivationLeaves(cfg: Config, s: Sys, c: Case, w: World)
    requires c.id in s.cases && s.cases[c.id] == c && Activate(cfg, s, c, w).result.Refused?
    ensures Activate(cfg, s, c, w).sys.cases
            == if RewritesRow(cfg, c, w) then s.cases[c.id := Activated(c, w)] else s.cases
  {
  }

  lemma ChannelRouteLeaves(cfg: Config, s: Sys, n: NewCase, who: Actor, w: World)
    requires WellFormed(s) && RouteFor(cfg, n.isPrivate).ViaChannel?
    requires CreateChannelMode(cfg, s, n, who, w).result.Refused?
    ensures CreateChannelMode(cfg, s, n, who, w).sys.cases == s.cases <==> !LeavesTrace(cfg, s, n, who, w)
  {
    var after := CreateChannelMode(cfg, s, n, who, w).sys.cases;
    var k := PersistShape(cfg, s, n, Open, who, w);
    var persisted := Persist(cfg, s, n, Open, who, w);
    assert s.nextId !in s.cases;
    if persisted.result.Done? {
      var c := persisted.result.record;
      FailedActivationLeaves(cfg, persisted.sys, c, w);
      var active := Activate(cfg, persisted.sys, c, w).sys.cases;
      assert after == if w.delete.Lost? then active else active - {c.id};
      if Retries(s, n, w) {
        assert c.id in s.cases && persisted.sys == s;
      } else {
        assert c.id == s.nextId && persisted.sys.cases == s.cases[c.id := c];
        assert w.delete.Lost? ==> c.id in after;
      }
    } else if StoresRow(s, n, who, w) && w.create.AppliedUnacked? {
      assert s.nextId in after;
    }
  }

  /** A failed creation appears atomic, the store being exactly as before, if and only if it leaves no trace. */
  lemma FailedCreateIsAtomicExactlyWhen(cfg: Config, s: Sys, n: NewCase, who: Actor, w: World)
    requires WellFormed(s) && CreateCase(cfg, s, n, who, w).result.Refused?
    ensures CreateCase(cfg, s, n, who, w).sys.cases == s.cases <==> !LeavesTrace(cfg, s, n, who, w)
  {
    match RouteFor(cfg, n.isPrivate)
    case NoRoute(_) =>
    case ViaThread(monitor) => ThreadRouteLeaves(cfg, s, monitor, n, who, w);
    case ViaChannel => ChannelRouteLeaves(cfg, s, n, who, w);
  }

  /** A retried activation failed, and the deletion that follows it removes the earlier case. */
  predicate DropsKnown(cfg: Config, s: Sys, n: NewCase, who: Actor, w: World) {
    RouteFor(cfg, n.isPrivate).ViaChannel? && Retries(s, n, w) && !w.delete.Lost?
    && CreateCase(cfg, s, n, who, w).result.Refused?
  }

  lemma ThreadRouteDropsNothing(cfg: Config, s: Sys, n: NewCase, who: Actor, w: World)
    requires WellFormed(s) && !RouteFor(cfg, n.isPrivate).ViaChannel?
    ensures s.cases.Keys <= CreateCase(cfg, s, n, who, w).sys.cases.Keys
  {
  }

  lemma ChannelRouteDrops(cfg: Config, s: Sys, n: NewCase, who: Actor, w: World)
    requires WellFormed(s) && RouteFor(cfg, n.isPrivate).ViaChannel?
    ensures var r := CreateChannelMode(cfg, s, n, who, w);
            var drops := Retries(s, n, w) && !w.delete.Lost? && r.result.Refused?;
            (drops ==> Known(s, n, w).Some?)
            && forall id :: id in s.cases ==> (id in r.sys.cases <==> !(drops && id == Known(s, n, w).value.id))
  {
    var k := PersistShape(cfg, s, n, Open, who, w);
    var persisted := Persist(cfg, s, n, Open, who, w);
    if persisted.result.Done? {
      ActivateShape(cfg, persisted.sys, persisted.result.record, w);
    }
  }

  /** A creation removes a stored case in that one way only. */
  lemma OnlyAFailedRetryDrops(cfg: Config, s: Sys, n: NewCase, who: Actor, w: World)
    requires WellFormed(s)
    ensures var t := CreateCase(cfg, s, n, who, w).sys.cases;
            (DropsKnown(cfg, s, n, who, w) ==> Known(s, n, w).Some?)
            && forall id :: id in s.cases ==>
                 (id in t <==> !(DropsKnown(cfg, s, n, who, w) && id == Known(s, n, w).value.id))
  {
    if RouteFor(cfg, n.isPrivate).ViaChannel? {
      ChannelRouteDrops(cfg, s, n, who, w);
    } else {
      ThreadRouteDropsNothing(cfg, s, n, who, w);
    }
  }

  /** Every action, told by the case it is under, has its case stored. */
  predicate NoneOrphaned(actions: map<int, int>, cases: map<int, Case>) {
    forall a :: a in actions ==> actions[a] in cases
  }

  predicate OrphansKnown(cfg: Config, s: Sys, actions: map<int, int>, n: NewCase, who: Actor, w: World) {
    DropsKnown(cfg, s, n, who, w) && Known(s, n, w).Some? && exists a ::
        a in actions && actions[a] == Known(s, n, w).value.id
  }

  /** A creation leaves actions without their case exactly when a failed retry deletes an earlier case that has some:
      the deletion after a failed activation removes the record alone. */
  lemma CreationOrphansExactlyWhen(cfg: Config, s: Sys, actions: map<int, int>, n: NewCase, who: Actor, w: World)
    requires WellFormed(s) && NoneOrphaned(actions, s.cases)
    ensures NoneOrphaned(actions, CreateCase(cfg, s, n, who, w).sys.cases)
            <==> !OrphansKnown(cfg, s, actions, n, who, w)
  {
    OnlyAFailedRetryDrops(cfg, s, n, who, w);
  }

  // ----- Failed edits -----

  lemma RefusedUpdate(cfg: Config, s: Sys, id: int, p: Patch, who: Actor, w: World)
    requires UpdateCase(cfg, s, id, p, who, w).result.Refused? && !w.update.AppliedUnacked?
    ensures UpdateCase(cfg, s, id, p, who, w).sys.cases == s.cases
  {
  }

  lemma RefusedLifecycle(cfg: Config, s: Sys, id: int, board: string, who: Actor, w: World)
    requires !w.update.AppliedUnacked?
    ensures CloseCase(s, id, who, w).result.Refused? ==> CloseCase(s, id, who, w).sys == s
    ensures ReopenCase(s, id, who, w).result.Refused? ==> ReopenCase(s, id, who, w).sys == s
    ensures UpdateCaseStatus(cfg, s, id, board, who, w).result.Refused? ==>
              UpdateCaseStatus(cfg, s, id, board, who, w).sys == s
  {
  }

  lemma RefusedThread(cfg: Config, s: Sys, channel: string, ts: string, reporter: string, title: string,
                      description: string, w: World)
    requires CreateThreadBound(cfg, s, channel, ts, reporter, title, description, "", w).result.Refused?
    requires !w.create.AppliedUnacked?
    ensures CreateThreadBound(cfg, s, channel, ts, reporter, title, description, "", w).sys == s
  {
  }

  lemma RefusedRest(cfg: Config, s: Sys, call: Call)
    requires Step(cfg, s, call).result.Refused?
    requires call.op.OpCreateDraft? || call.op.OpDiscardDraft? || call.op.OpMaterialize? || call.op.OpReassign?
             || call.op.OpSyncMembers? || call.op.OpDeleteCase?
    requires !call.w.create.AppliedUnacked? && !call.w.update.AppliedUnacked? && !call.w.delete.AppliedUnacked?
    ensures Step(cfg, s, call).sys.cases == s.cases
  {
  }

  /** Any call but a creation or a submission, when it is refused and each of its writes was either acknowledged or
      lost, leaves every stored case as it was. */
  lemma RefusedEditChangesNothing(cfg: Config, s: Sys, call: Call)
    requires Step(cfg, s, call).result.Refused? && !call.op.OpCreateCase? && !call.op.OpSubmitDraft?
    requires !call.w.create.AppliedUnacked? && !call.w.update.AppliedUnacked? && !call.w.delete.AppliedUnacked?
    ensures Step(cfg, s, call).sys.cases == s.cases
  {
    match call.op
    case OpUpdateCase(id, p) => RefusedUpdate(cfg, s, id, p, call.who, call.w);
    case OpCloseCase(id) => RefusedLifecycle(cfg, s, id, "", call.who, call.w);
    case OpReopenCase(id) => RefusedLifecycle(cfg, s, id, "", call.who, call.w);
    case OpUpdateCaseStatus(id, board) => RefusedLifecycle(cfg, s, id, board, call.who, call.w);
    case OpCreateThreadBound(channel, ts, reporter, title, description) =>
      RefusedThread(cfg, s, channel, ts, reporter, title, description, call.w);
    case _ => RefusedRest(cfg, s, call);
  }

  // ----- What a call reports -----

  /** A call that succeeds hands out the record as it is stored; a removal, the record as it was. */
  ghost predicate Answers(s: Sys, r: Reply, removes: bool) {
    r.result.Done? ==>
      var c := r.result.record;
      if removes then c.id in s.cases && s.cases[c.id] == c && r.sys.cases == s.cases - {c.id}
      else c.id in r.sys.cases && r.sys.cases[c.id] == c
  }

  predicate Removes(op: Op) {
    op.OpDeleteCase? || op.OpDiscardDraft?
  }

  lemma CreationAnswers(cfg: Config, s: Sys, n: NewCase, who: Actor, w: World)
    requires WellFormed(s)
    ensures Answers(s, CreateCase(cfg, s, n, who, w), false)
  {
    if RouteFor(cfg, n.isPrivate).ViaChannel? {
      var k := PersistShape(cfg, s, n, Open, who, w);
      var persisted := Persist(cfg, s, n, Open, who, w);
      if persisted.result.Done? {
        var _ := CaseTrace.ActivateTrace(cfg, persisted.sys, persisted.result.record, w);
      }
    }
  }

  lemma LifecycleAnswers(cfg: Config, s: Sys, call: Call)
    requires WellFormed(s) && (call.op.OpCloseCase? || call.op.OpReopenCase? || call.op.OpUpdateCaseStatus?)
    ensures Answers(s, Step(cfg, s, call), false)
  {
  }

  lemma RestAnswers(cfg: Config, s: Sys, call: Call)
    requires WellFormed(s)
    requires call.op.OpMaterialize? || call.op.OpReassign? || call.op.OpSyncMembers? || call.op.OpCreateThreadBound?
             || Removes(call.op)
    ensures Answers(s, Step(cfg, s, call), Removes(call.op))
  {
  }

  /** Whatever the operation, its caller is never told of a record that is not the stored one. */
  lemma EveryAnswerIsStored(cfg: Config, s: Sys, call: Call)
    requires WellFormed(s)
    ensures Answers(s, Step(cfg, s, call), Removes(call.op))
  {
    match call.op
    case OpCreateCase(n) => CreationAnswers(cfg, s, n, call.who, call.w);
    case OpCreateDraft(n) => var k := PersistShape(cfg, s, n.(requestKey := ""), Draft, call.who, call.w);
    case OpSubmitDraft(id, patch) =>
      if SubmitDraft(cfg, s, id, patch, call.who, call.w).result.Done? {
        SubmitKeepsContent(cfg, s, id, patch, call.who, call.w);
      }
    case OpUpdateCase(id, p) =>
      if UpdateCase(cfg, s, id, p, call.who, call.w).result.Done? {
        UpdateAnswers(cfg, s, id, p, call.who, call.w);
      }
    case _ =>
      if call.op.OpCloseCase? || call.op.OpReopenCase? || call.op.OpUpdateCaseStatus? {
        LifecycleAnswers(cfg, s, call);
      } else {
        RestAnswers(cfg, s, call);
      }
  }

  lemma UpdateAnswers(cfg: Config, s: Sys, id: int, p: Patch, who: Actor, w: World)
    requires WellFormed(s)
    ensures Answers(s, UpdateCase(cfg, s, id, p, who, w), false)
  {
  }

  // ----- A new draft -----

  /** A draft as its input describes it, with the validated field values, in no channel or thread. */
  predicate IsNewDraft(c: Case, n: NewCase, who: Actor, w: World) {
    c.status == Draft && c.title == n.title && c.description == n.description && c.assignees == n.assignees
    && c.isPrivate == n.isPrivate && c.isTest == n.isTest && c.requestKey == ""
    && c.reporter == (if who.Member? then who.sub else "")
    && Some(c.fields) == w.validated && c.channel == "" && c.threadTS == "" && c.board == ""
  }

  /** The draft is stored although the write reports an error. */
  predicate LeavesDraft(cfg: Config, n: NewCase, who: Actor, w: World) {
    w.create.AppliedUnacked? && w.validated.Some? && ReporterOf(who) != ""
    && !(n.isPrivate && (cfg.registry.UnknownWorkspace? || cfg.ThreadMode()))
  }

  /** A draft needs a reporter, valid fields and an acknowledged write; it may be private outside thread mode only. */
  predicate TakesDraft(cfg: Config, n: NewCase, who: Actor, w: World) {
    who.Member? && who.sub != "" && w.validated.Some? && w.create.Acked?
    && (n.isPrivate ==> !cfg.registry.UnknownWorkspace? && !(cfg.registry.Entry? && cfg.registry.threadMode))
  }

  /** A new draft takes the next id and is the only change; a refused one changes nothing, unless it is stored
      although the write reports an error. */
  ghost predicate DraftStored(cfg: Config, s: Sys, r: Reply, n: NewCase, who: Actor, w: World) {
    && (r.result.Done? ==>
          r.result.record.id == s.nextId && IsNewDraft(r.result.record, n, who, w)
          && r.sys.nextId == s.nextId + 1 && r.sys.cases == s.cases[s.nextId := r.result.record])
    && (r.result.Refused? ==>
          if LeavesDraft(cfg, n, who, w)
          then r.sys.nextId == s.nextId + 1 && s.nextId in r.sys.cases
               && IsNewDraft(r.sys.cases[s.nextId], n, who, w)
               && r.sys.cases == s.cases[s.nextId := r.sys.cases[s.nextId]]
          else r.sys == s)
    && (r.result.Done? <==> TakesDraft(cfg, n, who, w)) && r.sys.trace == s.trace
  }

  lemma DraftsAreStored(cfg: Config, s: Sys, n: NewCase, who: Actor, w: World)
    requires WellFormed(s)
    ensures WellFormed(CreateDraft(cfg, s, n, who, w).sys)
    ensures DraftStored(cfg, s, CreateDraft(cfg, s, n, who, w), n, who, w)
  {
  }

  // ----- Reading back -----

  /** Each field given holds the given value; each field not given and every other part of the record is as before. */
  ghost predicate TakesPatch(b: Case, a: Case, p: Patch, w: World) {
    && (if p.title.Some? then a.title == p.title.value else a.title == b.title)
    && (if p.description.Some? then a.description == p.description.value else a.description == b.description)
    && (if p.isTest.Some? then a.isTest == p.isTest.value else a.isTest == b.isTest)
    && (p.fields.None? ==> a.fields == b.fields)
    && (p.fields.Some? ==>
          w.validated.Some? && a.fields.Keys == b.fields.Keys + w.validated.value.Keys
          && forall f :: f in a.fields ==>
               a.fields[f] == if f in w.validated.value then w.validated.value[f] else b.fields[f])
    && a == b.(title := a.title, description := a.description, isTest := a.isTest, fields := a.fields,
               updatedAt := w.now)
  }

  /** After an update its caller reads the whole record back as patched, and no other record has changed. */
  lemma UpdateReadsBack(cfg: Config, s: Sys, id: int, p: Patch, who: Actor, w: World)
    requires WellFormed(s) && UpdateCase(cfg, s, id, p, who, w).result.Done?
    ensures var s' := UpdateCase(cfg, s, id, p, who, w).sys;
            id in s.cases && id in s'.cases && Only(s, s', id) && TakesPatch(s.cases[id], s'.cases[id], p, w)
            && CaseReads.GetCase(s'.cases, id, who) == Some(s'.cases[id])
  {
    var s' := UpdateCase(cfg, s, id, p, who, w).sys;
    ReadAndWriteGatesAgree(s'.cases[id], who);
  }

  /** UpdateCase stores the whole record it loaded, over assignments that committed in between. With more transactions
      after it, what was announced about a user agrees with what is stored exactly when the transactions in between left
      that user as loaded, or a later one is stored that asks for the opposite of what was loaded. */
  lemma OverlappingUpdateAgreesExactlyWhen(loaded: Case, between: seq<Assignees.Tx>, p: Patch,
                                           fields: map<string, FieldValue>, now: int,
                                           later: seq<Assignees.Tx>, u: string)
    requires u != "" && Assignees.NoneSilent(loaded, between)
    requires Assignees.NoneSilent(Patched(loaded, p, fields).(updatedAt := now), later)
    ensures var (lost, notes1) := Assignees.RunTx(loaded, between);
            var (end, notes2) := Assignees.RunTx(Patched(loaded, p, fields).(updatedAt := now), later);
            (u in Assignees.Replay(Assignees.Named(loaded.assignees), notes1 + notes2) <==> u in end.assignees)
            <==> ((u in lost.assignees <==> u in loaded.assignees) || Assignees.Turned(u, loaded, later))
  {
    var stored := Patched(loaded, p, fields).(updatedAt := now);
    var notes1, notes2 := Assignees.RunTx(loaded, between).1, Assignees.RunTx(stored, later).1;
    Assignees.ReplayGivesStoredSet(loaded, between);
    Assignees.ReplaySplits(Assignees.Named(loaded.assignees), notes1, notes2);
    Assignees.ReplayCatchesUp(stored, later, Assignees.Replay(Assignees.Named(loaded.assignees), notes1), u);
    assert forall t :: Assignees.Turns(u, stored, t) <==> Assignees.Turns(u, loaded, t);
  }

  lemma PromotionKeepsContent(cfg: Config, s: Sys, c: Case, w: World)
    requires c.id in s.cases && s.cases[c.id] == c && Promote(cfg, s, c, w).result.Done?
    ensures var r := Promote(cfg, s, c, w);
            var a := r.result.record;
            c.id in r.sys.cases && r.sys.cases[c.id] == a
            && a == c.(status := Open, channel := a.channel, threadTS := a.threadTS, board := a.board,
                       channelUsers := a.channelUsers, updatedAt := w.now)
  {
    var open := c.(status := Open, updatedAt := w.now);
    OpenDraftShape(cfg, Put(s, open, w.update).0, open, w);
  }

  /** The submitted draft with its status, place and members set: nothing the draft held is lost. */
  ghost predicate IsPromoted(d: Case, a: Case, w: World) {
    a == d.(status := Open, channel := a.channel, threadTS := a.threadTS, board := a.board,
            channelUsers := a.channelUsers, updatedAt := w.now)
  }

  /** A submission that goes through stores the promoted draft. */
  lemma SubmitKeepsContent(cfg: Config, s: Sys, id: int, patch: Option<Patch>, who: Actor, w: World)
    requires WellFormed(s) && SubmitDraft(cfg, s, id, patch, who, w).result.Done?
    ensures var r := SubmitDraft(cfg, s, id, patch, who, w);
            id in r.sys.cases && r.sys.cases[id] == r.result.record
            && CaseRollback.Submitted(s, id, patch, who, w).Done?
            && IsPromoted(CaseRollback.Submitted(s, id, patch, who, w).record, r.result.record, w)
  {
    var draft := GetDraft(s, id, who);
    PreSubmitShape(s, draft.record, patch, w);
    var edited := PreSubmit(s, draft.record, patch, w);
    PromotionKeepsContent(cfg, edited.sys, edited.result.record, w);
  }

  /** A new case holds the texts, key and validated fields it was given. Assignees and the test flag are kept by the
      channel route only: a case created in a monitored thread holds them exactly when there were none. */
  ghost predicate HoldsItsInput(cfg: Config, c: Case, n: NewCase, who: Actor, w: World) {
    && c.title == n.title && c.description == n.description && c.requestKey == n.requestKey
    && c.isPrivate == n.isPrivate && c.reporter == (if who.Member? then who.sub else "")
    && Some(c.fields) == w.validated
    && (c.assignees == n.assignees && c.isTest == n.isTest <==>
          RouteFor(cfg, n.isPrivate).ViaChannel? || (n.assignees == [] && !n.isTest))
  }

  lemma CreatedCaseHoldsItsInput(cfg: Config, s: Sys, n: NewCase, who: Actor, w: World)
    requires WellFormed(s) && CreateCase(cfg, s, n, who, w).result.Done?
    requires CreateCase(cfg, s, n, who, w).result.record.id == s.nextId
    ensures var r := CreateCase(cfg, s, n, who, w);
            var c := r.result.record;
            c.id in r.sys.cases && r.sys.cases[c.id] == c && HoldsItsInput(cfg, c, n, who, w)
  {
    match RouteFor(cfg, n.isPrivate)
    case ViaChannel =>
      var k := PersistShape(cfg, s, n, Open, who, w);
      KnownIdIsOld(s, n, w);
      var persisted := Persist(cfg, s, n, Open, who, w);
      if persisted.result.Done? {
        ActivateShape(cfg, persisted.sys, persisted.result.record, w);
      }
    case ViaThread(monitor) =>
      KnownIdIsOld(s, n, w);
      if w.root.Some? {
        ThreadIdIsOld(s, monitor, w.root.value);
      }
    case NoRoute(_) =>
  }

  lemma KnownIdIsOld(s: Sys, n: NewCase, w: World)
    requires WellFormed(s)
    ensures Known(s, n, w).Some? ==> Known(s, n, w).value.id < s.nextId
  {
  }

  lemma ThreadIdIsOld(s: Sys, channel: string, ts: string)
    requires WellFormed(s)
    ensures FindByThread(s.cases, channel, ts, s.nextId).Some? ==>
              FindByThread(s.cases, channel, ts, s.nextId).value.id < s.nextId
  {
  }

  /** The member who creates a case reads it back in full exactly when it is public or the member sync that followed
      the creation listed them; without Slack, or when that sync fails, a private case is restricted to its creator
      too. */
  lemma CreatorReadsBackExactlyWhen(cfg: Config, s: Sys, n: NewCase, sub: string, w: World)
    requires WellFormed(s) && CreateCase(cfg, s, n, Member(sub), w).result.Done?
    requires CreateCase(cfg, s, n, Member(sub), w).result.record.id == s.nextId
    ensures var r := CreateCase(cfg, s, n, Member(sub), w);
            CaseReads.GetCase(r.sys.cases, s.nextId, Member(sub)) == Some(r.result.record)
            <==> !n.isPrivate || (cfg.slack && w.members.Some? && sub in w.members.value)
  {
    CreatedCaseHoldsItsInput(cfg, s, n, Member(sub), w);
    if n.isPrivate {
      NewMembers(cfg, s, n, Member(sub), w);
    }
    ReadAndWriteGatesAgree(CreateCase(cfg, s, n, Member(sub), w).result.record, Member(sub));
  }

  lemma NewMembers(cfg: Config, s: Sys, n: NewCase, who: Actor, w: World)
    requires WellFormed(s) && CreateCase(cfg, s, n, who, w).result.Done?
    requires CreateCase(cfg, s, n, who, w).result.record.id == s.nextId && n.isPrivate
    ensures var c := CreateCase(cfg, s, n, who, w).result.record;
            c.status == Open && c.channelUsers == (if cfg.slack && w.members.Some? then w.members.value else [])
  {
    KnownIdIsOld(s, n, w);
  }
}
