/** SubmitDraft's failure policy: what its rollback restores, and exactly when it strands a case. */
module CaseRollback {
  import opened Cases
  import opened CaseSpec
  import opened CaseShape
  import opened CaseTheorems

  // ----- What a failed activation leaves -----

  /** The draft with the caller's pre-submit edits: the record the promotion starts from. */
  function Submitted(s: Sys, id: int, patch: Option<Patch>, who: Actor, w: World): Result {
    var draft := GetDraft(s, id, who);
    if draft.Refused? then draft else PreSubmit(s, draft.record, patch, w).result
  }

  lemma PromoteRollsBack(cfg: Config, s: Sys, c: Case, w: World)
    requires c.id in s.cases && s.cases[c.id] == c && c.status == Draft
    requires Promote(cfg, s, c, w).result.Refused? && Promote(cfg, s, c, w).result.err.ActivationFailed?
    requires w.rollbackRead && !w.rollback.Lost?
    ensures var s' := Promote(cfg, s, c, w).sys;
            && Only(s, s', c.id) && c.id in s'.cases
            && s'.cases[c.id] == c.(updatedAt := w.now, channelUsers := s'.cases[c.id].channelUsers)
            && (w.activate.Lost? ==> s'.cases[c.id].channelUsers == c.channelUsers)
  {
    var open := c.(status := Open, updatedAt := w.now);
    var s1 := Put(s, open, w.update).0;
    OpenDraftShape(cfg, s1, open, w);
    var s2 := OpenDraft(cfg, s1, open, w).sys;
    RollBackShape(s2, open, w);
    if w.activate.Lost? {
      LostActivationWritesNothing(cfg, s1, open, w);
    }
  }

  lemma LostActivationWritesNothing(cfg: Config, s: Sys, c: Case, w: World)
    requires w.activate.Lost?
    ensures OpenDraft(cfg, s, c, w).sys.cases == s.cases
  {
  }

  /** The submitted draft `d` is stored again under its id in every field except the update time and the synced
      channel members, and no other record has changed. */
  ghost predicate IsDraftAgain(s: Sys, s': Sys, d: Case, w: World) {
    && Only(s, s', d.id) && d.id in s'.cases && d.status == Draft
    && s'.cases[d.id] == d.(updatedAt := w.now, channelUsers := s'.cases[d.id].channelUsers)
    && (w.activate.Lost? ==> s'.cases[d.id].channelUsers == d.channelUsers)
  }

  /** When SubmitDraft reports a failed activation and the rollback's own read and write go through, the stored
      record is the submitted draft again, even if an activation write was applied but reported as failed. */
  lemma FailedSubmitKeepsTheDraft(cfg: Config, s: Sys, id: int, patch: Option<Patch>, who: Actor, w: World)
    requires WellFormed(s)
    requires SubmitDraft(cfg, s, id, patch, who, w).result.Refused?
    requires SubmitDraft(cfg, s, id, patch, who, w).result.err.ActivationFailed?
    requires w.rollbackRead && !w.rollback.Lost?
    ensures var d := Submitted(s, id, patch, who, w);
            d.Done? && d.record.id == id && IsDraftAgain(s, SubmitDraft(cfg, s, id, patch, who, w).sys, d.record, w)
            && (patch.None? ==> d.record == s.cases[id])
  {
    var draft := GetDraft(s, id, who);
    PreSubmitShape(s, draft.record, patch, w);
    var edited := PreSubmit(s, draft.record, patch, w);
    PromoteRollsBack(cfg, edited.sys, edited.result.record, w);
  }

  // ----- Stranded cases -----

  /** The submission passes every check that comes before the status flip. */
  predicate PassesChecks(cfg: Config, s: Sys, id: int, patch: Option<Patch>, who: Actor, w: World) {
    var c := Submitted(s, id, patch, who, w);
    c.Done? && c.record.title != "" && cfg.Required() <= c.record.fields.Keys
  }

  /** The flip is applied but reported lost, or no thread binding is written and the rollback does not write. */
  predicate Strands(cfg: Config, s: Sys, call: Call) {
    && call.op.OpSubmitDraft? && PassesChecks(cfg, s, call.op.id, call.op.patch, call.who, call.w)
    && (call.w.update.AppliedUnacked?
        || (call.w.update.Acked? && !BindingWritten(call.w) && (!call.w.rollbackRead || call.w.rollback.Lost?)))
  }

  predicate BindingWritten(w: World) {
    w.root.Some? && w.root.value != "" && !w.activate.Lost?
  }

  ghost predicate AllBound(s: Sys) {
    forall id :: id in s.cases ==> s.cases[id].IsDraft() || s.cases[id].IsThreadBound()
  }

  lemma PromoteStrands(cfg: Config, s: Sys, c: Case, w: World)
    requires ThreadWorkspace(cfg) && Housed(cfg, c) && c.id in s.cases && s.cases[c.id] == c && c.status == Draft
    requires c.title != "" && cfg.Required() <= c.fields.Keys
    ensures var s' := Promote(cfg, s, c, w).sys;
            c.id in s'.cases
            && (s'.cases[c.id].IsDraft() || s'.cases[c.id].IsThreadBound() <==>
                !(w.update.AppliedUnacked?
                  || (w.update.Acked? && !BindingWritten(w) && (!w.rollbackRead || w.rollback.Lost?))))
  {
    var open := c.(status := Open, updatedAt := w.now);
    if w.update.Acked? {
      var s1 := Put(s, open, w.update).0;
      OpenDraftShape(cfg, s1, open, w);
      RollBackShape(OpenDraft(cfg, s1, open, w).sys, open, w);
      assert RouteFor(cfg, open.isPrivate) == ViaThread(cfg.registry.monitor);
    }
  }

  lemma SubmitStrands(cfg: Config, s: Sys, call: Call)
    requires ThreadWorkspace(cfg) && WellFormed(s) && AllHoused(cfg, s) && AllBound(s) && call.op.OpSubmitDraft?
    ensures AllBound(Step(cfg, s, call).sys) <==> !Strands(cfg, s, call)
  {
    SubmitShape(cfg, s, call);
    var draft := GetDraft(s, call.op.id, call.who);
    if draft.Done? {
      var b := draft.record;
      PreSubmitShape(s, b, call.op.patch, call.w);
      var edited := PreSubmit(s, b, call.op.patch, call.w);
      if edited.result.Done? && PassesChecks(cfg, s, call.op.id, call.op.patch, call.who, call.w) {
        PromoteStrands(cfg, edited.sys, edited.result.record, call.w);
      }
    }
  }

  lemma OthersNeverStrand(cfg: Config, s: Sys, call: Call)
    requires ThreadWorkspace(cfg) && WellFormed(s) && AllHoused(cfg, s) && AllBound(s) && !call.op.OpSubmitDraft?
    ensures AllBound(Step(cfg, s, call).sys)
  {
    var k := StepShape(cfg, s, call);
  }

  /** From a store where every submitted case is bound to a thread, a call leaves one that is not exactly when
      it is a draft submission that strands. */
  lemma CaseIsStrandedExactlyWhen(cfg: Config, s: Sys, call: Call)
    requires ThreadWorkspace(cfg) && WellFormed(s) && AllHoused(cfg, s) && AllBound(s)
    ensures AllBound(Step(cfg, s, call).sys) <==> !Strands(cfg, s, call)
  {
    if call.op.OpSubmitDraft? {
      SubmitStrands(cfg, s, call);
    } else {
      OthersNeverStrand(cfg, s, call);
    }
  }

  /** In every run of a thread-mode workspace in which no submission strands, every submitted case is bound. */
  lemma {:induction false} SubmittedCasesAreBound(cfg: Config, s: Sys, calls: seq<Call>)
    requires ThreadWorkspace(cfg) && WellFormed(s) && AllHoused(cfg, s) && NoChannelWork(s.trace) && AllBound(s)
    requires forall c :: c in calls ==> Addressed(cfg, c)
    requires Along(cfg, s, calls, (t: Sys, call: Call) => !Strands(cfg, t, call))
    ensures AllBound(Run(cfg, s, calls))
    decreases |calls|
  {
    if calls != [] {
      CaseIsStrandedExactlyWhen(cfg, s, calls[0]);
      ThreadStep(cfg, s, calls[0]);
      SubmittedCasesAreBound(cfg, Step(cfg, s, calls[0]).sys, calls[1..]);
    }
  }
}
