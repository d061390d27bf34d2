/** The lifecycle status against the board, and the lifecycle events against the stored cases, over whole runs. */
module CaseLifecycle {
  import opened Cases
  import opened CaseSpec
  import opened CaseShape
  import opened CaseTrace
  import opened CaseTheorems
  import CaseRollback

  // ----- Status and board agree -----

  function ClosedColumns(cfg: Config): set<string> {
    if cfg.Columns().Some? then cfg.Columns().value.closed else {}
  }

  /** What NewActionStatusSet guarantees, with an initial column that is not a closed one. */
  ghost predicate OpenStart(cfg: Config) {
    cfg.Columns().Some? ==>
      var columns := cfg.Columns().value;
      "" !in columns.ids && columns.closed <= columns.ids && columns.initial in columns.ids
      && columns.initial !in columns.closed
  }

  ghost predicate InStep(cfg: Config, c: Case) {
    c.IsThreadBound() && !c.IsDraft() ==> (c.IsClosed() <==> c.board in ClosedColumns(cfg))
  }

  /** A draft is unbound and waits in no closed column. */
  ghost predicate DraftWaits(cfg: Config, c: Case) {
    c.IsDraft() ==> !c.IsThreadBound() && c.board !in ClosedColumns(cfg)
  }

  ghost predicate AllInStep(cfg: Config, s: Sys) {
    forall id :: id in s.cases ==> InStep(cfg, s.cases[id]) && DraftWaits(cfg, s.cases[id]) && Placed(s.cases[id])
  }

  /** Nobody moves a draft to a closed column. */
  predicate LeavesDraftsOpen(cfg: Config, s: Sys, call: Call) {
    call.op.OpUpdateCaseStatus? && call.op.id in s.cases && s.cases[call.op.id].IsDraft() ==>
      call.op.board !in ClosedColumns(cfg)
  }

  lemma EvolvesInStep(cfg: Config, call: Call, b: Case, a: Case)
    requires OpenStart(cfg) && Evolves(cfg, call, b, a) && InStep(cfg, b) && DraftWaits(cfg, b) && Placed(b)
    requires call.op.OpUpdateCaseStatus? && b.IsDraft() ==> call.op.board !in ClosedColumns(cfg)
    ensures InStep(cfg, a) && DraftWaits(cfg, a) && Placed(a)
  {
  }

  lemma TouchedInStep(cfg: Config, s: Sys, call: Call, s': Sys, k: int)
    requires OpenStart(cfg) && WellFormed(s) && AllInStep(cfg, s) && Touched(cfg, s, call, s', k)
    requires call.op.OpUpdateCaseStatus? && k in s.cases && s.cases[k].IsDraft() ==>
               call.op.board !in ClosedColumns(cfg)
    ensures AllInStep(cfg, s')
  {
    if k in s'.cases && k in s.cases {
      EvolvesInStep(cfg, call, s.cases[k], s'.cases[k]);
    }
  }

  lemma InStepStep(cfg: Config, s: Sys, call: Call)
    requires OpenStart(cfg) && WellFormed(s) && AllInStep(cfg, s) && LeavesDraftsOpen(cfg, s, call)
    ensures var s' := Step(cfg, s, call).sys; WellFormed(s') && AllInStep(cfg, s')
  {
    var k := StepShape(cfg, s, call);
    if call.op.OpUpdateCaseStatus? {
      BoardShape(cfg, s, call);
      k := call.op.id;
    }
    TouchedInStep(cfg, s, call, Step(cfg, s, call).sys, k);
  }

  /** In every run that moves no draft to a closed column, a thread-bound case is closed exactly when its board
      column is a closed one. */
  lemma {:induction false} BoundCaseClosedIffColumnClosed(cfg: Config, s: Sys, calls: seq<Call>)
    requires OpenStart(cfg) && WellFormed(s) && AllInStep(cfg, s)
    requires Along(cfg, s, calls, (t: Sys, call: Call) => LeavesDraftsOpen(cfg, t, call))
    ensures AllInStep(cfg, Run(cfg, s, calls))
    decreases |calls|
  {
    if calls != [] {
      InStepStep(cfg, s, calls[0]);
      BoundCaseClosedIffColumnClosed(cfg, Step(cfg, s, calls[0]).sys, calls[1..]);
    }
  }

  /** The submission flips the draft to open, writes its thread binding, and nothing takes that back: the binding is
      acknowledged, or it is not and the rollback does not write. */
  predicate ComesOutBound(cfg: Config, s: Sys, call: Call)
    requires call.op.OpSubmitDraft?
  {
    CaseRollback.PassesChecks(cfg, s, call.op.id, call.op.patch, call.who, call.w)
    && call.w.update.Acked? && CaseRollback.BindingWritten(call.w)
    && (call.w.activate.Acked? || !call.w.rollbackRead || call.w.rollback.Lost?)
  }

  lemma PromotedInStep(cfg: Config, s: Sys, c: Case, w: World)
    requires ThreadWorkspace(cfg) && OpenStart(cfg) && Housed(cfg, c) && c.id in s.cases && s.cases[c.id] == c
    requires c.status == Draft && c.title != "" && cfg.Required() <= c.fields.Keys
    ensures var s' := Promote(cfg, s, c, w).sys;
            c.id in s'.cases
            && (InStep(cfg, s'.cases[c.id]) <==>
                  !(c.board in ClosedColumns(cfg) && w.update.Acked? && CaseRollback.BindingWritten(w)
                    && (w.activate.Acked? || !w.rollbackRead || w.rollback.Lost?)))
  {
    assert RouteFor(cfg, false) == ViaThread(cfg.registry.monitor);
  }

  /** Whatever fails, a submission leaves the stored record in step if and only if it is not of a draft that waits in
      a closed column and comes out bound. */
  lemma PromotionInStepExactlyWhen(cfg: Config, s: Sys, call: Call)
    requires ThreadWorkspace(cfg) && OpenStart(cfg) && WellFormed(s) && AllHoused(cfg, s)
    requires call.op.OpSubmitDraft? && call.op.id in s.cases && InStep(cfg, s.cases[call.op.id])
    ensures call.op.id in Step(cfg, s, call).sys.cases
    ensures InStep(cfg, Step(cfg, s, call).sys.cases[call.op.id])
            <==> !(s.cases[call.op.id].board in ClosedColumns(cfg) && ComesOutBound(cfg, s, call))
  {
    var draft := GetDraft(s, call.op.id, call.who);
    if draft.Done? {
      PreSubmitShape(s, draft.record, call.op.patch, call.w);
      var edited := PreSubmit(s, draft.record, call.op.patch, call.w);
      if edited.result.Done? && CaseRollback.PassesChecks(cfg, s, call.op.id, call.op.patch, call.who, call.w) {
        PromotedInStep(cfg, edited.sys, edited.result.record, call.w);
      }
    }
  }

  /** The agreement is not unconditional: a draft moved to a closed column and then submitted is an open case in
      a closed column. */
  lemma ClosedDraftComesOutOpen(w: World)
    requires w.create.Acked? && w.update.Acked? && w.activate.Acked? && w.validated == Some(map[])
             && w.root == Some("1.0")
    ensures var cfg := Config(Entry(true, "C1", Some(StatusSet("TODO", {"DONE"}, {"TODO", "DONE"})), {}), true);
            var draft := NewCase("t", "", [], map[], false, false, "");
            var calls := [Call(OpCreateDraft(draft), Member("U1"), w),
                          Call(OpUpdateCaseStatus(1, "DONE"), Member("U1"), w),
                          Call(OpSubmitDraft(1, None), Member("U1"), w)];
            && OpenStart(cfg) && ThreadWorkspace(cfg)
            && var s := Run(cfg, EMPTY, calls);
               1 in s.cases && s.cases[1].IsThreadBound() && s.cases[1].status == Open
               && s.cases[1].board in ClosedColumns(cfg)
  {
    var cfg := Config(Entry(true, "C1", Some(StatusSet("TODO", {"DONE"}, {"TODO", "DONE"})), {}), true);
    var draft := NewCase("t", "", [], map[], false, false, "");
    var c1, c2 := Call(OpCreateDraft(draft), Member("U1"), w), Call(OpUpdateCaseStatus(1, "DONE"), Member("U1"), w);
    var c3 := Call(OpSubmitDraft(1, None), Member("U1"), w);
    var s1 := CreateDraft(cfg, EMPTY, draft, Member("U1"), w).sys;
    var s2 := UpdateCaseStatus(cfg, s1, 1, "DONE", Member("U1"), w).sys;
    assert s1.cases[1].board == "" && s2.cases[1].board == "DONE" && s2.cases[1].status == Draft;
    RunThree(cfg, EMPTY, c1, c2, c3);
  }

  lemma RunThree(cfg: Config, s: Sys, a: Call, b: Call, c: Call)
    ensures Run(cfg, s, [a, b, c]) == Step(cfg, Step(cfg, Step(cfg, s, a).sys, b).sys, c).sys
  {
    var s1 := Step(cfg, s, a).sys;
    var s2 := Step(cfg, s1, b).sys;
    RunFirst(cfg, s, a, [b, c]);
    RunFirst(cfg, s1, b, [c]);
    RunFirst(cfg, s2, c, []);
    assert [a, b, c] == [a] + [b, c] && [b, c] == [b] + [c] && [c] == [c] + [];
  }

  lemma RunFirst(cfg: Config, s: Sys, call: Call, rest: seq<Call>)
    ensures Run(cfg, s, [call] + rest) == Run(cfg, Step(cfg, s, call).sys, rest)
  {
    assert ([call] + rest)[1..] == rest;
  }

  // ----- Closed events -----

  /** How many events of a kind a trace holds for a case. */
  function Events(trace: seq<Effect>, kind: Lifecycle, id: int): nat {
    if trace == [] then 0
    else Events(trace[..|trace| - 1], kind, id) + (if IsEvent(trace[|trace| - 1], kind, id) then 1 else 0)
  }

  predicate IsEvent(e: Effect, kind: Lifecycle, id: int) {
    e.Published? && e.kind == kind && e.caseId == id
  }

  /** How often a run takes the case from not closed to closed. */
  ghost function Closings(cfg: Config, s: Sys, calls: seq<Call>, id: int): nat
    decreases |calls|
  {
    if calls == [] then 0
    else
      var s' := Step(cfg, s, calls[0]).sys;
      (if Closes(s, s', id) then 1 else 0) + Closings(cfg, s', calls[1..], id)
  }

  /** Closings whose write was applied but reported as failed. */
  ghost function SilentClosings(cfg: Config, s: Sys, calls: seq<Call>, id: int): nat
    decreases |calls|
  {
    if calls == [] then 0
    else
      var s' := Step(cfg, s, calls[0]).sys;
      (if Closes(s, s', id) && calls[0].w.update.AppliedUnacked? then 1 else 0)
      + SilentClosings(cfg, s', calls[1..], id)
  }

  lemma EventsGrow(trace: seq<Effect>, said: seq<Effect>, kind: Lifecycle, id: int)
    requires |said| <= 2
    requires |said| == 2 ==> !said[0].Published?
    ensures Events(trace + said, kind, id)
            == Events(trace, kind, id) + (if |said| > 0 && IsEvent(said[|said| - 1], kind, id) then 1 else 0)
  {
    var all := trace + said;
    if |said| == 0 {
      assert all == trace;
    } else if |said| == 1 {
      assert all[..|all| - 1] == trace;
    } else {
      var front := trace + [said[0]];
      assert all[..|all| - 1] == front && front[..|front| - 1] == trace;
    }
  }

  lemma ClosingStep(cfg: Config, s: Sys, call: Call, id: int)
    requires WellFormed(s)
    ensures var s' := Step(cfg, s, call).sys;
            && Events(s'.trace, CaseClosed, id) == Events(s.trace, CaseClosed, id)
                                                   + (if Closes(s, s', id) && call.w.update.Acked? then 1 else 0)
            && (Closes(s, s', id) ==> !call.w.update.Lost?)
  {
    var said := StepTrace(cfg, s, call);
    ClosingCount(cfg, s, call, Step(cfg, s, call).sys, said, id);
    if call.w.update.Lost? {
      NothingClosesWhenLost(cfg, s, call);
    }
  }

  lemma ClosingCount(cfg: Config, s: Sys, call: Call, s': Sys, said: seq<Effect>, id: int)
    requires Speaks(cfg, s, call, s', said) && Reports(s, call, s', said)
    ensures Events(s'.trace, CaseClosed, id) == Events(s.trace, CaseClosed, id)
                                                + (if Closes(s, s', id) && call.w.update.Acked? then 1 else 0)
  {
    EventsGrow(s.trace, said, CaseClosed, id);
    if |said| > 0 && IsEvent(said[|said| - 1], CaseClosed, id) {
      assert Fits(cfg, s, call, s', said[|said| - 1]);
    }
  }

  lemma NothingClosesWhenLost(cfg: Config, s: Sys, call: Call)
    requires WellFormed(s) && call.w.update.Lost?
    ensures forall id :: !Closes(s, Step(cfg, s, call).sys, id)
  {
    if !call.op.OpCloseCase? && !call.op.OpUpdateCaseStatus? {
      NothingCloses(cfg, s, call);
    }
  }

  /** Over every run, a case's Closed events and its silent closings add up to its crossings from not closed to
      closed, through CloseCase and the board alike; so the two counts are equal exactly when no closing write
      is applied but reported as failed. */
  lemma {:induction false} ClosedEventsCountClosings(cfg: Config, s: Sys, calls: seq<Call>, id: int)
    requires WellFormed(s)
    ensures Events(Run(cfg, s, calls).trace, CaseClosed, id) + SilentClosings(cfg, s, calls, id)
            == Events(s.trace, CaseClosed, id) + Closings(cfg, s, calls, id)
    decreases |calls|
  {
    if calls != [] {
      var _ := StepShape(cfg, s, calls[0]);
      ClosingStep(cfg, s, calls[0], id);
      ClosedEventsCountClosings(cfg, Step(cfg, s, calls[0]).sys, calls[1..], id);
    }
  }

  // ----- Created events and request keys -----

  /** Every case is announced at most once, and an announced case is neither a draft nor without a channel. */
  ghost predicate AnnouncedOnce(s: Sys) {
    forall id :: Events(s.trace, CaseCreated, id) <= 1
                 && (Events(s.trace, CaseCreated, id) == 1 ==>
                       id < s.nextId && (id in s.cases ==> !s.cases[id].IsDraft() && s.cases[id].channel != ""))
  }

  lemma AnnouncedStep(cfg: Config, s: Sys, call: Call)
    requires cfg.slack && NamesChannels(call.w) && WellFormed(s) && AnnouncedOnce(s)
    ensures WellFormed(Step(cfg, s, call).sys) && AnnouncedOnce(Step(cfg, s, call).sys)
  {
    var k := StepShape(cfg, s, call);
    var said := StepTrace(cfg, s, call);
    AnnouncedFrom(cfg, s, call, Step(cfg, s, call).sys, k, said);
  }

  lemma AnnouncedFrom(cfg: Config, s: Sys, call: Call, s': Sys, k: int, said: seq<Effect>)
    requires cfg.slack && NamesChannels(call.w) && WellFormed(s) && AnnouncedOnce(s)
    requires Touched(cfg, s, call, s', k) && Speaks(cfg, s, call, s', said)
    ensures AnnouncedOnce(s')
  {
    forall id
      ensures Events(s'.trace, CaseCreated, id) <= 1
      ensures Events(s'.trace, CaseCreated, id) == 1 ==>
                id < s'.nextId && (id in s'.cases ==> !s'.cases[id].IsDraft() && s'.cases[id].channel != "")
    {
      EventsGrow(s.trace, said, CaseCreated, id);
      if |said| > 0 && IsEvent(said[|said| - 1], CaseCreated, id) {
        assert RightlyCreated(cfg, s, call, s', said[|said| - 1]);
      }
    }
  }

  /** With Slack wired, over every run each case id receives at most one Created event, and from then on the
      case is never a draft nor without its channel. */
  lemma {:induction false} EachCaseAnnouncedOnce(cfg: Config, s: Sys, calls: seq<Call>)
    requires cfg.slack && WellFormed(s) && AnnouncedOnce(s)
    requires forall c :: c in calls ==> NamesChannels(c.w)
    ensures AnnouncedOnce(Run(cfg, s, calls))
    decreases |calls|
  {
    if calls != [] {
      AnnouncedStep(cfg, s, calls[0]);
      EachCaseAnnouncedOnce(cfg, Step(cfg, s, calls[0]).sys, calls[1..]);
    }
  }

  /** Every Created event in the part of the trace after `n` is its last entry and shows the record as stored:
      open, with its Slack binding. */
  ghost predicate CreatedRightly(s: Sys, n: nat) {
    forall i :: n <= i < |s.trace| && IsCreated(s.trace[i]) ==>
      && i == |s.trace| - 1 && s.trace[i].caseId in s.cases && s.cases[s.trace[i].caseId] == s.trace[i].record
      && s.trace[i].record.status == Open && s.trace[i].record.channel != ""
  }

  /** A call publishes Created only once the case is open with its Slack binding stored. */
  lemma CreatedMeansOpenAndBound(cfg: Config, s: Sys, call: Call)
    requires cfg.slack && NamesChannels(call.w) && WellFormed(s)
    ensures s.trace <= Step(cfg, s, call).sys.trace && CreatedRightly(Step(cfg, s, call).sys, |s.trace|)
  {
    var said := StepTrace(cfg, s, call);
    CreatedFrom(cfg, s, call, Step(cfg, s, call).sys, said);
  }

  lemma CreatedFrom(cfg: Config, s: Sys, call: Call, s': Sys, said: seq<Effect>)
    requires cfg.slack && NamesChannels(call.w) && Speaks(cfg, s, call, s', said)
    ensures s.trace <= s'.trace && CreatedRightly(s', |s.trace|)
  {
    forall i | |s.trace| <= i < |s'.trace| && IsCreated(s'.trace[i])
      ensures i == |s'.trace| - 1 && RightlyCreated(cfg, s, call, s', s'.trace[i])
    {
      assert s'.trace[i] == said[i - |s.trace|];
    }
  }

  /** Slack is needed for that: without it a case never gets a channel, so every repeat of its request key
      publishes it again. */
  lemma WithoutSlackAKeyIsAnnouncedAgain(cfg: Config, s: Sys, call: Call, c: Case)
    requires !cfg.slack && call.op.OpCreateCase? && RouteFor(cfg, call.op.new_.isPrivate).ViaChannel?
             && call.w.keyLookup
    requires call.op.new_.requestKey != "" && call.op.new_.title != ""
    requires FindByKey(s.cases, call.op.new_.requestKey, s.nextId) == Some(c) && c.status == Open && c.channel == ""
    ensures Step(cfg, s, call) == Reply(Log(s, Published(c.id, CaseCreated, c)), Done(c))
    ensures Events(Step(cfg, s, call).sys.trace, CaseCreated, c.id) == Events(s.trace, CaseCreated, c.id) + 1
  {
    EventsGrow(s.trace, [Published(c.id, CaseCreated, c)], CaseCreated, c.id);
  }

  ghost predicate KeysDistinct(s: Sys) {
    forall i, j :: i in s.cases && j in s.cases && i != j && s.cases[i].requestKey != "" ==>
      s.cases[i].requestKey != s.cases[j].requestKey
  }

  /** A case is stored under a key only when the lookup found nobody with it. */
  lemma KeyWasFree(cfg: Config, s: Sys, call: Call)
    requires WellFormed(s) && call.op.OpCreateCase? && call.w.keyLookup && call.op.new_.requestKey != ""
    requires s.nextId in Step(cfg, s, call).sys.cases
    ensures forall id :: id in s.cases ==> s.cases[id].requestKey != call.op.new_.requestKey
  {
    var found := FindByKey(s.cases, call.op.new_.requestKey, s.nextId);
    if found.Some? {
      KnownKeyStoresNothing(cfg, s, call);
    }
  }

  lemma KnownKeyStoresNothing(cfg: Config, s: Sys, call: Call)
    requires WellFormed(s) && call.op.OpCreateCase? && call.w.keyLookup && call.op.new_.requestKey != ""
    requires FindByKey(s.cases, call.op.new_.requestKey, s.nextId).Some?
    ensures s.nextId !in Step(cfg, s, call).sys.cases
  {
    var n := call.op.new_;
    if RouteFor(cfg, n.isPrivate).ViaChannel? {
      var persisted := Persist(cfg, s, n, Open, call.who, call.w);
      assert persisted.sys == s;
      if persisted.result.Done? {
        ActivateShape(cfg, s, persisted.result.record, call.w);
      }
    }
  }

  lemma KeyStep(cfg: Config, s: Sys, call: Call)
    requires WellFormed(s) && KeysDistinct(s) && (call.op.OpCreateCase? ==> call.w.keyLookup)
    ensures WellFormed(Step(cfg, s, call).sys) && KeysDistinct(Step(cfg, s, call).sys)
  {
    var s' := Step(cfg, s, call).sys;
    var k := StepShape(cfg, s, call);
    if k in s'.cases && k !in s.cases && call.op.OpCreateCase? && call.op.new_.requestKey != "" {
      KeyWasFree(cfg, s, call);
    }
  }

  /** Over every run whose key lookups succeed, at most one stored case carries a given non-empty request key. */
  lemma {:induction false} OneCasePerKey(cfg: Config, s: Sys, calls: seq<Call>)
    requires WellFormed(s) && KeysDistinct(s)
    requires forall c :: c in calls && c.op.OpCreateCase? ==> c.w.keyLookup
    ensures KeysDistinct(Run(cfg, s, calls))
    decreases |calls|
  {
    if calls != [] {
      KeyStep(cfg, s, calls[0]);
      OneCasePerKey(cfg, Step(cfg, s, calls[0]).sys, calls[1..]);
    }
  }
}
