/** The run theorems put together, for every run from an empty store. */
module CaseRuns {
  import opened Cases
  import opened CaseSpec
  import opened CaseShape
  import opened CaseTrace
  import opened CaseTheorems
  import CaseRollback
  import CaseLifecycle

  /** A thread-mode workspace with Slack and a monitored channel, its promotions posting fresh roots: no run makes or
      renames a channel or stores a private case; a case has a thread exactly when its channel is the monitored one;
      no two cases share a thread; and, unless some submission strands, every case that is not a draft is bound. */
  lemma ThreadWorkspaceRun(cfg: Config, calls: seq<Call>)
    requires ThreadWorkspace(cfg) && Along(cfg, EMPTY, calls, FreshRoot)
    requires forall c :: c in calls ==> Addressed(cfg, c)
    ensures var s := Run(cfg, EMPTY, calls);
            NoChannelWork(s.trace)
            && (forall id :: id in s.cases ==>
                  !s.cases[id].isPrivate
                    && (s.cases[id].IsThreadBound() <==> s.cases[id].channel == cfg.registry.monitor))
            && (forall i, j :: i in s.cases && j in s.cases && i != j && s.cases[i].IsThreadBound() ==>
                  s.cases[i].channel != s.cases[j].channel || s.cases[i].threadTS != s.cases[j].threadTS)
            && (Along(cfg, EMPTY, calls, (t: Sys, call: Call) => !CaseRollback.Strands(cfg, t, call)) ==>
                  forall id :: id in s.cases ==> s.cases[id].IsDraft() || s.cases[id].IsThreadBound())
  {
    ThreadWorkspaceIsSafe(cfg, EMPTY, calls);
    OneCasePerThread(cfg, EMPTY, calls);
    var s := Run(cfg, EMPTY, calls);
    forall i, j | i in s.cases && j in s.cases && i != j && s.cases[i].IsThreadBound()
      ensures s.cases[i].channel != s.cases[j].channel || s.cases[i].threadTS != s.cases[j].threadTS
    {
      assert !SameThread(s.cases[j], s.cases[i]);
    }
    if Along(cfg, EMPTY, calls, (t: Sys, call: Call) => !CaseRollback.Strands(cfg, t, call)) {
      CaseRollback.SubmittedCasesAreBound(cfg, EMPTY, calls);
    }
  }

  /** In every run from an empty store a case is closed as often as it is announced closed, plus the closings whose
      write was applied but reported as failed; and a thread-bound case is closed exactly when its column is. */
  lemma LifecycleRun(cfg: Config, calls: seq<Call>, id: int)
    ensures var s := Run(cfg, EMPTY, calls);
            CaseLifecycle.Closings(cfg, EMPTY, calls, id)
            == CaseLifecycle.Events(s.trace, CaseClosed, id) + CaseLifecycle.SilentClosings(cfg, EMPTY, calls, id)
    ensures CaseLifecycle.OpenStart(cfg)
            && Along(cfg, EMPTY, calls, (t: Sys, call: Call) => CaseLifecycle.LeavesDraftsOpen(cfg, t, call)) ==>
              var s := Run(cfg, EMPTY, calls);
              id in s.cases && s.cases[id].IsThreadBound() && !s.cases[id].IsDraft() ==>
                (s.cases[id].IsClosed() <==> s.cases[id].board in CaseLifecycle.ClosedColumns(cfg))
  {
    CaseLifecycle.ClosedEventsCountClosings(cfg, EMPTY, calls, id);
    if CaseLifecycle.OpenStart(cfg)
       && Along(cfg, EMPTY, calls, (t: Sys, call: Call) => CaseLifecycle.LeavesDraftsOpen(cfg, t, call)) {
      CaseLifecycle.BoundCaseClosedIffColumnClosed(cfg, EMPTY, calls);
    }
  }

  /** With Slack wired and key lookups that succeed, any run from an empty store leaves at most one case under a
      request key and at most one Created event for a case. */
  lemma RequestKeyRun(cfg: Config, calls: seq<Call>)
    requires cfg.slack && forall c :: c in calls ==> NamesChannels(c.w)
    requires forall c :: c in calls && c.op.OpCreateCase? ==> c.w.keyLookup
    ensures var s := Run(cfg, EMPTY, calls);
            (forall i, j :: i in s.cases && j in s.cases && s.cases[i].requestKey == s.cases[j].requestKey != "" ==>
               i == j)
            && forall id :: CaseLifecycle.Events(s.trace, CaseCreated, id) <= 1
  {
    CaseLifecycle.OneCasePerKey(cfg, EMPTY, calls);
    CaseLifecycle.EachCaseAnnouncedOnce(cfg, EMPTY, calls);
  }

  // ----- The store object -----

  /** What all calls made so far have had in common. */
  datatype Conduct = Conduct(addressed: bool, freshRoots: bool, draftsOpen: bool, keysLooked: bool, channelsNamed: bool)

  const BLAMELESS := Conduct(true, true, true, true, true)

  ghost function After(cfg: Config, d: Conduct, s: Sys, call: Call): Conduct {
    Conduct(d.addressed && ThreadWorkspace(cfg) && Addressed(cfg, call),
            d.freshRoots && FreshRoot(s, call),
            d.draftsOpen && CaseLifecycle.LeavesDraftsOpen(cfg, s, call),
            d.keysLooked && (call.op.OpCreateCase? ==> call.w.keyLookup),
            d.channelsNamed && NamesChannels(call.w))
  }

  /** What the store keeps under that conduct. */
  ghost predicate Kept(cfg: Config, d: Conduct, s: Sys) {
    && WellFormed(s)
    && (d.addressed && ThreadWorkspace(cfg) ==> AllHoused(cfg, s) && NoChannelWork(s.trace))
    && (d.freshRoots ==> ThreadsDistinct(s))
    && (d.draftsOpen && CaseLifecycle.OpenStart(cfg) ==> CaseLifecycle.AllInStep(cfg, s))
    && (d.keysLooked ==> CaseLifecycle.KeysDistinct(s))
    && (d.channelsNamed && cfg.slack ==> CaseLifecycle.AnnouncedOnce(s))
  }

  /** Every call keeps it. */
  lemma EveryCallKeeps(cfg: Config, d: Conduct, s: Sys, call: Call)
    requires Kept(cfg, d, s)
    ensures Kept(cfg, After(cfg, d, s, call), Step(cfg, s, call).sys)
  {
    var after := After(cfg, d, s, call);
    var _ := StepShape(cfg, s, call);
    if after.addressed {
      ThreadStep(cfg, s, call);
    }
    if after.freshRoots {
      ThreadsStep(cfg, s, call);
    }
    if after.draftsOpen && CaseLifecycle.OpenStart(cfg) {
      CaseLifecycle.InStepStep(cfg, s, call);
    }
    if after.keysLooked {
      CaseLifecycle.KeyStep(cfg, s, call);
    }
    if after.channelsNamed && cfg.slack {
      CaseLifecycle.AnnouncedStep(cfg, s, call);
    }
  }

  ghost function ConductOf(cfg: Config, d: Conduct, s: Sys, calls: seq<Call>): Conduct
    decreases |calls|
  {
    if calls == [] then d else ConductOf(cfg, After(cfg, d, s, calls[0]), Step(cfg, s, calls[0]).sys, calls[1..])
  }

  /** Over every run, whatever its calls, the store keeps what their common conduct allows. */
  lemma {:induction false} EveryRunKeeps(cfg: Config, d: Conduct, s: Sys, calls: seq<Call>)
    requires Kept(cfg, d, s)
    ensures Kept(cfg, ConductOf(cfg, d, s, calls), Run(cfg, s, calls))
    decreases |calls|
  {
    if calls != [] {
      EveryCallKeeps(cfg, d, s, calls[0]);
      EveryRunKeeps(cfg, After(cfg, d, s, calls[0]), Step(cfg, s, calls[0]).sys, calls[1..]);
    }
  }
}
