/** Safety of the case lifecycle over whole runs, and the rollback of SubmitDraft. */
module CaseTheorems {
  import opened Cases
  import opened CaseSpec
  import opened CaseShape
  import opened CaseTrace

  /** `good` holds of every call of a run at the moment it is made. */
  ghost predicate Along(cfg: Config, s: Sys, calls: seq<Call>, good: (Sys, Call) -> bool)
    decreases |calls|
  {
    calls == [] || (good(s, calls[0]) && Along(cfg, Step(cfg, s, calls[0]).sys, calls[1..], good))
  }

  // ----- Thread-mode workspaces -----

  /** A thread-mode workspace with Slack wired and a channel to monitor. */
  ghost predicate ThreadWorkspace(cfg: Config) {
    cfg.slack && cfg.registry.Entry? && cfg.registry.threadMode && cfg.registry.monitor != ""
  }

  /** A public case, in the monitored channel exactly when it has a thread there, and nowhere else; never a
      draft with a thread. */
  ghost predicate Housed(cfg: Config, c: Case)
    requires ThreadWorkspace(cfg)
  {
    && !c.isPrivate && (c.IsThreadBound() <==> c.channel == cfg.registry.monitor)
    && (c.channel == "" || c.channel == cfg.registry.monitor) && (c.IsDraft() ==> !c.IsThreadBound())
  }

  ghost predicate AllHoused(cfg: Config, s: Sys)
    requires ThreadWorkspace(cfg)
  {
    forall id :: id in s.cases ==> Housed(cfg, s.cases[id])
  }

  /** Thread creation by the agent addresses the monitored channel. */
  ghost predicate Addressed(cfg: Config, call: Call)
    requires ThreadWorkspace(cfg)
  {
    call.op.OpCreateThreadBound? ==> call.op.channel == cfg.registry.monitor
  }

  /** Slack was never asked to make or rename a channel. */
  ghost predicate NoChannelWork(trace: seq<Effect>) {
    forall e :: e in trace ==> !e.ChannelAsked? && !e.RenameAsked?
  }

  lemma ThreadStep(cfg: Config, s: Sys, call: Call)
    requires ThreadWorkspace(cfg) && WellFormed(s) && AllHoused(cfg, s) && NoChannelWork(s.trace)
             && Addressed(cfg, call)
    ensures var s' := Step(cfg, s, call).sys; WellFormed(s') && AllHoused(cfg, s') && NoChannelWork(s'.trace)
  {
    var s' := Step(cfg, s, call).sys;
    var k := StepShape(cfg, s, call);
    assert RouteFor(cfg, false) == ViaThread(cfg.registry.monitor);
    if k in s'.cases {
      if k in s.cases {
        EvolvesHoused(cfg, call, s.cases[k], s'.cases[k]);
      } else {
        assert call.op.OpCreateCase? ==> !RouteFor(cfg, call.op.new_.isPrivate).ViaChannel?;
      }
    }
    var said := StepTrace(cfg, s, call);
    assert forall e :: e in said ==> !e.ChannelAsked? && !e.RenameAsked?;
  }

  lemma EvolvesHoused(cfg: Config, call: Call, b: Case, a: Case)
    requires ThreadWorkspace(cfg) && Housed(cfg, b) && Evolves(cfg, call, b, a)
    ensures Housed(cfg, a)
  {
    assert RouteFor(cfg, false) == ViaThread(cfg.registry.monitor);
  }

  /** In a thread-mode workspace no run ever asks Slack to make or rename a channel or stores a private
      case, and each case has a thread exactly when its channel is the monitored one. */
  lemma {:induction false} ThreadWorkspaceIsSafe(cfg: Config, s: Sys, calls: seq<Call>)
    requires ThreadWorkspace(cfg) && WellFormed(s) && AllHoused(cfg, s) && NoChannelWork(s.trace)
    requires forall c :: c in calls ==> Addressed(cfg, c)
    ensures AllHoused(cfg, Run(cfg, s, calls)) && NoChannelWork(Run(cfg, s, calls).trace)
    decreases |calls|
  {
    if calls != [] {
      ThreadStep(cfg, s, calls[0]);
      ThreadWorkspaceIsSafe(cfg, Step(cfg, s, calls[0]).sys, calls[1..]);
    }
  }

  // ----- One case per thread -----

  /** A thread needs a channel, and a draft has neither. */
  ghost predicate Placed(c: Case) {
    (c.IsThreadBound() ==> c.channel != "") && (c.IsDraft() ==> !c.IsThreadBound() && c.channel == "")
  }

  ghost predicate SameThread(b: Case, a: Case) {
    a.IsThreadBound() && a.channel == b.channel && a.threadTS == b.threadTS
  }

  ghost predicate ThreadsDistinct(s: Sys) {
    && (forall id :: id in s.cases ==> Placed(s.cases[id]))
    && (forall i, j :: i in s.cases && j in s.cases && i != j ==> !SameThread(s.cases[i], s.cases[j]))
  }

  /** The root a draft promotion posts gets a timestamp no stored case has. */
  ghost predicate FreshRoot(s: Sys, call: Call) {
    call.op.OpSubmitDraft? && call.w.root.Some? ==>
      forall id :: id in s.cases ==> s.cases[id].threadTS != call.w.root.value
  }

  /** A thread a call gives to a record was nobody's. */
  lemma NewThreadIsFree(cfg: Config, s: Sys, call: Call, k: int)
    requires WellFormed(s) && ThreadsDistinct(s) && FreshRoot(s, call)
    requires Touched(cfg, s, call, Step(cfg, s, call).sys, k) && k in Step(cfg, s, call).sys.cases
    ensures forall id :: id in s.cases && id != k ==> !SameThread(s.cases[id], Step(cfg, s, call).sys.cases[k])
    ensures Placed(Step(cfg, s, call).sys.cases[k])
  {
    var s' := Step(cfg, s, call).sys;
    var a := s'.cases[k];
    if k in s.cases {
      var b := s.cases[k];
      assert (a.channel == b.channel && a.threadTS == b.threadTS)
             || !a.IsThreadBound() || (call.w.root.Some? && a.threadTS == call.w.root.value);
    } else if a.IsThreadBound() {
      ThreadWasFree(cfg, s, call);
    }
  }

  /** Thread creation looks the thread up before it stores a case for it. */
  lemma ThreadWasFree(cfg: Config, s: Sys, call: Call)
    requires WellFormed(s) && (call.op.OpCreateCase? || call.op.OpCreateThreadBound?)
    requires var s' := Step(cfg, s, call).sys; s.nextId in s'.cases && s'.cases[s.nextId].IsThreadBound()
    ensures var a := Step(cfg, s, call).sys.cases[s.nextId];
            forall id :: id in s.cases ==> !(s.cases[id].channel == a.channel && s.cases[id].threadTS == a.threadTS)
  {
    if call.op.OpCreateCase? && RouteFor(cfg, call.op.new_.isPrivate).ViaChannel? {
      var k := ChannelModeShape(cfg, s, call);
      assert false;
    }
  }

  lemma ThreadsStep(cfg: Config, s: Sys, call: Call)
    requires WellFormed(s) && ThreadsDistinct(s) && FreshRoot(s, call)
    ensures var s' := Step(cfg, s, call).sys; WellFormed(s') && ThreadsDistinct(s')
  {
    var s' := Step(cfg, s, call).sys;
    var k := StepShape(cfg, s, call);
    if k in s'.cases {
      NewThreadIsFree(cfg, s, call, k);
    }
  }

  /** In every run whose promotions post fresh roots, no two cases share a channel and thread. */
  lemma {:induction false} OneCasePerThread(cfg: Config, s: Sys, calls: seq<Call>)
    requires WellFormed(s) && ThreadsDistinct(s) && Along(cfg, s, calls, FreshRoot)
    ensures ThreadsDistinct(Run(cfg, s, calls))
    decreases |calls|
  {
    if calls != [] {
      ThreadsStep(cfg, s, calls[0]);
      OneCasePerThread(cfg, Step(cfg, s, calls[0]).sys, calls[1..]);
    }
  }
}
