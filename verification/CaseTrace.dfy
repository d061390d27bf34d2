/** What a call may tell the outside world: which Slack calls and lifecycle events it can add to the trace. */
module CaseTrace {
  import opened Cases
  import opened CaseSpec
  import opened CaseShape

  /** A case crosses from not closed to closed. */
  ghost predicate Closes(s: Sys, s': Sys, id: int) {
    id in s.cases && id in s'.cases && !s.cases[id].IsClosed() && s'.cases[id].IsClosed()
  }

  /** Slack never answers with an empty channel id. */
  ghost predicate NamesChannels(w: World) {
    w.channel.Some? ==> w.channel.value != ""
  }

  /** A Created event is about the stored record, open and bound, of a case that was not there, was a draft,
      or had no channel yet. */
  ghost predicate RightlyCreated(cfg: Config, s: Sys, call: Call, s': Sys, e: Effect)
    requires e.Published?
  {
    && e.caseId in s'.cases && s'.cases[e.caseId] == e.record && e.record.status == Open
    && (cfg.slack && NamesChannels(call.w) ==> e.record.channel != "")
    && (if e.caseId in s.cases then s.cases[e.caseId].IsDraft() || s.cases[e.caseId].channel == ""
        else e.caseId == s.nextId)
  }

  ghost predicate Fits(cfg: Config, s: Sys, call: Call, s': Sys, e: Effect) {
    match e
    case ChannelAsked(_, _) => cfg.slack && !cfg.ThreadMode()
    case RenameAsked(channel, _) =>
      call.op.OpUpdateCase? && call.op.id in s.cases && RenamesChannel(cfg, s.cases[call.op.id], call.op.edit)
      && channel == s.cases[call.op.id].channel
    case RootPosted(channel, _) => RouteFor(cfg, false).ViaThread? && channel == RouteFor(cfg, false).monitor
    case Published(_, CaseCreated, _) => RightlyCreated(cfg, s, call, s', e)
    case Published(id, CaseClosed, record) =>
      Closes(s, s', id) && call.w.update.Acked? && id in s'.cases && record == s'.cases[id]
  }

  ghost predicate IsCreated(e: Effect) { e.Published? && e.kind == CaseCreated }

  /** The effects of a call: at most two, a Created event only in last place, a Closed event only alone. */
  ghost predicate Speaks(cfg: Config, s: Sys, call: Call, s': Sys, said: seq<Effect>) {
    && s'.trace == s.trace + said && |said| <= 2
    && (forall i :: 0 <= i < |said| ==> Fits(cfg, s, call, s', said[i]))
    && (|said| == 2 ==> !said[0].Published?)
  }

  ghost predicate Reports(s: Sys, call: Call, s': Sys, said: seq<Effect>) {
    forall id :: Closes(s, s', id) && call.w.update.Acked? ==> said == [Published(id, CaseClosed, s'.cases[id])]
  }

  lemma ChannelModeTrace(cfg: Config, s: Sys, call: Call) returns (said: seq<Effect>)
    requires WellFormed(s) && call.op.OpCreateCase? && RouteFor(cfg, call.op.new_.isPrivate).ViaChannel?
    ensures Speaks(cfg, s, call, CreateChannelMode(cfg, s, call.op.new_, call.who, call.w).sys, said)
  {
    var n := call.op.new_;
    var k := PersistShape(cfg, s, n, Open, call.who, call.w);
    var persisted := Persist(cfg, s, n, Open, call.who, call.w);
    var s' := CreateChannelMode(cfg, s, n, call.who, call.w).sys;
    said := [];
    if persisted.result.Done? && persisted.result.record.status == Open && persisted.result.record.channel == "" {
      var active := Activate(cfg, persisted.sys, persisted.result.record, call.w);
      said := ActivateTrace(cfg, persisted.sys, persisted.result.record, call.w);
      if active.result.Done? {
        said := said + [Published(persisted.result.record.id, CaseCreated, active.result.record)];
      }
    }
    assert persisted.sys.trace == s.trace;
    assert s'.trace == s.trace + said;
  }

  lemma ActivateTrace(cfg: Config, s: Sys, c: Case, w: World) returns (said: seq<Effect>)
    requires c.id in s.cases
    ensures var r := Activate(cfg, s, c, w);
            && r.sys.trace == s.trace + said && |said| <= 1
            && (forall e :: e in said ==> e.ChannelAsked? && cfg.slack && !cfg.ThreadMode())
            && (r.result.Done? ==>
                  var a := r.result.record;
                  a.id == c.id && (cfg.slack && NamesChannels(w) ==> a.channel != "") && a.status == c.status
                  && (s.cases[c.id] == c ==> r.sys.cases[c.id] == a))
  {
    said := if cfg.slack && !cfg.ThreadMode() then [ChannelAsked(c.id, w.channel)] else [];
  }

  lemma ThreadBoundTrace(cfg: Config, s: Sys, channel: string, ts: string, reporter: string,
                         title: string, description: string, key: string, w: World) returns (said: seq<Effect>)
    requires WellFormed(s)
    ensures var s' := CreateThreadBound(cfg, s, channel, ts, reporter, title, description, key, w).sys;
            && s'.trace == s.trace + said && |said| <= 1
            && forall e :: e in said ==>
                 IsCreated(e) && e.caseId == s.nextId && s.nextId in s'.cases && s'.cases[s.nextId] == e.record
                 && e.record.status == Open && e.record.channel == channel && channel != ""
  {
    var r := CreateThreadBound(cfg, s, channel, ts, reporter, title, description, key, w);
    said := if |r.sys.trace| > |s.trace| then [r.sys.trace[|s.trace|]] else [];
  }

  lemma ThreadModeTrace(cfg: Config, s: Sys, call: Call) returns (said: seq<Effect>)
    requires WellFormed(s)
    requires (call.op.OpCreateCase? && !RouteFor(cfg, call.op.new_.isPrivate).ViaChannel?)
             || call.op.OpCreateThreadBound?
    ensures Speaks(cfg, s, call, Step(cfg, s, call).sys, said)
  {
    var s' := Step(cfg, s, call).sys;
    if call.op.OpCreateThreadBound? {
      said := ThreadBoundTrace(cfg, s, call.op.channel, call.op.ts, call.op.reporter, call.op.title,
                               call.op.description, "", call.w);
    } else {
      var n, route := call.op.new_, RouteFor(cfg, call.op.new_.isPrivate);
      said := [];
      if s'.trace != s.trace {
        var posted := RootPosted(route.monitor, call.w.root.value);
        said := ThreadBoundTrace(cfg, Log(s, posted), route.monitor, call.w.root.value, ReporterOf(call.who),
                                 n.title, n.description, n.requestKey, call.w);
        said := [posted] + said;
        assert s'.trace == s.trace + said;
      }
    }
  }

  lemma OpenDraftTrace(cfg: Config, s: Sys, c: Case, w: World) returns (said: seq<Effect>)
    requires c.id in s.cases
    ensures var r := OpenDraft(cfg, s, c, w);
            && r.sys.trace == s.trace + said && |said| <= 1
            && (forall e :: e in said ==>
                  (e.ChannelAsked? && cfg.slack && !cfg.ThreadMode())
                  || (e.RootPosted? && RouteFor(cfg, false).ViaThread? && e.channel == RouteFor(cfg, false).monitor))
            && (r.result.Done? ==>
                  var a := r.result.record;
                  a.id == c.id && (cfg.slack && NamesChannels(w) ==> a.channel != "") && a.status == c.status
                  && (s.cases[c.id] == c ==> r.sys.cases[c.id] == a))
  {
    var route := RouteFor(cfg, c.isPrivate);
    said := [];
    if route.ViaChannel? {
      said := ActivateTrace(cfg, s, c, w);
    } else if route.ViaThread? && w.root.Some? && w.root.value != "" {
      said := [RootPosted(route.monitor, w.root.value)];
    }
  }

  lemma PromoteTrace(cfg: Config, s: Sys, c: Case, w: World) returns (said: seq<Effect>)
    requires c.id in s.cases && s.cases[c.id] == c
    ensures var r := Promote(cfg, s, c, w);
            && r.sys.trace == s.trace + said && |said| <= 2
            && (forall e :: e in said ==>
                  (e.ChannelAsked? && cfg.slack && !cfg.ThreadMode())
                  || (e.RootPosted? && RouteFor(cfg, false).ViaThread? && e.channel == RouteFor(cfg, false).monitor)
                  || (IsCreated(e) && e.caseId == c.id && c.id in r.sys.cases && e.record == r.sys.cases[c.id]
                      && e.record.status == Open && (cfg.slack && NamesChannels(w) ==> e.record.channel != "")))
            && (|said| == 2 ==> !said[0].Published?)
  {
    said := [];
    if c.title != "" && cfg.Required() <= c.fields.Keys {
      var open := c.(status := Open, updatedAt := w.now);
      var (s1, flipped) := Put(s, open, w.update);
      if flipped {
        said := OpenDraftTrace(cfg, s1, open, w);
        var active := OpenDraft(cfg, s1, open, w);
        if active.result.Done? {
          said := said + [Published(c.id, CaseCreated, active.result.record)];
        }
      }
    }
  }

  lemma SubmitTrace(cfg: Config, s: Sys, call: Call) returns (said: seq<Effect>)
    requires WellFormed(s) && call.op.OpSubmitDraft?
    ensures Speaks(cfg, s, call, Step(cfg, s, call).sys, said)
  {
    said := [];
    var draft := GetDraft(s, call.op.id, call.who);
    if draft.Done? {
      PreSubmitShape(s, draft.record, call.op.patch, call.w);
      var edited := PreSubmit(s, draft.record, call.op.patch, call.w);
      assert edited.sys.trace == s.trace;
      if edited.result.Done? {
        said := PromoteTrace(cfg, edited.sys, edited.result.record, call.w);
      }
    }
  }

  lemma CloseTrace(cfg: Config, s: Sys, call: Call) returns (said: seq<Effect>)
    requires WellFormed(s) && (call.op.OpCloseCase? || call.op.OpReopenCase?)
    ensures Speaks(cfg, s, call, Step(cfg, s, call).sys, said)
    ensures Reports(s, call, Step(cfg, s, call).sys, said)
  {
    var id, s' := call.op.id, Step(cfg, s, call).sys;
    said := if s'.trace == s.trace then [] else [Published(id, CaseClosed, s'.cases[id])];
  }

  lemma BoardTrace(cfg: Config, s: Sys, call: Call) returns (said: seq<Effect>)
    requires WellFormed(s) && call.op.OpUpdateCaseStatus?
    ensures Speaks(cfg, s, call, Step(cfg, s, call).sys, said)
    ensures Reports(s, call, Step(cfg, s, call).sys, said)
  {
    var id, s' := call.op.id, Step(cfg, s, call).sys;
    said := if s'.trace == s.trace then [] else [Published(id, CaseClosed, s'.cases[id])];
  }

  lemma UpdateTrace(cfg: Config, s: Sys, call: Call) returns (said: seq<Effect>)
    requires WellFormed(s) && call.op.OpUpdateCase?
    ensures Speaks(cfg, s, call, Step(cfg, s, call).sys, said)
  {
    var id, s' := call.op.id, Step(cfg, s, call).sys;
    said := if s'.trace == s.trace then [] else [RenameAsked(s.cases[id].channel, call.op.edit.title.value)];
  }

  /** The effects of any call, and the report of every acknowledged closing. */
  lemma StepTrace(cfg: Config, s: Sys, call: Call) returns (said: seq<Effect>)
    requires WellFormed(s)
    ensures Speaks(cfg, s, call, Step(cfg, s, call).sys, said)
    ensures Reports(s, call, Step(cfg, s, call).sys, said)
  {
    said := [];
    match call.op {
      case OpCreateCase(n) =>
        if RouteFor(cfg, n.isPrivate).ViaChannel? {
          said := ChannelModeTrace(cfg, s, call);
        } else {
          said := ThreadModeTrace(cfg, s, call);
        }
      case OpCreateThreadBound(_, _, _, _, _) => said := ThreadModeTrace(cfg, s, call);
      case OpSubmitDraft(_, _) => said := SubmitTrace(cfg, s, call);
      case OpCloseCase(_) => said := CloseTrace(cfg, s, call);
      case OpReopenCase(_) => said := CloseTrace(cfg, s, call);
      case OpUpdateCaseStatus(_, _) => said := BoardTrace(cfg, s, call);
      case OpUpdateCase(_, _) => said := UpdateTrace(cfg, s, call);
      case _ => SilentTrace(cfg, s, call);
    }
    if !call.op.OpCloseCase? && !call.op.OpUpdateCaseStatus? {
      NothingCloses(cfg, s, call);
    }
  }

  lemma SilentTrace(cfg: Config, s: Sys, call: Call)
    requires call.op.OpCreateDraft? || call.op.OpDiscardDraft? || call.op.OpMaterialize? || call.op.OpReassign?
             || call.op.OpSyncMembers? || call.op.OpDeleteCase?
    ensures Step(cfg, s, call).sys.trace == s.trace
  {
  }

  lemma NothingCloses(cfg: Config, s: Sys, call: Call)
    requires WellFormed(s) && !call.op.OpCloseCase? && !call.op.OpUpdateCaseStatus?
    ensures forall id :: !Closes(s, Step(cfg, s, call).sys, id)
  {
    var k := StepShape(cfg, s, call);
  }
}
