/** CaseUseCase over its case store (pkg/usecase/case.go): each operation loads a record, assigns its fields and
    writes it back. The object keeps what every run of such calls keeps; each operation adds what its own caller may
    rely on. */
module CaseUseCase {
  import opened Cases
  import opened CaseSpec
  import opened CaseShape
  import opened CaseOutcomes
  import opened CasePromises
  import CaseLifecycle
  import CaseRollback
  import CaseRuns
  import CaseTheorems
  import Assignees

  function DeleteOf(deletes: map<int, Write>, a: int): Write {
    if a in deletes then deletes[a] else Acked
  }

  /** The actions of the case are listed, and each deletion is acknowledged. */
  predicate Cascades(actions: map<int, int>, id: int, listed: bool, deletes: map<int, Write>) {
    listed && forall a :: a in actions && actions[a] == id ==> DeleteOf(deletes, a).Acked?
  }

  lemma SomethingIn(ids: set<int>)
    ensures ids == {} || exists id :: id in ids
  {
    if forall id :: id !in ids {
      assert ids == {};
    }
  }

  /** Actions of the case may be gone; those of other cases are as before. */
  predicate OnlyOf(before: map<int, int>, after: map<int, int>, id: int) {
    (forall a :: a in after ==> a in before && after[a] == before[a])
    && forall a :: a in before && before[a] != id ==> a in after
  }

  class UseCase {
    const cfg: Config
    var cases: map<int, Case>
    var nextId: int
    var trace: seq<Effect>
    /** The case each action is under, archived ones included. */
    var actions: map<int, int>
    /** What the calls so far have had in common. */
    ghost var conduct: CaseRuns.Conduct

    constructor (cfg: Config)
      ensures this.cfg == cfg && Valid() && State() == EMPTY && NoOrphans() && conduct == CaseRuns.BLAMELESS
    {
      this.cfg := cfg;
      cases, nextId, trace, actions, conduct := map[], 1, [], map[], CaseRuns.BLAMELESS;
    }

    ghost function State(): Sys
      reads this
    {
      Sys(cases, nextId, trace)
    }

    /** The invariants of every run, each under its own condition on the calls made. */
    ghost predicate Valid()
      reads this
    {
      CaseRuns.Kept(cfg, conduct, State())
    }

    /** Every action is under a stored case. */
    ghost predicate NoOrphans()
      reads this
    {
      NoneOrphaned(actions, cases)
    }

    ghost function Next(call: Call): CaseRuns.Conduct
      reads this
    {
      CaseRuns.After(cfg, conduct, State(), call)
    }

    /** A call is made that leads to `next`: the invariants hold there, and its answer shows what is stored there. */
    ghost method Begin(call: Call, next: Reply)
      requires Valid() && next == Step(cfg, State(), call)
      modifies this`conduct
      ensures conduct == old(Next(call))
      ensures CaseRuns.Kept(cfg, conduct, next.sys)
      ensures Answers(State(), next, Removes(call.op))
    {
      CaseRuns.EveryCallKeeps(cfg, conduct, State(), call);
      EveryAnswerIsStored(cfg, State(), call);
      conduct := Next(call);
    }

    // ----- Repository and publisher -----

    method RepoUpdate(c: Case, w: Write) returns (ok: bool)
      modifies this`cases
      ensures (State(), ok) == Put(old(State()), c, w)
    {
      if w.Lost? || c.id !in cases {
        return false;
      }
      cases := cases[c.id := c];
      return w.Acked?;
    }

    method RepoCreate(c: Case, w: Write) returns (created: Option<Case>)
      modifies this`cases, this`nextId
      ensures (State(), created) == Add(old(State()), c, w)
    {
      if (c.threadTS == "" && c.reporter == "") || w.Lost? {
        return None;
      }
      var stored := c.(id := nextId);
      nextId := nextId + 1;
      cases := cases[stored.id := stored];
      return if w.Acked? then Some(stored) else None;
    }

    method RepoDelete(id: int, w: Write)
      modifies this`cases
      ensures State() == Drop(old(State()), id, w)
    {
      if !w.Lost? {
        cases := cases - {id};
      }
    }

    /** An action is created under a stored case. */
    method RepoCreateAction(action: int, caseId: int)
      requires caseId in cases
      modifies this`actions
      ensures actions == old(actions)[action := caseId]
      ensures old(NoOrphans()) ==> NoOrphans()
    {
      actions := actions[action := caseId];
    }

    method Emit(e: Effect)
      modifies this`trace
      ensures State() == Log(old(State()), e)
    {
      trace := trace + [e];
    }

    // ----- Creation -----

    method PersistCase(in_: NewCase, status: CaseStatus, who: Actor, w: World) returns (r: Result)
      modifies this`cases, this`nextId
      ensures Reply(State(), r) == Persist(cfg, old(State()), in_, status, who, w)
    {
      if status != Draft && in_.title == "" {
        return Refused(TitleRequired);
      }
      if in_.isPrivate {
        if cfg.registry.UnknownWorkspace? {
          return Refused(WorkspaceUnknown);
        }
        if cfg.ThreadMode() {
          return Refused(PrivateThreadUnsupported);
        }
      }
      if in_.requestKey != "" && w.keyLookup {
        var existing := FindByKey(cases, in_.requestKey, nextId);
        if existing.Some? {
          return Done(existing.value);
        }
      }
      if w.validated.None? {
        return Refused(Validation);
      }
      var c := Case(0, in_.title, in_.description, status, ReporterOf(who), in_.assignees, "", "", "",
                    in_.isPrivate, in_.isTest, [], w.validated.value, in_.requestKey, w.now);
      var created := RepoCreate(c, w.create);
      r := if created.Some? then Done(created.value) else Refused(WriteFailed);
    }

    method ActivateChannelModeCase(c0: Case, w: World) returns (r: Result)
      modifies this`cases, this`trace
      ensures Reply(State(), r) == Activate(cfg, old(State()), c0, w)
    {
      if !cfg.slack {
        return Done(c0);
      }
      if cfg.ThreadMode() {
        return Refused(ChannelOnThreadWorkspace);
      }
      Emit(ChannelAsked(c0.id, w.channel));
      if w.channel.None? {
        return Refused(SlackFailed);
      }
      var c := c0.(channel := w.channel.value);
      c := c.(channelUsers := if w.members.Some? then w.members.value else []);
      c := c.(updatedAt := w.now);
      var ok := RepoUpdate(c, w.activate);
      r := if ok then Done(c) else Refused(WriteFailed);
    }

    method CreateChannelModeCase(in_: NewCase, who: Actor, w: World) returns (r: Result)
      modifies this`cases, this`nextId, this`trace
      ensures Reply(State(), r) == CreateChannelMode(cfg, old(State()), in_, who, w)
    {
      r := PersistCase(in_, Open, who, w);
      if r.Refused? {
        return;
      }
      var created := r.record;
      if created.status != Open || created.channel != "" {
        return;
      }
      r := ActivateChannelModeCase(created, w);
      if r.Refused? {
        RepoDelete(created.id, w.delete);
        return;
      }
      Emit(Published(created.id, CaseCreated, r.record));
    }

    method BindNewThread(channel: string, ts: string, reporter: string,
                         title: string, description: string, key: string, w: World) returns (r: Result)
      modifies this`cases, this`nextId, this`trace
      ensures Reply(State(), r)
              == CreateThreadBound(cfg, old(State()), channel, ts, reporter, title, description, key, w)
    {
      if channel == "" || ts == "" {
        return Refused(Validation);
      }
      if !w.threadLookup {
        return Refused(LookupFailed);
      }
      var existing := FindByThread(cases, channel, ts, nextId);
      if existing.Some? {
        return Done(existing.value);
      }
      if w.validated.None? {
        return Refused(Validation);
      }
      var c := Case(0, title, description, Open, reporter, [], "", "", "", false, false, [], w.validated.value, key,
                    w.now);
      c := Bind(cfg, c, channel, ts, w.now);
      var created := RepoCreate(c, w.create);
      if created.None? {
        return Refused(WriteFailed);
      }
      Emit(Published(created.value.id, CaseCreated, created.value));
      return Done(created.value);
    }

    method CreateThreadModeCase(monitor: string, in_: NewCase, who: Actor, w: World) returns (r: Result)
      modifies this`cases, this`nextId, this`trace
      ensures Reply(State(), r) == CreateThreadMode(cfg, old(State()), monitor, in_, who, w)
    {
      if in_.title == "" {
        return Refused(TitleRequired);
      }
      if in_.requestKey != "" && w.keyLookup {
        var existing := FindByKey(cases, in_.requestKey, nextId);
        if existing.Some? {
          return Done(existing.value);
        }
      }
      if !w.gate {
        return Refused(Validation);
      }
      if w.root.None? || w.root.value == "" {
        return Refused(SlackFailed);
      }
      Emit(RootPosted(monitor, w.root.value));
      r := BindNewThread(monitor, w.root.value, ReporterOf(who), in_.title, in_.description, in_.requestKey, w);
    }

    lemma CreationPromises(s: Sys, under: map<int, int>, in_: NewCase, who: Actor, w: World)
      requires WellFormed(s)
      ensures var r := CaseSpec.CreateCase(cfg, s, in_, who, w);
              && (r.result.Refused? ==> (r.sys.cases == s.cases <==> !LeavesTrace(cfg, s, in_, who, w)))
              && CreatesAsAsked(cfg, s, r, in_, who, w)
              && (NoneOrphaned(under, s.cases) ==>
                    (NoneOrphaned(under, r.sys.cases) <==> !OrphansKnown(cfg, s, under, in_, who, w)))
    {
      var r := CaseSpec.CreateCase(cfg, s, in_, who, w);
      CreationIs(cfg, s, in_, who, w);
      if r.result.Refused? {
        FailedCreateIsAtomicExactlyWhen(cfg, s, in_, who, w);
      }
      if NoneOrphaned(under, s.cases) {
        CreationOrphansExactlyWhen(cfg, s, under, in_, who, w);
      }
    }

    method CreateCase(in_: NewCase, who: Actor, w: World) returns (r: Result)
      requires Valid()
      modifies this`cases, this`nextId, this`trace, this`conduct
      ensures Valid() && conduct == old(Next(Call(OpCreateCase(in_), who, w)))
      ensures Reply(State(), r) == CaseSpec.CreateCase(cfg, old(State()), in_, who, w)
      ensures Answers(old(State()), Reply(State(), r), false)
      ensures r.Refused? ==> (cases == old(cases) <==> !LeavesTrace(cfg, old(State()), in_, who, w))
      ensures CreatesAsAsked(cfg, old(State()), Reply(State(), r), in_, who, w)
      ensures old(NoOrphans()) ==>
                (NoOrphans() <==> !OrphansKnown(cfg, old(State()), old(actions), in_, who, w))
    {
      Begin(Call(OpCreateCase(in_), who, w), CaseSpec.CreateCase(cfg, State(), in_, who, w));
      CreationPromises(State(), actions, in_, who, w);
      var route := RouteFor(cfg, in_.isPrivate);
      match route
      case NoRoute(err) => r := Refused(err);
      case ViaChannel => r := CreateChannelModeCase(in_, who, w);
      case ViaThread(monitor) => r := CreateThreadModeCase(monitor, in_, who, w);
    }

    method CreateDraft(in_: NewCase, who: Actor, w: World) returns (r: Result)
      requires Valid()
      modifies this`cases, this`nextId, this`trace, this`conduct
      ensures Valid() && conduct == old(Next(Call(OpCreateDraft(in_), who, w)))
      ensures Reply(State(), r) == CaseSpec.CreateDraft(cfg, old(State()), in_, who, w)
      ensures Answers(old(State()), Reply(State(), r), false)
      ensures DraftStored(cfg, old(State()), Reply(State(), r), in_, who, w)
    {
      Begin(Call(OpCreateDraft(in_), who, w), CaseSpec.CreateDraft(cfg, State(), in_, who, w));
      DraftsAreStored(cfg, State(), in_, who, w);
      r := PersistCase(in_.(requestKey := ""), Draft, who, w);
    }

    /** threadcaseHost.CreateCase commits a finished create turn: one case a thread, however often it is called. */
    method CreateCaseOfTurn(channel: string, ts: string, reporter: string, title: string, description: string,
                            w: World) returns (r: Result)
      requires Valid()
      modifies this`cases, this`nextId, this`trace, this`conduct
      ensures Valid()
      ensures conduct == old(Next(Call(OpCreateThreadBound(channel, ts, reporter, title, description), System, w)))
      ensures Reply(State(), r)
              == CreateThreadBound(cfg, old(State()), channel, ts, reporter, title, description, "", w)
      ensures Answers(old(State()), Reply(State(), r), false)
      ensures CreatesForThread(cfg, old(State()), Reply(State(), r), channel, ts, reporter, title, description, w)
      ensures r.Done? && CaseTheorems.ThreadsDistinct(old(State())) ==>
                forall id :: id in cases && cases[id].channel == channel && cases[id].threadTS == ts ==>
                    id == r.record.id
    {
      Begin(Call(OpCreateThreadBound(channel, ts, reporter, title, description), System, w),
            CreateThreadBound(cfg, State(), channel, ts, reporter, title, description, "", w));
      ThreadCaseIs(cfg, State(), channel, ts, reporter, title, description, w);
      r := BindNewThread(channel, ts, reporter, title, description, "", w);
    }

    // ----- Drafts -----

    method LoadDraft(id: int, who: Actor) returns (r: Result)
      ensures r == GetDraft(State(), id, who)
    {
      if id !in cases {
        return Refused(NotFound);
      }
      var c := cases[id];
      if !c.IsDraft() {
        return Refused(NotDraft);
      }
      if c.isPrivate && (who.System? || c.reporter != who.sub) {
        return Refused(NotFound);
      }
      return Done(c);
    }

    method PreSubmitEdits(c0: Case, patch: Option<Patch>, w: World) returns (r: Result)
      modifies this`cases
      ensures Reply(State(), r) == PreSubmit(old(State()), c0, patch, w)
    {
      if patch.None? {
        return Done(c0);
      }
      if patch.value.fields.Some? && w.validated.None? {
        return Refused(Validation);
      }
      if !w.usersKnown {
        return Refused(Validation);
      }
      var c := ApplyPatch(c0, patch.value, w);
      c := c.(updatedAt := w.now);
      var ok := RepoUpdate(c, w.patch);
      r := if ok then Done(c) else Refused(WriteFailed);
    }

    static method ApplyPatch(c0: Case, p: Patch, w: World) returns (c: Case)
      requires p.fields.Some? ==> w.validated.Some?
      ensures c == Patched(c0, p, if w.validated.Some? then w.validated.value else map[])
    {
      c := c0;
      if p.title.Some? {
        c := c.(title := p.title.value);
      }
      if p.description.Some? {
        c := c.(description := p.description.value);
      }
      if p.isTest.Some? {
        c := c.(isTest := p.isTest.value);
      }
      if p.fields.Some? {
        c := c.(fields := c.fields + w.validated.value);
      }
    }

    method ActivateDraft(c: Case, w: World) returns (r: Result)
      modifies this`cases, this`trace
      ensures Reply(State(), r) == OpenDraft(cfg, old(State()), c, w)
    {
      var route := RouteFor(cfg, c.isPrivate);
      match route
      case NoRoute(err) => r := Refused(err);
      case ViaChannel => r := ActivateChannelModeCase(c, w);
      case ViaThread(monitor) =>
        if w.root.None? || w.root.value == "" {
          return Refused(SlackFailed);
        }
        Emit(RootPosted(monitor, w.root.value));
        var bound := Bind(cfg, c, monitor, w.root.value, w.now);
        var ok := RepoUpdate(bound, w.activate);
        r := if ok then Done(bound) else Refused(WriteFailed);
    }

    method RollBackDraft(snapshot: Case, w: World)
      modifies this`cases
      ensures State() == RollBack(old(State()), snapshot, w)
    {
      if w.rollbackRead && snapshot.id in cases {
        var rolled := cases[snapshot.id];
        rolled := rolled.(status := Draft);
        rolled := rolled.(channel := snapshot.channel);
        rolled := rolled.(threadTS := snapshot.threadTS);
        rolled := rolled.(board := snapshot.board);
        rolled := rolled.(updatedAt := w.now);
        var _ := RepoUpdate(rolled, w.rollback);
      }
    }

    method SubmitDraft(id: int, patch: Option<Patch>, who: Actor, w: World) returns (r: Result)
      requires Valid()
      modifies this`cases, this`nextId, this`trace, this`conduct
      ensures Valid() && conduct == old(Next(Call(OpSubmitDraft(id, patch), who, w)))
      ensures Reply(State(), r) == CaseSpec.SubmitDraft(cfg, old(State()), id, patch, who, w)
      ensures Answers(old(State()), Reply(State(), r), false)
      ensures SubmitsAsAsked(cfg, old(State()), Reply(State(), r), id, patch, who, w)
    {
      Begin(Call(OpSubmitDraft(id, patch), who, w), CaseSpec.SubmitDraft(cfg, State(), id, patch, who, w));
      SubmissionIs(cfg, State(), id, patch, who, w);
      r := LoadDraft(id, who);
      if r.Refused? {
        return;
      }
      r := PreSubmitEdits(r.record, patch, w);
      if r.Refused? {
        return;
      }
      r := PromoteDraft(r.record, w);
    }

    method PromoteDraft(c0: Case, w: World) returns (r: Result)
      modifies this`cases, this`trace
      ensures Reply(State(), r) == Promote(cfg, old(State()), c0, w)
    {
      var c := c0;
      if c.title == "" {
        return Refused(TitleRequired);
      }
      if !(cfg.Required() <= c.fields.Keys) {
        return Refused(MissingRequired);
      }
      c := c.(status := Open, updatedAt := w.now);
      var flipped := RepoUpdate(c, w.update);
      if !flipped {
        return Refused(WriteFailed);
      }
      r := ActivateDraft(c, w);
      if r.Refused? {
        RollBackDraft(c, w);
        return Refused(ActivationFailed(r.err));
      }
      Emit(Published(c.id, CaseCreated, r.record));
    }

    method DiscardDraft(id: int, who: Actor, w: World) returns (r: Result)
      requires Valid()
      modifies this`cases, this`nextId, this`trace, this`conduct
      ensures Valid() && conduct == old(Next(Call(OpDiscardDraft(id), who, w)))
      ensures Reply(State(), r) == CaseSpec.DiscardDraft(old(State()), id, who, w)
      ensures Answers(old(State()), Reply(State(), r), true)
      ensures r.Done? <==> id in old(cases) && old(cases)[id].IsDraft() && w.delete.Acked?
                           && (old(cases)[id].isPrivate ==> who == Member(old(cases)[id].reporter))
      ensures cases == old(cases) || (cases == old(cases) - {id} && old(cases)[id].IsDraft())
      ensures old(NoOrphans()) ==>
                (NoOrphans() <==> cases == old(cases) || forall a :: a in actions ==> actions[a] != id)
      ensures trace == old(trace)
    {
      Begin(Call(OpDiscardDraft(id), who, w), CaseSpec.DiscardDraft(State(), id, who, w));
      r := LoadDraft(id, who);
      if r.Done? {
        RepoDelete(id, w.delete);
        if !w.delete.Acked? {
          r := Refused(WriteFailed);
        }
      }
    }

    // ----- Edits -----

    method LoadForWrite(id: int, who: Actor) returns (r: Result)
      ensures r == Load(State(), id, who)
    {
      if id !in cases {
        return Refused(NotFound);
      }
      return if MayWrite(cases[id], who) then Done(cases[id]) else Refused(AccessDenied);
    }

    method WriteBack(c: Case, w: Write) returns (r: Result)
      modifies this`cases
      ensures Reply(State(), r) == Store(old(State()), c, w)
    {
      var ok := RepoUpdate(c, w);
      r := if ok then Done(c) else Refused(WriteFailed);
    }

    method UpdateCase(id: int, p: Patch, who: Actor, w: World) returns (r: Result)
      requires Valid()
      modifies this`cases, this`nextId, this`trace, this`conduct
      ensures Valid() && conduct == old(Next(Call(OpUpdateCase(id, p), who, w)))
      ensures Reply(State(), r) == CaseSpec.UpdateCase(cfg, old(State()), id, p, who, w)
      ensures Answers(old(State()), Reply(State(), r), false)
      ensures UpdatesAsAsked(cfg, old(State()), Reply(State(), r), id, p, who, w)
      ensures r.Refused? && !w.update.AppliedUnacked? ==> cases == old(cases)
    {
      Begin(Call(OpUpdateCase(id, p), who, w), CaseSpec.UpdateCase(cfg, State(), id, p, who, w));
      UpdateIs(cfg, State(), id, p, who, w);
      if CaseSpec.UpdateCase(cfg, State(), id, p, who, w).result.Refused? && !w.update.AppliedUnacked? {
        RefusedUpdate(cfg, State(), id, p, who, w);
      }
      r := LoadForWrite(id, who);
      if r.Refused? {
        return;
      }
      var c := r.record;
      if p.title == Some("") && !c.IsDraft() {
        return Refused(TitleRequired);
      }
      if p.fields.Some? && w.validated.None? {
        return Refused(Validation);
      }
      r := RewriteCase(c, p, w);
    }

    method RewriteCase(c0: Case, p: Patch, w: World) returns (r: Result)
      requires p.fields.Some? ==> w.validated.Some?
      modifies this`cases, this`trace
      ensures Reply(State(), r) == Rewrite(cfg, old(State()), c0, p, w)
    {
      if RenamesChannel(cfg, c0, p) {
        Emit(RenameAsked(c0.channel, p.title.value));
        if !w.rename {
          return Refused(SlackFailed);
        }
      }
      var c := ApplyPatch(c0, p, w);
      c := c.(updatedAt := w.now);
      r := WriteBack(c, w.update);
    }

    method MaterializeThreadCase(id: int, title: string, description: string,
                                 fields: map<string, FieldValue>, w: World) returns (r: Result)
      requires Valid()
      modifies this`cases, this`nextId, this`trace, this`conduct
      ensures Valid() && conduct == old(Next(Call(OpMaterialize(id, title, description, fields), System, w)))
      ensures Reply(State(), r) == Materialize(old(State()), id, title, description, fields, w)
      ensures Answers(old(State()), Reply(State(), r), false)
      ensures r.Done? <==> id in old(cases) && (fields != map[] ==> w.validated.Some?) && w.update.Acked?
      ensures r.Done? ==>
                var b := old(cases)[id];
                Edited(old(State()), State(), b.(title := r.record.title, description := r.record.description,
                                                 fields := r.record.fields, updatedAt := w.now))
                && r.record.title == (if title == "" then b.title else title)
                && r.record.description == (if description == "" then b.description else description)
                && b.fields.Keys <= r.record.fields.Keys && (fields == map[] ==> r.record.fields == b.fields)
      ensures trace == old(trace)
    {
      Begin(Call(OpMaterialize(id, title, description, fields), System, w),
            Materialize(State(), id, title, description, fields, w));
      if id !in cases {
        return Refused(NotFound);
      }
      var c := cases[id];
      r := FillIn(c, title, description, fields, w);
      if r.Refused? {
        return;
      }
      c := r.record.(updatedAt := w.now);
      r := WriteBack(c, w.update);
    }

    static method FillIn(c0: Case, title: string, description: string,
                         fields: map<string, FieldValue>, w: World) returns (r: Result)
      ensures fields != map[] && w.validated.None? ==> r == Refused(Validation)
      ensures fields != map[] && w.validated.Some? ==> r == Done(Filled(c0, title, description, w.validated.value))
      ensures fields == map[] ==> r == Done(Filled(c0, title, description, map[]))
    {
      var c := c0;
      if title != "" {
        c := c.(title := title);
      }
      if description != "" {
        c := c.(description := description);
      }
      if fields != map[] {
        if w.validated.None? {
          return Refused(Validation);
        }
        c := c.(fields := c.fields + w.validated.value);
      }
      assert c0.fields + map[] == c0.fields;
      return Done(c);
    }

    method Reassign(id: int, assign: bool, users: seq<string>, who: Actor, w: World) returns (r: Result)
      requires Valid()
      modifies this`cases, this`nextId, this`trace, this`conduct
      ensures Valid() && conduct == old(Next(Call(OpReassign(id, assign, users), who, w)))
      ensures Reply(State(), r) == CaseSpec.Reassign(old(State()), id, assign, users, who, w)
      ensures Answers(old(State()), Reply(State(), r), false)
      ensures r.Done? <==> id in old(cases) && MayWrite(old(cases)[id], who)
                           && (users == [] || ((assign ==> w.usersKnown) && w.update.Acked?))
      ensures r.Done? && users != [] ==>
                id in old(cases) && MayWrite(old(cases)[id], who)
                && var b := old(cases)[id];
                   Edited(old(State()), State(), b.(assignees := r.record.assignees, updatedAt := r.record.updatedAt))
                   && Assignees.Named(r.record.assignees)
                      == (if assign then Assignees.Named(b.assignees) + Assignees.Named(users)
                          else Assignees.Named(b.assignees) - Assignees.Named(users))
                   && (r.record.assignees == b.assignees ==> r.record == b)
      ensures users == [] ==> cases == old(cases)
      ensures trace == old(trace)
    {
      Begin(Call(OpReassign(id, assign, users), who, w), CaseSpec.Reassign(State(), id, assign, users, who, w));
      r := LoadForWrite(id, who);
      if r.Refused? || |users| == 0 {
        return;
      }
      if assign && !w.usersKnown {
        return Refused(Validation);
      }
      var c := ChangeAssignees(r.record, assign, users, w.now);
      r := WriteBack(c, w.update);
    }

    static method ChangeAssignees(c0: Case, assign: bool, users: seq<string>, now: int) returns (c: Case)
      ensures c == Regrouped(c0, assign, users, now)
    {
      var after, changed;
      if assign {
        after, changed := Assignees.AssignUsers(c0.assignees, users);
      } else {
        after, changed := Assignees.UnassignUsers(c0.assignees, users);
      }
      c := c0.(assignees := after);
      if changed {
        c := c.(updatedAt := now);
      }
    }

    method SyncCaseChannelUsers(id: int, who: Actor, w: World) returns (r: Result)
      requires Valid()
      modifies this`cases, this`nextId, this`trace, this`conduct
      ensures Valid() && conduct == old(Next(Call(OpSyncMembers(id), who, w)))
      ensures Reply(State(), r) == SyncMembers(cfg, old(State()), id, who, w)
      ensures Answers(old(State()), Reply(State(), r), false)
      ensures r.Done? <==> id in old(cases) && MayWrite(old(cases)[id], who) && old(cases)[id].channel != ""
                           && cfg.slack && w.members.Some? && w.update.Acked?
      ensures r.Done? ==> Edited(old(State()), State(),
                                 old(cases)[id].(channelUsers := w.members.value, updatedAt := w.now))
      ensures r.Done? && r.record.isPrivate && !r.record.IsDraft() ==>
                forall sub :: MayWrite(r.record, Member(sub)) <==> sub in w.members.value
      ensures trace == old(trace)
    {
      Begin(Call(OpSyncMembers(id), who, w), SyncMembers(cfg, State(), id, who, w));
      r := LoadForWrite(id, who);
      if r.Refused? {
        return;
      }
      var c := r.record;
      if c.channel == "" {
        return Refused(NoChannel);
      }
      if !cfg.slack || w.members.None? {
        return Refused(SlackFailed);
      }
      c := c.(channelUsers := w.members.value, updatedAt := w.now);
      r := WriteBack(c, w.update);
    }

    /** The actions go first, and the case only when they are all gone, so a deletion leaves no action without a
        case. */
    method DeleteCase(id: int, who: Actor, w0: World, listed: bool, deletes: map<int, Write>) returns (r: Result)
      requires Valid()
      modifies this
      ensures var w := w0.(cascade := Cascades(old(actions), id, listed, deletes));
              Valid() && conduct == old(Next(Call(OpDeleteCase(id), who, w)))
              && Reply(State(), r) == CaseSpec.DeleteCase(old(State()), id, who, w)
      ensures Answers(old(State()), Reply(State(), r), true)
      ensures r.Done? <==> id in old(cases) && MayWrite(old(cases)[id], who)
                           && Cascades(old(actions), id, listed, deletes) && w0.delete.Acked?
      ensures nextId == old(nextId)
      ensures cases == old(cases)
              || (cases == old(cases) - {id} && MayWrite(old(cases)[id], who) && forall a :: a in actions ==>
                    actions[a] != id)
      ensures old(NoOrphans()) ==> NoOrphans()
      ensures actions == old(actions) || (id in old(cases) && MayWrite(old(cases)[id], who))
      ensures OnlyOf(old(actions), actions, id)
      ensures trace == old(trace)
    {
      ghost var w := w0.(cascade := Cascades(actions, id, listed, deletes));
      Begin(Call(OpDeleteCase(id), who, w), CaseSpec.DeleteCase(State(), id, who, w));
      r := LoadForWrite(id, who);
      if r.Refused? {
        return;
      }
      var ok := DeleteActions(id, listed, deletes);
      if !ok {
        return Refused(WriteFailed);
      }
      RepoDelete(id, w0.delete);
      if !w0.delete.Acked? {
        r := Refused(NotFound);
      }
    }

    /** One after the other, up to the first that fails. */
    method DeleteActions(id: int, listed: bool, deletes: map<int, Write>) returns (ok: bool)
      modifies this`actions
      ensures ok <==> Cascades(old(actions), id, listed, deletes)
      ensures ok ==> forall a :: a in actions ==> actions[a] != id
      ensures OnlyOf(old(actions), actions, id)
    {
      if !listed {
        return false;
      }
      var pending: set<int> := set a | a in actions && actions[a] == id;
      while pending != {}
        invariant OnlyOf(old(actions), actions, id)
        invariant forall a :: a in pending ==> a in old(actions) && old(actions)[a] == id
        invariant forall a :: a in actions && actions[a] == id ==> a in pending
        invariant forall a :: a in old(actions) && old(actions)[a] == id && a !in pending ==>
                    DeleteOf(deletes, a).Acked?
      {
        SomethingIn(pending);
        var a :| a in pending;
        pending := pending - {a};
        var w := DeleteOf(deletes, a);
        if !w.Lost? {
          actions := actions - {a};
        }
        if !w.Acked? {
          return false;
        }
      }
      return true;
    }

    // ----- Lifecycle -----

    method CloseCase(id: int, who: Actor, w: World) returns (r: Result)
      requires Valid()
      modifies this`cases, this`nextId, this`trace, this`conduct
      ensures Valid() && conduct == old(Next(Call(OpCloseCase(id), who, w)))
      ensures Reply(State(), r) == CaseSpec.CloseCase(old(State()), id, who, w)
      ensures Answers(old(State()), Reply(State(), r), false)
      ensures r.Done? <==> id in old(cases) && MayWrite(old(cases)[id], who) && !old(cases)[id].IsThreadBound()
                           && !old(cases)[id].IsDraft() && !old(cases)[id].IsClosed() && w.update.Acked?
      ensures r.Done? ==> Edited(old(State()), State(), old(cases)[id].(status := Closed, updatedAt := w.now))
      ensures trace == old(trace) + if r.Done? then [Published(id, CaseClosed, cases[id])] else []
      ensures id in old(cases) && MayWrite(old(cases)[id], who) ==>
                (old(cases)[id].IsThreadBound() ==> r == Refused(UseBoardStatus))
                && (!old(cases)[id].IsThreadBound() && old(cases)[id].IsDraft() ==> r == Refused(IsADraft))
                && (!old(cases)[id].IsThreadBound() && old(cases)[id].IsClosed() ==> r == Refused(AlreadyClosed))
    {
      Begin(Call(OpCloseCase(id), who, w), CaseSpec.CloseCase(State(), id, who, w));
      r := LoadForWrite(id, who);
      if r.Refused? {
        return;
      }
      var c := r.record;
      if c.IsThreadBound() {
        return Refused(UseBoardStatus);
      }
      var status := c.status.Normalize();
      if status == Draft {
        return Refused(IsADraft);
      }
      if status == Closed {
        return Refused(AlreadyClosed);
      }
      c := c.(status := Closed, updatedAt := w.now);
      r := WriteBack(c, w.update);
      if r.Done? {
        Emit(Published(id, CaseClosed, c));
      }
    }

    method ReopenCase(id: int, who: Actor, w: World) returns (r: Result)
      requires Valid()
      modifies this`cases, this`nextId, this`trace, this`conduct
      ensures Valid() && conduct == old(Next(Call(OpReopenCase(id), who, w)))
      ensures Reply(State(), r) == CaseSpec.ReopenCase(old(State()), id, who, w)
      ensures Answers(old(State()), Reply(State(), r), false)
      ensures r.Done? <==> id in old(cases) && MayWrite(old(cases)[id], who) && !old(cases)[id].IsThreadBound()
                           && old(cases)[id].IsClosed() && w.update.Acked?
      ensures r.Done? ==> Edited(old(State()), State(), old(cases)[id].(status := Open, updatedAt := w.now))
      ensures trace == old(trace)
    {
      Begin(Call(OpReopenCase(id), who, w), CaseSpec.ReopenCase(State(), id, who, w));
      r := LoadForWrite(id, who);
      if r.Refused? {
        return;
      }
      var c := r.record;
      if c.IsThreadBound() {
        return Refused(UseBoardStatus);
      }
      var status := c.status.Normalize();
      if status == Draft {
        return Refused(IsADraft);
      }
      if status == Open {
        return Refused(AlreadyOpen);
      }
      c := c.(status := Open, updatedAt := w.now);
      r := WriteBack(c, w.update);
    }

    method UpdateCaseStatus(id: int, board: string, who: Actor, w: World) returns (r: Result)
      requires Valid()
      modifies this`cases, this`nextId, this`trace, this`conduct
      ensures Valid() && conduct == old(Next(Call(OpUpdateCaseStatus(id, board), who, w)))
      ensures Reply(State(), r) == CaseSpec.UpdateCaseStatus(cfg, old(State()), id, board, who, w)
      ensures Answers(old(State()), Reply(State(), r), false)
      ensures MovesAsAsked(cfg, old(State()), Reply(State(), r), id, board, who, w)
    {
      Begin(Call(OpUpdateCaseStatus(id, board), who, w), CaseSpec.UpdateCaseStatus(cfg, State(), id, board, who, w));
      MoveIs(cfg, State(), id, board, who, w);
      var columns := cfg.Columns();
      if columns.None? {
        return Refused(NoColumns);
      }
      if board !in columns.value.ids {
        return Refused(UnknownColumn);
      }
      r := LoadForWrite(id, who);
      if r.Refused? {
        return;
      }
      r := MoveToColumn(r.record, columns.value, board, w);
    }

    method MoveToColumn(c0: Case, columns: StatusSet, board: string, w: World) returns (r: Result)
      modifies this`cases, this`trace
      ensures Reply(State(), r) == Move(old(State()), c0, columns, board, w)
    {
      var c := c0;
      var wasClosed := c.status.Normalize() == Closed;
      c := c.(board := board);
      c := c.SyncLifecycle(columns);
      c := c.(updatedAt := w.now);
      r := WriteBack(c, w.update);
      if r.Done? && !wasClosed && c.status.Normalize() == Closed {
        Emit(Published(c.id, CaseClosed, c));
      }
    }
  }
}
