/** ActionUseCase over its action store and event log (pkg/usecase/action.go). Whatever it is asked to do, the log of an
    action tells its record unless a call has hidden a change of that very action. */
module ActionUseCase {
  import opened Cases
  import opened Actions
  import opened ActionHistory
  import opened ActionPromises

  /** The actions the call hides a change of: none, or the one it is about. */
  ghost function HiddenBy(cfg: Settings, s: Sys, call: Call): (ids: set<int>)
    ensures forall id :: id in ids <==> Hides(cfg, s, call, id)
    ensures !call.op.OpCreate? ==> ids <= {call.op.id}
  {
    var id := if call.op.OpCreate? then s.nextId else call.op.id;
    if Hides(cfg, s, call, id) then {id} else {}
  }

  lemma StepIsKeyed(cfg: Settings, s: Sys, call: Call)
    requires Keyed(s)
    ensures Keyed(Step(cfg, s, call).sys)
  {
    if s.nextId in s.actions {
      assert false;
    }
    LogAgreesExactlyWhen(cfg, s, call, s.nextId);
  }

  /** A batch that goes on after some actions were archived. */
  function Resumed(archived: seq<Action>, rest: Bulk): Bulk {
    rest.(archived := if rest.failed.Some? then [] else archived + rest.archived)
  }

  lemma ResumedTwice(archived: seq<Action>, a: Action, rest: Bulk)
    ensures Resumed(archived, Resumed([a], rest)) == Resumed(archived + [a], rest)
  {
    assert archived + ([a] + rest.archived) == archived + [a] + rest.archived;
  }

  lemma BulkUnfolds(s: Sys, ids: seq<(int, Env)>, who: Caller)
    requires ids != []
    ensures var first := SetArchived(s, ids[0].0, true, who, ids[0].1);
            BulkArchive(s, ids, who)
            == if first.result == Refused(IsArchived) then BulkArchive(first.sys, ids[1..], who)
               else if first.result.Refused? then Bulk(first.sys, [], Some(first.result.why))
               else Resumed([first.result.record], BulkArchive(first.sys, ids[1..], who))
  {
  }

  class UseCase {
    const cfg: Settings
    var actions: map<int, Action>
    var nextId: int
    var events: seq<Event>
    ghost var born: map<int, Action>
    /** The actions of which some call stored a change without its event. */
    ghost var hidden: set<int>

    constructor (cfg: Settings)
      ensures this.cfg == cfg && Valid() && State() == EMPTY && hidden == {}
    {
      this.cfg := cfg;
      actions, nextId, events, born, hidden := map[], 1, [], map[], {};
    }

    /** Every other action's log tells its record. */
    ghost predicate Valid()
      reads this
    {
      Keyed(State()) && forall id :: id !in hidden ==> Agrees(State(), id)
    }

    /** A call is made that leads to `next`. */
    ghost method Begin(call: Call, next: Sys)
      requires Valid() && next == Step(cfg, State(), call).sys
      modifies this`hidden
      ensures hidden == old(hidden) + HiddenBy(cfg, State(), call)
      ensures Keyed(next) && forall id :: id !in hidden ==> Agrees(next, id)
    {
      var more := HiddenBy(cfg, State(), call);
      forall id | id !in hidden + more
        ensures Agrees(next, id)
      {
        LogAgreesExactlyWhen(cfg, State(), call, id);
      }
      StepIsKeyed(cfg, State(), call);
      hidden := hidden + more;
    }

    ghost function State(): Sys
      reads this
    {
      Sys(actions, nextId, events, born)
    }

    method RepoUpdate(a: Action, w: Write) returns (ok: bool)
      modifies this`actions
      ensures (State(), ok) == Put(old(State()), a, w)
    {
      if w.Lost? || a.caseId == 0 || a.id !in actions {
        return false;
      }
      actions := actions[a.id := a];
      return w.Acked?;
    }

    method PutEvent(e: Event, lost: set<Kind>)
      modifies this`events
      ensures State() == Record(old(State()), e, lost)
    {
      if e.kind !in lost {
        events := events + [e];
      }
    }

    method RecordActionEvents(before: Action, after: Action, who: Caller, lost: set<Kind>)
      modifies this`events
      ensures State() == RecordChanges(old(State()), before, after, Author(who), lost)
    {
      var author := if who.slackUser.Some? then who.slackUser.value else "";
      if before.title != after.title {
        PutEvent(Event(after.id, TitleChanged, author, before.title, after.title), lost);
      }
      if before.status != after.status {
        PutEvent(Event(after.id, StatusChanged, author, before.status, after.status), lost);
      }
      if before.assignee != after.assignee {
        PutEvent(Event(after.id, AssigneeChanged, author, before.assignee, after.assignee), lost);
      }
    }

    method PostSlackMessageForAction(a0: Action, e: Env) returns (r: Result, a: Action)
      modifies this`actions
      ensures Reply(State(), r) == PostMessage(old(State()), a0, e.now, e.posted, e.second)
      ensures a == Stamped(a0, e)
    {
      a := a0;
      if e.posted.None? {
        return Refused(PostFailed), a;
      }
      if e.posted.value == "" {
        return Done(a), a;
      }
      a := a.(messageTS := e.posted.value);
      a := a.(updatedAt := e.now);
      var ok := RepoUpdate(a, e.second);
      r := if ok then Done(a) else Refused(NotSaved);
    }

    method CreateAction(caseId: int, title: string, description: string, assignee: string, messageTS: string,
                        status0: string, due: Option<int>, who: Caller, e: Env) returns (r: Result)
      requires Valid()
      modifies this
      ensures Valid()
      ensures hidden
              == old(hidden)
                 + HiddenBy(cfg, old(State()),
                            Call(OpCreate(caseId, title, description, assignee, messageTS, status0, due), who, e))
      ensures Reply(State(), r)
              == Create(cfg, old(State()), caseId, title, description, assignee, messageTS, status0, due, who, e)
      ensures CreatesAsAsked(cfg, old(State()), Reply(State(), r),
                             caseId, title, description, assignee, messageTS, status0, due, who, e)
    {
      Begin(Call(OpCreate(caseId, title, description, assignee, messageTS, status0, due), who, e),
            Create(cfg, State(), caseId, title, description, assignee, messageTS, status0, due, who, e).sys);
      CreationIs(cfg, State(), caseId, title, description, assignee, messageTS, status0, due, who, e);
      if title == "" {
        return Refused(TitleMissing);
      }
      if caseId !in e.cases {
        return Refused(CaseMissing);
      }
      var parent := e.cases[caseId];
      if !MayWrite(parent, TokenActor(who)) {
        return Refused(Denied);
      }
      if parent.IsThreadBound() {
        return Refused(ThreadCaseHasNoActions);
      }
      var status := status0;
      if status == "" {
        status := cfg.initial;
      }
      if status !in cfg.statuses {
        return Refused(InvalidStatus);
      }
      var a := Action(nextId, caseId, title, description, assignee, messageTS, status, due, None, e.now);
      r := AddAction(a, parent, who, e);
    }

    method AddAction(a0: Action, parent: Case, who: Caller, e: Env) returns (r: Result)
      requires a0.id == nextId
      modifies this`actions, this`nextId, this`events, this`born
      ensures Reply(State(), r) == Add(cfg, old(State()), a0, parent, who, e)
    {
      var a := a0;
      if e.save.Lost? || a.caseId == 0 {
        return Refused(NotSaved);
      }
      actions := actions[a.id := a];
      nextId := nextId + 1;
      born := born[a.id := a];
      if !e.save.Acked? {
        return Refused(NotSaved);
      }
      PutEvent(Event(a.id, Created, if who.token.Some? then who.token.value else "", "", a.title), e.lost);
      if cfg.slack && parent.channel != "" {
        var posted;
        posted, a := PostSlackMessageForAction(a, e);
      }
      return Done(a);
    }

    method PostSlackMessageToAction(id: int, who: Caller, e: Env) returns (r: Result)
      requires Valid()
      modifies this`actions, this`hidden
      ensures Valid() && hidden == old(hidden) + HiddenBy(cfg, old(State()), Call(OpPost(id), who, e))
      ensures Reply(State(), r) == Post(cfg, old(State()), id, who, e)
      ensures PostsAsAsked(cfg, old(State()), Reply(State(), r), id, who, e)
    {
      Begin(Call(OpPost(id), who, e), Post(cfg, State(), id, who, e).sys);
      PostingIs(cfg, State(), id, who, e);
      if !cfg.slack {
        return Refused(NoSlack);
      }
      if id !in actions {
        return Refused(ActionNotFound);
      }
      var a := actions[id];
      if a.caseId !in e.cases {
        return Refused(CaseMissing);
      }
      var parent := e.cases[a.caseId];
      if !MayWrite(parent, TokenActor(who)) {
        return Refused(Denied);
      }
      if a.messageTS != "" {
        return Refused(AlreadyPosted);
      }
      if parent.channel == "" {
        return Refused(NoSlackChannel);
      }
      r, a := PostSlackMessageForAction(a, e);
    }

    method UpdateAction(id: int, p: Patch, who: Caller, e: Env) returns (r: Result)
      requires Valid()
      modifies this`actions, this`events, this`hidden
      ensures Valid() && hidden == old(hidden) + HiddenBy(cfg, old(State()), Call(OpUpdate(id, p), who, e))
      ensures Reply(State(), r) == Update(cfg, old(State()), id, p, who, e)
      ensures UpdatesAsAsked(cfg, old(State()), Reply(State(), r), id, p, who, e)
    {
      Begin(Call(OpUpdate(id, p), who, e), Update(cfg, State(), id, p, who, e).sys);
      UpdateIs(cfg, State(), id, p, who, e);
      r := LoadForUpdate(id, p, who, e);
      if r.Refused? {
        return;
      }
      var existing := r.record;
      r := ApplyPatch(existing, p, e);
      if r.Refused? {
        return;
      }
      r := SaveAction(existing, r.record, who, e);
    }

    method LoadForUpdate(id: int, p: Patch, who: Caller, e: Env) returns (r: Result)
      ensures r == var refusal := Admit(State(), id, p, who, e);
                   if refusal.Some? then Refused(refusal.value) else Done(actions[id])
    {
      if id !in actions {
        return Refused(ActionNotFound);
      }
      var existing := actions[id];
      if existing.caseId !in e.cases {
        return Refused(CaseMissing);
      }
      if !MayWrite(e.cases[existing.caseId], ActorForAccess(who)) {
        return Refused(Denied);
      }
      if p.caseId.Some? && p.caseId.value != existing.caseId {
        if p.caseId.value !in e.cases {
          return Refused(CaseMissing);
        }
        if e.cases[p.caseId.value].IsThreadBound() {
          return Refused(ThreadCaseHasNoActions);
        }
      }
      return Done(existing);
    }

    method SaveAction(existing: Action, a: Action, who: Caller, e: Env) returns (r: Result)
      modifies this`actions, this`events
      ensures Reply(State(), r) == Save(old(State()), existing, a, who, e)
    {
      var ok := RepoUpdate(a, e.save);
      if !ok {
        return Refused(NotSaved);
      }
      RecordActionEvents(existing, a, who, e.lost);
      return Done(a);
    }

    /** The patch is applied to a copy, so the loaded record stays the "before" of the event diff. */
    method ApplyPatch(existing: Action, p: Patch, e: Env) returns (r: Result)
      ensures r == if p.title == Some("") then Refused(TitleMissing)
                   else if p.status.Some? && p.status.value !in cfg.statuses then Refused(InvalidStatus)
                   else Done(Patched(existing, p, e.human).(updatedAt := e.now))
    {
      var a := existing;
      if p.caseId.Some? {
        a := a.(caseId := p.caseId.value);
      }
      if p.title.Some? {
        if p.title.value == "" {
          return Refused(TitleMissing);
        }
        a := a.(title := p.title.value);
      }
      if p.description.Some? {
        a := a.(description := p.description.value);
      }
      assert a == existing.(caseId := a.caseId, title := a.title, description := a.description);
      var assignee := PickAssignee(existing, p, e.human);
      a := a.(assignee := assignee);
      if p.messageTS.Some? {
        a := a.(messageTS := p.messageTS.value);
      }
      if p.status.Some? {
        if p.status.value !in cfg.statuses {
          return Refused(InvalidStatus);
        }
        a := a.(status := p.status.value);
      }
      if p.clearDue {
        a := a.(due := None);
      } else if p.due.Some? {
        a := a.(due := p.due);
      }
      return Done(a.(updatedAt := e.now));
    }

    method PickAssignee(existing: Action, p: Patch, human: bool) returns (assignee: string)
      ensures assignee == NewAssignee(existing, p, human)
    {
      assignee := existing.assignee;
      if p.clearAssignee {
        assignee := "";
      } else if p.assignee.Some? {
        var candidate := p.assignee.value;
        if candidate == "" {
          assignee := "";
        } else if p.rejectNonHuman {
          if human {
            assignee := candidate;
          }
        } else {
          assignee := candidate;
        }
      }
    }

    method ArchiveAction(id: int, who: Caller, e: Env) returns (r: Result)
      requires Valid()
      modifies this`actions, this`events, this`hidden
      ensures Valid() && hidden == old(hidden) + HiddenBy(cfg, old(State()), Call(OpArchive(id, true), who, e))
      ensures Reply(State(), r) == SetArchived(old(State()), id, true, who, e)
      ensures ArchivesAsAsked(old(State()), Reply(State(), r), id, true, who, e)
    {
      Begin(Call(OpArchive(id, true), who, e), SetArchived(State(), id, true, who, e).sys);
      ArchivingIs(State(), id, true, who, e);
      var loaded := LoadForArchive(Sys(actions, nextId, events, map[]), id, who, e);
      if loaded.Refused? {
        return loaded;
      }
      var existing := loaded.record;
      if existing.archivedAt.Some? {
        return Refused(IsArchived);
      }
      existing := existing.(archivedAt := Some(e.now));
      existing := existing.(updatedAt := e.now);
      var ok := RepoUpdate(existing, e.save);
      if !ok {
        return Refused(NotSaved);
      }
      PutEvent(Event(id, Archived, Author(who), "", existing.title), e.lost);
      return Done(existing);
    }

    method UnarchiveAction(id: int, who: Caller, e: Env) returns (r: Result)
      requires Valid()
      modifies this`actions, this`events, this`hidden
      ensures Valid() && hidden == old(hidden) + HiddenBy(cfg, old(State()), Call(OpArchive(id, false), who, e))
      ensures Reply(State(), r) == SetArchived(old(State()), id, false, who, e)
      ensures ArchivesAsAsked(old(State()), Reply(State(), r), id, false, who, e)
    {
      Begin(Call(OpArchive(id, false), who, e), SetArchived(State(), id, false, who, e).sys);
      ArchivingIs(State(), id, false, who, e);
      var loaded := LoadForArchive(Sys(actions, nextId, events, map[]), id, who, e);
      if loaded.Refused? {
        return loaded;
      }
      var existing := loaded.record;
      if existing.archivedAt.None? {
        return Refused(NotArchived);
      }
      existing := existing.(archivedAt := None);
      existing := existing.(updatedAt := e.now);
      var ok := RepoUpdate(existing, e.save);
      if !ok {
        return Refused(NotSaved);
      }
      PutEvent(Event(id, Unarchived, Author(who), "", existing.title), e.lost);
      return Done(existing);
    }

    method BulkArchiveActions(ids: seq<(int, Env)>, who: Caller)
      returns (archived: seq<Action>, failed: Option<Refusal>)
      requires Valid()
      modifies this`actions, this`events, this`hidden
      ensures Valid() && old(hidden) <= hidden <= old(hidden) + IdsOf(ids)
      ensures Bulk(State(), archived, failed) == BulkArchive(old(State()), ids, who)
      ensures Leaves(old(actions), actions, IdsOf(ids))
      ensures failed.None? <==> forall k :: 0 <= k < |ids| ==> EntryGoes(old(actions), ids, k, who)
      ensures failed.None? ==> ArchivesActive(old(actions), actions, IdsOf(ids), archived)
    {
      ghost var s0 := State();
      archived, failed := ArchiveEach(ids, who);
      BulkArchivesExactlyTheActive(s0, ids, who);
      BatchFinishesExactlyWhen(s0, ids, who);
    }

    method ArchiveEach(ids: seq<(int, Env)>, who: Caller) returns (archived: seq<Action>, failed: Option<Refusal>)
      requires Valid()
      modifies this`actions, this`events, this`hidden
      ensures Valid() && old(hidden) <= hidden <= old(hidden) + IdsOf(ids)
      ensures Bulk(State(), archived, failed) == BulkArchive(old(State()), ids, who)
    {
      archived, failed := [], None;
      assert ids[0..] == ids;
      for i := 0 to |ids|
        invariant Valid() && old(hidden) <= hidden && hidden + IdsOf(ids[i..]) <= old(hidden) + IdsOf(ids)
        invariant BulkArchive(old(State()), ids, who) == Resumed(archived, BulkArchive(State(), ids[i..], who))
      {
        ghost var here := State();
        var r := ArchiveAction(ids[i].0, who, ids[i].1);
        BulkUnfolds(here, ids[i..], who);
        assert ids[i..][1..] == ids[i + 1..];
        if r.Refused? {
          if r.why.IsArchived? {
            continue;
          }
          return [], Some(r.why);
        }
        ResumedTwice(archived, r.record, BulkArchive(State(), ids[i + 1..], who));
        archived := archived + [r.record];
      }
    }
  }
}
