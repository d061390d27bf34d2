/** The event log of an action agrees with its stored record over every run of pkg/usecase/action.go. */
module ActionHistory {
  import opened Cases
  import opened Actions

  // ----- One action's history -----

  function Of(events: seq<Event>, id: int): seq<Event>
    decreases |events|
  {
    if events == [] then []
    else
      var last := events[|events| - 1];
      Of(events[..|events| - 1], id) + if last.actionId == id then [last] else []
  }

  /** The record as its events tell it. */
  datatype Told = NotCreated | Broken | At(title: string, status: string, assignee: string, archived: bool)

  /** An event counts only when it takes up where the ones before it ended and changes something: one creation,
      first of all; changes from the value just told to another; archiving and restoring in turn. */
  function Follow(t: Told, e: Event, born: Action): Told {
    match e.kind
    case Created => if t.NotCreated? then At(e.newValue, born.status, born.assignee, false) else Broken
    case TitleChanged => if t.At? && e.oldValue == t.title != e.newValue then t.(title := e.newValue) else Broken
    case StatusChanged => if t.At? && e.oldValue == t.status != e.newValue then t.(status := e.newValue) else Broken
    case AssigneeChanged =>
      if t.At? && e.oldValue == t.assignee != e.newValue then t.(assignee := e.newValue) else Broken
    case Archived => if t.At? && !t.archived then t.(archived := true) else Broken
    case Unarchived => if t.At? && t.archived then t.(archived := false) else Broken
  }

  function Replay(h: seq<Event>, born: Action): Told
    decreases |h|
  {
    if h == [] then NotCreated else Follow(Replay(h[..|h| - 1], born), h[|h| - 1], born)
  }

  /** The replayed history ends at the stored record. */
  predicate Tells(h: seq<Event>, a: Action, born: Action) {
    Replay(h, born) == At(a.title, a.status, a.assignee, a.archivedAt.Some?)
  }

  predicate Keyed(s: Sys) {
    s.born.Keys == s.actions.Keys
    && (forall id :: id in s.actions ==> id < s.nextId && s.actions[id].id == id && s.actions[id].caseId != 0)
    && (forall e :: e in s.events ==> e.actionId in s.actions)
  }

  predicate Agrees(s: Sys, id: int) {
    id in s.actions ==> id in s.born && Tells(Of(s.events, id), s.actions[id], s.born[id])
  }

  // ----- Calls that change the record without telling the log -----

  predicate Untold(env: Env, kind: Kind) {
    env.save.AppliedUnacked? || (env.save.Acked? && kind in env.lost)
  }

  /** The update changes a field and leaves its event out. */
  predicate HidesField(before: Action, p: Patch, env: Env) {
    var after := Patched(before, p, env.human);
    (after.title != before.title && Untold(env, TitleChanged))
    || (after.status != before.status && Untold(env, StatusChanged))
    || (after.assignee != before.assignee && Untold(env, AssigneeChanged))
  }

  predicate HidesUpdate(cfg: Settings, s: Sys, i: int, p: Patch, who: Caller, e: Env, id: int) {
    i == id && Check(cfg, s, i, p, who, e).None? && p.caseId != Some(0) && HidesField(s.actions[i], p, e)
  }

  predicate HidesArchive(s: Sys, i: int, archive: bool, who: Caller, e: Env, id: int) {
    i == id && LoadForArchive(s, i, who, e).Done? && s.actions[i].archivedAt.Some? != archive
    && Untold(e, if archive then Archived else Unarchived)
  }

  /** The call stores a change of action `id` and leaves an event of it out: the write was applied but reported as
      failed, or the event itself was not written. */
  predicate Hides(cfg: Settings, s: Sys, c: Call, id: int) {
    match c.op
    case OpCreate(caseId, title, _, _, _, status, _) =>
      id == s.nextId && CheckNew(cfg, caseId, title, status, c.who, c.env).None? && caseId != 0
      && Untold(c.env, Created)
    case OpPost(_) => false
    case OpUpdate(i, p) => HidesUpdate(cfg, s, i, p, c.who, c.env, id)
    case OpArchive(i, archive) => HidesArchive(s, i, archive, c.who, c.env, id)
  }

  ghost predicate AllTold(cfg: Settings, s: Sys, calls: seq<Call>)
    decreases |calls|
  {
    calls != [] ==> (forall id :: !Hides(cfg, s, calls[0], id)) && AllTold(cfg, Step(cfg, s, calls[0]).sys, calls[1..])
  }

  // ----- Appending events -----

  lemma OfAppend(events: seq<Event>, e: Event, id: int)
    ensures Of(events + [e], id) == Of(events, id) + if e.actionId == id then [e] else []
  {
    assert (events + [e])[..|events|] == events;
  }

  lemma {:induction false} NoneOf(events: seq<Event>, id: int)
    requires forall e :: e in events ==> e.actionId != id
    ensures Of(events, id) == []
    decreases |events|
  {
    if events != [] {
      assert events[|events| - 1] in events;
      NoneOf(events[..|events| - 1], id);
    }
  }

  lemma {:induction false} OfAppendAll(events: seq<Event>, more: seq<Event>, id: int, owner: int)
    requires forall e :: e in more ==> e.actionId == owner
    ensures Of(events + more, id) == Of(events, id) + if owner == id then more else []
    decreases |more|
  {
    if more == [] {
      assert events + more == events;
    } else {
      var rest, e := more[..|more| - 1], more[|more| - 1];
      assert events + more == events + rest + [e];
      assert more == rest + [e];
      OfAppendAll(events, rest, id, owner);
      OfAppend(events + rest, e, id);
    }
  }

  lemma ReplayAppend(h: seq<Event>, e: Event, born: Action)
    ensures Replay(h + [e], born) == Follow(Replay(h, born), e, born)
  {
    assert (h + [e])[..|h|] == h;
  }

  // ----- One step -----

  function Maybe(write: bool, e: Event): seq<Event> {
    if write then [e] else []
  }

  /** The events recordActionEvents manages to write. */
  function Changes(before: Action, after: Action, author: string, lost: set<Kind>): seq<Event> {
    Maybe(before.title != after.title && TitleChanged !in lost,
          Event(after.id, TitleChanged, author, before.title, after.title))
    + Maybe(before.status != after.status && StatusChanged !in lost,
            Event(after.id, StatusChanged, author, before.status, after.status))
    + Maybe(before.assignee != after.assignee && AssigneeChanged !in lost,
            Event(after.id, AssigneeChanged, author, before.assignee, after.assignee))
  }

  lemma RecordChangesAppends(s: Sys, before: Action, after: Action, author: string, lost: set<Kind>)
    ensures RecordChanges(s, before, after, author, lost)
            == s.(events := s.events + Changes(before, after, author, lost))
  {
    var title := Maybe(before.title != after.title && TitleChanged !in lost,
                       Event(after.id, TitleChanged, author, before.title, after.title));
    var status := Maybe(before.status != after.status && StatusChanged !in lost,
                        Event(after.id, StatusChanged, author, before.status, after.status));
    var assignee := Maybe(before.assignee != after.assignee && AssigneeChanged !in lost,
                          Event(after.id, AssigneeChanged, author, before.assignee, after.assignee));
    Regroup(s.events, title, status, assignee);
    assert RecordChanges(s, before, after, author, lost).events == s.events + title + status + assignee;
  }

  lemma Regroup(a: seq<Event>, b: seq<Event>, c: seq<Event>, d: seq<Event>)
    ensures a + b + c + d == a + (b + c + d)
  {
  }

  lemma ReplayMaybe(h: seq<Event>, write: bool, e: Event, born: Action)
    ensures Replay(h + Maybe(write, e), born) == if write then Follow(Replay(h, born), e, born) else Replay(h, born)
  {
    if write {
      ReplayAppend(h, e, born);
    } else {
      assert h + [] == h;
    }
  }

  function FollowIf(t: Told, write: bool, e: Event, born: Action): Told {
    if write then Follow(t, e, born) else t
  }

  lemma ReplayThree(h: seq<Event>, w1: bool, e1: Event, w2: bool, e2: Event, w3: bool, e3: Event, born: Action)
    ensures Replay(h + (Maybe(w1, e1) + Maybe(w2, e2) + Maybe(w3, e3)), born)
            == FollowIf(FollowIf(FollowIf(Replay(h, born), w1, e1, born), w2, e2, born), w3, e3, born)
  {
    ReplayMaybe(h, w1, e1, born);
    ReplayMaybe(h + Maybe(w1, e1), w2, e2, born);
    ReplayMaybe(h + Maybe(w1, e1) + Maybe(w2, e2), w3, e3, born);
    Regroup(h, Maybe(w1, e1), Maybe(w2, e2), Maybe(w3, e3));
  }

  lemma ReplayChanges(h: seq<Event>, before: Action, after: Action, born: Action, author: string, lost: set<Kind>)
    requires Tells(h, before, born)
    ensures Replay(h + Changes(before, after, author, lost), born)
            == At(if TitleChanged in lost then before.title else after.title,
                  if StatusChanged in lost then before.status else after.status,
                  if AssigneeChanged in lost then before.assignee else after.assignee,
                  before.archivedAt.Some?)
  {
    ReplayThree(h, before.title != after.title && TitleChanged !in lost,
                Event(after.id, TitleChanged, author, before.title, after.title),
                before.status != after.status && StatusChanged !in lost,
                Event(after.id, StatusChanged, author, before.status, after.status),
                before.assignee != after.assignee && AssigneeChanged !in lost,
                Event(after.id, AssigneeChanged, author, before.assignee, after.assignee), born);
  }

  /** A stored action replaced, and events of its own added. */
  function Amended(s: Sys, a: Action, more: seq<Event>): Sys {
    s.(actions := s.actions[a.id := a], events := s.events + more)
  }

  lemma AmendedAgrees(s: Sys, a: Action, more: seq<Event>, id: int)
    requires Keyed(s) && a.id in s.actions && a.caseId != 0 && forall e :: e in more ==> e.actionId == a.id
    ensures Keyed(Amended(s, a, more))
    ensures a.id != id ==> (Agrees(Amended(s, a, more), id) <==> Agrees(s, id))
    ensures a.id == id ==> (Agrees(Amended(s, a, more), id) <==> Tells(Of(s.events, id) + more, a, s.born[id]))
  {
    OfAppendAll(s.events, more, id, a.id);
    assert Of(s.events, id) + [] == Of(s.events, id);
  }

  lemma UpdateAmends(cfg: Settings, s: Sys, i: int, p: Patch, who: Caller, e: Env)
    requires Keyed(s)
    ensures var goes := Check(cfg, s, i, p, who, e).None? && p.caseId != Some(0) && !e.save.Lost?;
            Update(cfg, s, i, p, who, e).sys
            == if !goes then s
               else
                 var after := Patched(s.actions[i], p, e.human).(updatedAt := e.now);
                 Amended(s, after, if e.save.Acked? then Changes(s.actions[i], after, Author(who), e.lost) else [])
  {
    if Check(cfg, s, i, p, who, e).None? && p.caseId != Some(0) && !e.save.Lost? {
      var after := Patched(s.actions[i], p, e.human).(updatedAt := e.now);
      RecordChangesAppends(s.(actions := s.actions[i := after]), s.actions[i], after, Author(who), e.lost);
      assert s.events + [] == s.events;
    }
  }

  lemma UpdateStep(cfg: Settings, s: Sys, i: int, p: Patch, who: Caller, e: Env, id: int)
    requires Keyed(s) && Agrees(s, id)
    ensures Keyed(Update(cfg, s, i, p, who, e).sys)
    ensures Agrees(Update(cfg, s, i, p, who, e).sys, id) <==> !HidesUpdate(cfg, s, i, p, who, e, id)
  {
    UpdateAmends(cfg, s, i, p, who, e);
    if Check(cfg, s, i, p, who, e).None? && p.caseId != Some(0) && !e.save.Lost? {
      var before := s.actions[i];
      var after := Patched(before, p, e.human).(updatedAt := e.now);
      AmendedAgrees(s, after, if e.save.Acked? then Changes(before, after, Author(who), e.lost) else [], id);
      if i == id {
        UpdatedTells(Of(s.events, id), before, p, s.born[id], Author(who), e);
      }
    }
  }

  lemma UpdatedTells(h: seq<Event>, before: Action, p: Patch, born: Action, author: string, e: Env)
    requires Tells(h, before, born) && !e.save.Lost?
    ensures var after := Patched(before, p, e.human).(updatedAt := e.now);
            Tells(h + (if e.save.Acked? then Changes(before, after, author, e.lost) else []), after, born)
            <==> !HidesField(before, p, e)
  {
    var after := Patched(before, p, e.human).(updatedAt := e.now);
    if e.save.Acked? {
      ReplayChanges(h, before, after, born, author, e.lost);
    } else {
      assert h + [] == h;
    }
  }

  lemma ArchiveAmends(s: Sys, i: int, archive: bool, who: Caller, e: Env)
    requires Keyed(s)
    ensures var goes := LoadForArchive(s, i, who, e).Done? && s.actions[i].archivedAt.Some? != archive && !e.save.Lost?;
            SetArchived(s, i, archive, who, e).sys
            == if !goes then s
               else
                 var after := s.actions[i].(archivedAt := if archive then Some(e.now) else None, updatedAt := e.now);
                 var kind := if archive then Archived else Unarchived;
                 Amended(s, after, Maybe(e.save.Acked? && kind !in e.lost,
                                         Event(i, kind, Author(who), "", after.title)))
  {
    assert s.events + [] == s.events;
  }

  lemma ArchiveStep(s: Sys, i: int, archive: bool, who: Caller, e: Env, id: int)
    requires Keyed(s) && Agrees(s, id)
    ensures Keyed(SetArchived(s, i, archive, who, e).sys)
    ensures Agrees(SetArchived(s, i, archive, who, e).sys, id) <==> !HidesArchive(s, i, archive, who, e, id)
  {
    ArchiveAmends(s, i, archive, who, e);
    if LoadForArchive(s, i, who, e).Done? && s.actions[i].archivedAt.Some? != archive && !e.save.Lost? {
      var after := s.actions[i].(archivedAt := if archive then Some(e.now) else None, updatedAt := e.now);
      var kind := if archive then Archived else Unarchived;
      var event := Event(i, kind, Author(who), "", after.title);
      AmendedAgrees(s, after, Maybe(e.save.Acked? && kind !in e.lost, event), id);
      if i == id {
        ArchivedTells(Of(s.events, id), s.actions[i], after, archive, e.save.Acked? && kind !in e.lost, event,
                      s.born[id]);
      }
    }
  }

  lemma ArchivedTells(h: seq<Event>, before: Action, after: Action, archive: bool, write: bool, e: Event, born: Action)
    requires Tells(h, before, born) && before.archivedAt.Some? != archive && after.archivedAt.Some? == archive
    requires after.title == before.title && after.status == before.status && after.assignee == before.assignee
    requires e.kind == if archive then Archived else Unarchived
    ensures Tells(h + Maybe(write, e), after, born) <==> write
  {
    ReplayMaybe(h, write, e, born);
  }

  lemma PostAmends(cfg: Settings, s: Sys, i: int, who: Caller, e: Env)
    requires Keyed(s)
    ensures Post(cfg, s, i, who, e).sys == s
            || (i in s.actions && e.posted.Some?
                && Post(cfg, s, i, who, e).sys
                   == Amended(s, s.actions[i].(messageTS := e.posted.value, updatedAt := e.now), []))
  {
    assert s.events + [] == s.events;
  }

  lemma PostStep(cfg: Settings, s: Sys, i: int, who: Caller, e: Env, id: int)
    requires Keyed(s) && Agrees(s, id)
    ensures Keyed(Post(cfg, s, i, who, e).sys) && Agrees(Post(cfg, s, i, who, e).sys, id)
  {
    PostAmends(cfg, s, i, who, e);
    if Post(cfg, s, i, who, e).sys != s {
      AmendedAgrees(s, s.actions[i].(messageTS := e.posted.value, updatedAt := e.now), [], id);
      assert Of(s.events, id) + [] == Of(s.events, id);
    }
  }

  /** A new record and, at most, its Created event. */
  function Added(s: Sys, stored: Action, born: Action, more: seq<Event>): Sys {
    Sys(s.actions[s.nextId := stored], s.nextId + 1, s.events + more, s.born[s.nextId := born])
  }

  lemma AddedIsKeyed(s: Sys, stored: Action, born: Action, more: seq<Event>)
    requires Keyed(s) && stored.id == s.nextId && stored.caseId != 0
    requires forall e :: e in more ==> e.actionId == s.nextId
    ensures Keyed(Added(s, stored, born, more))
  {
  }

  lemma AddedAgrees(s: Sys, stored: Action, born: Action, more: seq<Event>, id: int)
    requires Keyed(s)
    requires forall e :: e in more ==> e.actionId == s.nextId
    ensures id != s.nextId ==> (Agrees(Added(s, stored, born, more), id) <==> Agrees(s, id))
    ensures id == s.nextId ==> (Agrees(Added(s, stored, born, more), id) <==> Tells(more, stored, born))
  {
    OfAppendAll(s.events, more, id, s.nextId);
    if id == s.nextId {
      NoneOf(s.events, id);
      assert [] + more == more;
    } else {
      assert Of(s.events, id) + [] == Of(s.events, id);
    }
  }

  lemma CreateAdds(cfg: Settings, s: Sys, c: Call)
    requires Keyed(s) && c.op.OpCreate?
    ensures var (op, e) := (c.op, c.env);
            var goes := CheckNew(cfg, op.caseId, op.title, op.status, c.who, e).None? && op.caseId != 0
              && !e.save.Lost?;
            var born := Action(s.nextId, op.caseId, op.title, op.description, op.assignee, op.messageTS,
                               StatusOrInitial(cfg, op.status), op.due, None, e.now);
            var event := Event(s.nextId, Created, if c.who.token.Some? then c.who.token.value else "", "", op.title);
            var more := Maybe(e.save.Acked? && Created !in e.lost, event);
            Step(cfg, s, c).sys == (if !goes then s else Added(s, born, born, more))
            || (goes && Step(cfg, s, c).sys == Added(s, Stamped(born, e), born, more))
  {
    assert s.events + [] == s.events;
  }

  lemma CreateStep(cfg: Settings, s: Sys, c: Call, id: int)
    requires Keyed(s) && Agrees(s, id) && c.op.OpCreate?
    ensures Keyed(Step(cfg, s, c).sys) && (Agrees(Step(cfg, s, c).sys, id) <==> !Hides(cfg, s, c, id))
  {
    CreateAdds(cfg, s, c);
    var op, e := c.op, c.env;
    if CheckNew(cfg, op.caseId, op.title, op.status, c.who, e).None? && op.caseId != 0 && !e.save.Lost? {
      var born := Action(s.nextId, op.caseId, op.title, op.description, op.assignee, op.messageTS,
                         StatusOrInitial(cfg, op.status), op.due, None, e.now);
      var event := Event(s.nextId, Created, if c.who.token.Some? then c.who.token.value else "", "", op.title);
      var more := Maybe(e.save.Acked? && Created !in e.lost, event);
      AddedIsKeyed(s, born, born, more);
      AddedIsKeyed(s, Stamped(born, e), born, more);
      AddedAgrees(s, born, born, more, id);
      AddedAgrees(s, Stamped(born, e), born, more, id);
      ReplayMaybe([], e.save.Acked? && Created !in e.lost, event, born);
      assert [] + more == more;
    }
  }

  /** A call keeps an action's log in agreement with its record exactly when it hides no change of it. */
  lemma LogAgreesExactlyWhen(cfg: Settings, s: Sys, c: Call, id: int)
    requires Keyed(s) && Agrees(s, id)
    ensures Keyed(Step(cfg, s, c).sys)
    ensures Agrees(Step(cfg, s, c).sys, id) <==> !Hides(cfg, s, c, id)
  {
    match c.op
    case OpCreate(_, _, _, _, _, _, _) => CreateStep(cfg, s, c, id);
    case OpPost(i) => PostStep(cfg, s, i, c.who, c.env, id);
    case OpUpdate(i, p) => UpdateStep(cfg, s, i, p, c.who, c.env, id);
    case OpArchive(i, archive) => ArchiveStep(s, i, archive, c.who, c.env, id);
  }

  /** Over every run that hides nothing, each action's log tells its record: one creation, then title, status and
      assignee changes that chain up to the stored values, and archive events that alternate and end where the
      record is. */
  lemma {:induction false} LogTellsTheRecord(cfg: Settings, s: Sys, calls: seq<Call>)
    requires Keyed(s) && (forall id :: Agrees(s, id)) && AllTold(cfg, s, calls)
    ensures Keyed(Run(cfg, s, calls)) && forall id :: Agrees(Run(cfg, s, calls), id)
    decreases |calls|
  {
    if calls != [] {
      var s' := Step(cfg, s, calls[0]).sys;
      assert Keyed(s') by {
        LogAgreesExactlyWhen(cfg, s, calls[0], s.nextId);
      }
      forall id
        ensures Agrees(s', id)
      {
        LogAgreesExactlyWhen(cfg, s, calls[0], id);
      }
      LogTellsTheRecord(cfg, s', calls[1..]);
    }
  }

  // ----- Archive state -----

  /** No update or Slack post ever archives or restores an action, whatever fails. */
  lemma OnlyArchivingArchives(cfg: Settings, s: Sys, c: Call, id: int)
    requires Keyed(s) && id in s.actions && !(c.op.OpArchive? && c.op.id == id)
    ensures id in Step(cfg, s, c).sys.actions
    ensures Step(cfg, s, c).sys.actions[id].archivedAt == s.actions[id].archivedAt
  {
    match c.op
    case OpCreate(_, _, _, _, _, _, _) => CreateAdds(cfg, s, c);
    case OpPost(i) => PostAmends(cfg, s, i, c.who, c.env);
    case OpUpdate(i, p) => UpdateAmends(cfg, s, i, p, c.who, c.env);
    case OpArchive(i, archive) => ArchiveAmends(s, i, archive, c.who, c.env);
  }

  /** An action is only ever put under a case that was not thread-bound at that moment. */
  lemma NewParentsAcceptActions(cfg: Settings, s: Sys, c: Call, id: int)
    requires Keyed(s)
    ensures var s' := Step(cfg, s, c).sys;
            id in s'.actions && (id !in s.actions || s.actions[id].caseId != s'.actions[id].caseId) ==>
              s'.actions[id].caseId in c.env.cases && !c.env.cases[s'.actions[id].caseId].IsThreadBound()
  {
    match c.op
    case OpCreate(_, _, _, _, _, _, _) => CreateAdds(cfg, s, c);
    case OpPost(i) => PostAmends(cfg, s, i, c.who, c.env);
    case OpUpdate(i, p) => UpdateAmends(cfg, s, i, p, c.who, c.env);
    case OpArchive(i, archive) => ArchiveAmends(s, i, archive, c.who, c.env);
  }

  /** The patch and nothing else: a field not given keeps its value, a pick of somebody who is no known human keeps
      the assignee, and clearing wins over a given value. */
  predicate TakesPatch(cfg: Settings, b: Action, a: Action, p: Patch, human: bool) {
    && (p.title.Some? ==> a.title == p.title.value != "") && (p.title.None? ==> a.title == b.title)
    && (p.description.Some? ==> a.description == p.description.value)
    && (p.description.None? ==> a.description == b.description)
    && (p.status.Some? ==> a.status == p.status.value && a.status in cfg.statuses)
    && (p.status.None? ==> a.status == b.status)
    && (p.caseId.Some? ==> a.caseId == p.caseId.value) && (p.caseId.None? ==> a.caseId == b.caseId)
    && (p.messageTS.Some? ==> a.messageTS == p.messageTS.value) && (p.messageTS.None? ==> a.messageTS == b.messageTS)
    && (p.clearDue ==> a.due.None?) && (!p.clearDue && p.due.None? ==> a.due == b.due)
    && (!p.clearDue && p.due.Some? ==> a.due == p.due)
    && (p.clearAssignee ==> a.assignee == "") && (!p.clearAssignee && p.assignee.None? ==> a.assignee == b.assignee)
    && (a.assignee != b.assignee && a.assignee != "" ==> p.assignee == Some(a.assignee) && (p.rejectNonHuman ==> human))
    && (!p.clearAssignee && p.assignee.Some? && (human || !p.rejectNonHuman || p.assignee.value == "") ==>
          a.assignee == p.assignee.value)
    && a.archivedAt == b.archivedAt && a.id == b.id
  }

  /** An update that goes through stores the patched record and touches no other. */
  lemma UpdateStoresExactlyThePatch(cfg: Settings, s: Sys, id: int, p: Patch, who: Caller, e: Env)
    requires Keyed(s) && Update(cfg, s, id, p, who, e).result.Done?
    ensures var r := Update(cfg, s, id, p, who, e);
            id in s.actions && r.sys.actions == s.actions[id := r.result.record]
            && TakesPatch(cfg, s.actions[id], r.result.record, p, e.human)
  {
    UpdateAmends(cfg, s, id, p, who, e);
  }

  // ----- Bulk archiving -----

  function IdsOf(ids: seq<(int, Env)>): (r: set<int>)
    ensures ids != [] ==> r == {ids[0].0} + IdsOf(ids[1..])
  {
    if ids == [] then {} else {ids[0].0} + IdsOf(ids[1..])
  }

  /** Only ids of the batch change, and only those that were active. */
  predicate Leaves(before: map<int, Action>, after: map<int, Action>, ids: set<int>) {
    after.Keys == before.Keys
    && forall id :: id in before && (id !in ids || before[id].archivedAt.Some?) ==> after[id] == before[id]
  }

  /** Every id ends archived, and `out` holds exactly the actions that were active, each once, as now stored. */
  ghost predicate ArchivesActive(before: map<int, Action>, after: map<int, Action>, ids: set<int>, out: seq<Action>) {
    (forall id :: id in ids ==> id in before && id in after && after[id].archivedAt.Some?)
    && (forall a :: a in out ==>
          a.id in ids && a.id in before && before[a.id].archivedAt.None? && a.id in after && after[a.id] == a)
    && (forall id :: id in ids && id in before && before[id].archivedAt.None? ==> Holds(out, id))
    && DistinctIds(out)
  }

  predicate Holds(out: seq<Action>, id: int) {
    exists a :: a in out && a.id == id
  }

  predicate DistinctIds(out: seq<Action>) {
    forall i, j :: 0 <= i < j < |out| ==> out[i].id != out[j].id
  }

  lemma OneMoreOut(a: Action, out: seq<Action>)
    requires DistinctIds(out) && forall b :: b in out ==> b.id != a.id
    ensures DistinctIds([a] + out)
    ensures forall id :: Holds([a] + out, id) <==> id == a.id || Holds(out, id)
    ensures forall b :: b in [a] + out <==> b == a || b in out
  {
    assert a in [a] + out;
    forall id | Holds(out, id)
      ensures Holds([a] + out, id)
    {
      var b :| b in out && b.id == id;
      assert b in [a] + out;
    }
  }

  lemma OneThenRest(before: map<int, Action>, mid: map<int, Action>, after: map<int, Action>, a: Action,
                    ids: set<int>, out: seq<Action>)
    requires a.id in before && before[a.id].archivedAt.None? && a.archivedAt.Some?
    requires Leaves(before, mid, {a.id}) && mid[a.id] == a
    requires Leaves(mid, after, ids) && ArchivesActive(mid, after, ids, out)
    ensures ArchivesActive(before, after, {a.id} + ids, [a] + out)
  {
    OneMoreOut(a, out);
  }

  lemma SkipThenRest(before: map<int, Action>, after: map<int, Action>, id: int, ids: set<int>, out: seq<Action>)
    requires id in before && before[id].archivedAt.Some?
    requires Leaves(before, after, ids) && ArchivesActive(before, after, ids, out)
    ensures ArchivesActive(before, after, {id} + ids, out)
  {
  }

  lemma FirstArchived(s: Sys, id: int, who: Caller, e: Env)
    requires Keyed(s)
    ensures var r := SetArchived(s, id, true, who, e);
            Keyed(r.sys) && Leaves(s.actions, r.sys.actions, {id})
            && (r.result.Done? ==> id in s.actions && s.actions[id].archivedAt.None? && r.result.record.archivedAt.Some?
                                   && r.result.record.id == id && r.sys.actions[id] == r.result.record)
            && (r.result == Refused(IsArchived) ==> r.sys == s && id in s.actions && s.actions[id].archivedAt.Some?)
  {
    ArchiveAmends(s, id, true, who, e);
  }

  /** A batch touches nothing but its active ids, whether it finishes or stops half-way; when it finishes, all of
      them are archived and the actions returned are exactly those that were active. */
  lemma {:induction false} BulkArchivesExactlyTheActive(s: Sys, ids: seq<(int, Env)>, who: Caller)
    requires Keyed(s)
    ensures var b := BulkArchive(s, ids, who);
            Keyed(b.sys) && Leaves(s.actions, b.sys.actions, IdsOf(ids))
            && (b.failed.None? ==> ArchivesActive(s.actions, b.sys.actions, IdsOf(ids), b.archived))
    decreases |ids|
  {
    if ids != [] {
      var id := ids[0].0;
      var first := SetArchived(s, id, true, who, ids[0].1);
      FirstArchived(s, id, who, ids[0].1);
      if first.result == Refused(IsArchived) || first.result.Done? {
        var rest := BulkArchive(first.sys, ids[1..], who);
        BulkArchivesExactlyTheActive(first.sys, ids[1..], who);
        if rest.failed.None? {
          if first.result.Done? {
            OneThenRest(s.actions, first.sys.actions, rest.sys.actions, first.result.record, IdsOf(ids[1..]),
                        rest.archived);
          } else {
            SkipThenRest(s.actions, rest.sys.actions, id, IdsOf(ids[1..]), rest.archived);
          }
        }
      }
    }
  }
}
