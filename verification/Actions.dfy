/** What the action operations of pkg/usecase/action.go do to the action store and its event log, as functions of
    the call and of the answers the repositories and Slack give. */
module Actions {
  import opened Cases

  datatype Action = Action(
    id: int,
    caseId: int,
    title: string,
    description: string,
    assignee: string,
    messageTS: string,
    status: string,
    due: Option<int>,
    archivedAt: Option<int>,
    updatedAt: int)

  datatype Kind = Created | TitleChanged | StatusChanged | AssigneeChanged | Archived | Unarchived

  datatype Event = Event(actionId: int, kind: Kind, actor: string, oldValue: string, newValue: string)

  datatype Settings = Settings(initial: string, statuses: set<string>, slack: bool)

  /** `born` keeps every record as it was created. */
  datatype Sys = Sys(actions: map<int, Action>, nextId: int, events: seq<Event>, born: map<int, Action>)

  const EMPTY := Sys(map[], 1, [], map[])

  /** The context token, and the Slack user an action handler names. */
  datatype Caller = Caller(token: Option<string>, slackUser: Option<string>)

  /** `cases` are the parent cases as stored at the time; `lost` are the kinds of event whose write fails. */
  datatype Env = Env(cases: map<int, Case>, now: int, human: bool, save: Write, lost: set<Kind>,
                     posted: Option<string>, second: Write)

  datatype Refusal =
    | TitleMissing
    | ActionNotFound
    | CaseMissing
    | Denied
    | ThreadCaseHasNoActions
    | InvalidStatus
    | NotSaved
    | IsArchived
    | NotArchived
    | NoSlack
    | AlreadyPosted
    | NoSlackChannel
    | PostFailed

  datatype Result = Done(record: Action) | Refused(why: Refusal)

  datatype Reply = Reply(sys: Sys, result: Result)

  datatype Patch = Patch(caseId: Option<int>, title: Option<string>, description: Option<string>,
                         assignee: Option<string>, status: Option<string>, due: Option<int>, messageTS: Option<string>,
                         clearDue: bool, clearAssignee: bool, rejectNonHuman: bool)

  // ----- Who acts -----

  function TokenActor(c: Caller): Actor {
    if c.token.Some? then Member(c.token.value) else System
  }

  /** actorForAccess: the token first, then the Slack user, and only then the system. */
  function ActorForAccess(c: Caller): Actor {
    if c.token.Some? then Member(c.token.value)
    else if c.slackUser.Some? then Member(c.slackUser.value)
    else System
  }

  function Author(c: Caller): string {
    if c.slackUser.Some? then c.slackUser.value else ""
  }

  // ----- Stores -----

  function Put(s: Sys, a: Action, w: Write): (Sys, bool) {
    if w.Lost? || a.caseId == 0 || a.id !in s.actions then (s, false)
    else (s.(actions := s.actions[a.id := a]), w.Acked?)
  }

  function Record(s: Sys, e: Event, lost: set<Kind>): Sys {
    if e.kind in lost then s else s.(events := s.events + [e])
  }

  /** recordActionEvents: one event a changed field. */
  function RecordChanges(s: Sys, before: Action, after: Action, author: string, lost: set<Kind>): Sys {
    var s1 := if before.title == after.title then s
              else Record(s, Event(after.id, TitleChanged, author, before.title, after.title), lost);
    var s2 := if before.status == after.status then s1
              else Record(s1, Event(after.id, StatusChanged, author, before.status, after.status), lost);
    if before.assignee == after.assignee then s2
    else Record(s2, Event(after.id, AssigneeChanged, author, before.assignee, after.assignee), lost)
  }

  // ----- Operations -----

  /** postSlackMessageForAction. The record handed back carries the timestamp even when it could not be stored. */
  function PostMessage(s: Sys, a: Action, now: int, posted: Option<string>, w: Write): Reply {
    if posted.None? then Reply(s, Refused(PostFailed))
    else if posted.value == "" then Reply(s, Done(a))
    else
      var stamped := a.(messageTS := posted.value, updatedAt := now);
      var (s1, ok) := Put(s, stamped, w);
      Reply(s1, if ok then Done(stamped) else Refused(NotSaved))
  }

  function StatusOrInitial(cfg: Settings, status: string): string {
    if status == "" then cfg.initial else status
  }

  /** The checks of CreateAction. */
  function CheckNew(cfg: Settings, caseId: int, title: string, status: string, who: Caller, e: Env): Option<Refusal> {
    if title == "" then Some(TitleMissing)
    else if caseId !in e.cases then Some(CaseMissing)
    else if !MayWrite(e.cases[caseId], TokenActor(who)) then Some(Denied)
    else if e.cases[caseId].IsThreadBound() then Some(ThreadCaseHasNoActions)
    else if StatusOrInitial(cfg, status) !in cfg.statuses then Some(InvalidStatus)
    else None
  }

  /** The record is stored under the next id, its creation recorded, and its first message posted. */
  function Add(cfg: Settings, s: Sys, a: Action, parent: Case, who: Caller, e: Env): Reply {
    if e.save.Lost? || a.caseId == 0 then Reply(s, Refused(NotSaved))
    else
      var s1 := s.(actions := s.actions[a.id := a], nextId := s.nextId + 1, born := s.born[a.id := a]);
      if !e.save.Acked? then Reply(s1, Refused(NotSaved))
      else
        var author := if who.token.Some? then who.token.value else "";
        var s2 := Record(s1, Event(a.id, Created, author, "", a.title), e.lost);
        if !cfg.slack || parent.channel == "" then Reply(s2, Done(a))
        else Reply(PostMessage(s2, a, e.now, e.posted, e.second).sys, Done(Stamped(a, e)))
  }

  function Create(cfg: Settings, s: Sys, caseId: int, title: string, description: string, assignee: string,
                  messageTS: string, status0: string, due: Option<int>, who: Caller, e: Env): Reply
  {
    var refusal := CheckNew(cfg, caseId, title, status0, who, e);
    if refusal.Some? then Reply(s, Refused(refusal.value))
    else
      var status := StatusOrInitial(cfg, status0);
      Add(cfg, s, Action(s.nextId, caseId, title, description, assignee, messageTS, status, due, None, e.now),
          e.cases[caseId], who, e)
  }

  function Stamped(a: Action, e: Env): Action {
    if e.posted.Some? && e.posted.value != "" then a.(messageTS := e.posted.value, updatedAt := e.now) else a
  }

  /** PostSlackMessageToAction */
  function Post(cfg: Settings, s: Sys, id: int, who: Caller, e: Env): Reply {
    if !cfg.slack then Reply(s, Refused(NoSlack))
    else if id !in s.actions then Reply(s, Refused(ActionNotFound))
    else if s.actions[id].caseId !in e.cases then Reply(s, Refused(CaseMissing))
    else
      var a, parent := s.actions[id], e.cases[s.actions[id].caseId];
      if !MayWrite(parent, TokenActor(who)) then Reply(s, Refused(Denied))
      else if a.messageTS != "" then Reply(s, Refused(AlreadyPosted))
      else if parent.channel == "" then Reply(s, Refused(NoSlackChannel))
      else PostMessage(s, a, e.now, e.posted, e.second)
  }

  function NewAssignee(a: Action, p: Patch, human: bool): string {
    if p.clearAssignee then ""
    else if p.assignee.None? then a.assignee
    else if p.assignee.value != "" && p.rejectNonHuman && !human then a.assignee
    else p.assignee.value
  }

  function Patched(a: Action, p: Patch, human: bool): Action {
    a.(caseId := if p.caseId.Some? then p.caseId.value else a.caseId,
       title := if p.title.Some? then p.title.value else a.title,
       description := if p.description.Some? then p.description.value else a.description,
       assignee := NewAssignee(a, p, human),
       messageTS := if p.messageTS.Some? then p.messageTS.value else a.messageTS,
       status := if p.status.Some? then p.status.value else a.status,
       due := if p.clearDue then None else if p.due.Some? then p.due else a.due)
  }

  /** UpdateAction's checks of the action, its case, and the case it is to move to. */
  function Admit(s: Sys, id: int, p: Patch, who: Caller, e: Env): Option<Refusal> {
    if id !in s.actions then Some(ActionNotFound)
    else if s.actions[id].caseId !in e.cases then Some(CaseMissing)
    else if !MayWrite(e.cases[s.actions[id].caseId], ActorForAccess(who)) then Some(Denied)
    else
      var moves := p.caseId.Some? && p.caseId.value != s.actions[id].caseId;
      if moves && p.caseId.value !in e.cases then Some(CaseMissing)
      else if moves && e.cases[p.caseId.value].IsThreadBound() then Some(ThreadCaseHasNoActions)
      else None
  }

  /** The checks of UpdateAction. */
  function Check(cfg: Settings, s: Sys, id: int, p: Patch, who: Caller, e: Env): Option<Refusal> {
    var refusal := Admit(s, id, p, who, e);
    if refusal.Some? then refusal
    else if p.title == Some("") then Some(TitleMissing)
    else if p.status.Some? && p.status.value !in cfg.statuses then Some(InvalidStatus)
    else None
  }

  /** The changed copy is written, and each changed field recorded. */
  function Save(s: Sys, before: Action, after: Action, who: Caller, e: Env): Reply {
    var (s1, ok) := Put(s, after, e.save);
    if !ok then Reply(s1, Refused(NotSaved))
    else Reply(RecordChanges(s1, before, after, Author(who), e.lost), Done(after))
  }

  function Update(cfg: Settings, s: Sys, id: int, p: Patch, who: Caller, e: Env): Reply {
    var refusal := Check(cfg, s, id, p, who, e);
    if refusal.Some? then Reply(s, Refused(refusal.value))
    else Save(s, s.actions[id], Patched(s.actions[id], p, e.human).(updatedAt := e.now), who, e)
  }

  /** loadActionForArchive */
  function LoadForArchive(s: Sys, id: int, who: Caller, e: Env): Result {
    if id !in s.actions then Refused(ActionNotFound)
    else if s.actions[id].caseId !in e.cases then Refused(CaseMissing)
    else if !MayWrite(e.cases[s.actions[id].caseId], ActorForAccess(who)) then Refused(Denied)
    else Done(s.actions[id])
  }

  /** ArchiveAction and UnarchiveAction */
  function SetArchived(s: Sys, id: int, archive: bool, who: Caller, e: Env): Reply {
    var loaded := LoadForArchive(s, id, who, e);
    if loaded.Refused? then Reply(s, loaded)
    else if loaded.record.archivedAt.Some? == archive then
      Reply(s, Refused(if archive then IsArchived else NotArchived))
    else
      var after := loaded.record.(archivedAt := if archive then Some(e.now) else None, updatedAt := e.now);
      var (s1, ok) := Put(s, after, e.save);
      if !ok then Reply(s1, Refused(NotSaved))
      else
        var kind := if archive then Archived else Unarchived;
        Reply(Record(s1, Event(id, kind, Author(who), "", after.title), e.lost), Done(after))
  }

  datatype Bulk = Bulk(sys: Sys, archived: seq<Action>, failed: Option<Refusal>)

  /** BulkArchiveActions: already archived ids are skipped, any other refusal stops the batch. */
  function BulkArchive(s: Sys, ids: seq<(int, Env)>, who: Caller): (b: Bulk)
    ensures b.failed.Some? ==> b.archived == []
    decreases |ids|
  {
    if ids == [] then Bulk(s, [], None)
    else
      var first := SetArchived(s, ids[0].0, true, who, ids[0].1);
      if first.result == Refused(IsArchived) then BulkArchive(first.sys, ids[1..], who)
      else if first.result.Refused? then Bulk(first.sys, [], Some(first.result.why))
      else
        var rest := BulkArchive(first.sys, ids[1..], who);
        rest.(archived := if rest.failed.Some? then [] else [first.result.record] + rest.archived)
  }

  // ----- Runs -----

  datatype Op =
    | OpCreate(caseId: int, title: string, description: string, assignee: string, messageTS: string, status: string,
               due: Option<int>)
    | OpPost(id: int)
    | OpUpdate(id: int, patch: Patch)
    | OpArchive(id: int, archive: bool)

  datatype Call = Call(op: Op, who: Caller, env: Env)

  function Step(cfg: Settings, s: Sys, c: Call): Reply {
    match c.op
    case OpCreate(caseId, t, d, a, ts, st, due) => Create(cfg, s, caseId, t, d, a, ts, st, due, c.who, c.env)
    case OpPost(id) => Post(cfg, s, id, c.who, c.env)
    case OpUpdate(id, p) => Update(cfg, s, id, p, c.who, c.env)
    case OpArchive(id, archive) => SetArchived(s, id, archive, c.who, c.env)
  }

  function Run(cfg: Settings, s: Sys, calls: seq<Call>): Sys
    decreases |calls|
  {
    if calls == [] then s else Run(cfg, Step(cfg, s, calls[0]).sys, calls[1..])
  }
}
