/** What every case operation of pkg/usecase/case.go does to one workspace's case store, as functions of the
    call, its caller and the answers Slack, the validator and the repository give. */
module CaseSpec {
  import opened Cases
  import Assignees

  datatype Lifecycle = CaseCreated | CaseClosed

  /** Calls that leave the process: Slack channel creation and renaming, answered or not, thread roots that were
      posted, and lifecycle events. */
  datatype Effect =
    | ChannelAsked(caseId: int, answer: Option<string>)
    | RenameAsked(channel: string, title: string)
    | RootPosted(channel: string, ts: string)
    | Published(caseId: int, kind: Lifecycle, record: Case)

  datatype Sys = Sys(cases: map<int, Case>, nextId: int, trace: seq<Effect>)

  datatype Result = Done(record: Case) | Refused(err: Err)

  datatype Reply = Reply(sys: Sys, result: Result)

  datatype NewCase = NewCase(
    title: string, description: string, assignees: seq<string>, fields: map<string, FieldValue>,
    isPrivate: bool, isTest: bool, requestKey: string)

  datatype Patch = Patch(
    title: Option<string>, description: Option<string>, isTest: Option<bool>,
    fields: Option<map<string, FieldValue>>)

  /** The outside world's answers during one call. `gate` is the validation before a thread root is posted,
      `validated` the authoritative one with the enriched values, `members` the synced channel members; `cascade` says
      that the case's actions were listed and each was deleted. */
  datatype World = World(
    now: int,
    keyLookup: bool, threadLookup: bool, gate: bool, validated: Option<map<string, FieldValue>>, usersKnown: bool,
    create: Write, patch: Write, update: Write, activate: Write, rollbackRead: bool, rollback: Write, cascade: bool,
      delete: Write,
    channel: Option<string>, root: Option<string>, rename: bool, members: Option<seq<string>>)

  // ----- Repository -----

  const EMPTY := Sys(map[], 1, [])

  function Log(s: Sys, e: Effect): Sys {
    s.(trace := s.trace + [e])
  }

  /** Update rewrites a stored document and fails on a missing one. */
  function Put(s: Sys, c: Case, w: Write): (Sys, bool) {
    if w.Lost? || c.id !in s.cases then (s, false)
    else (s.(cases := s.cases[c.id := c]), w.Acked?)
  }

  /** Create assigns the id; a case outside any thread must have a reporter (ValidateNew). */
  function Add(s: Sys, c: Case, w: Write): (Sys, Option<Case>) {
    if (c.threadTS == "" && c.reporter == "") || w.Lost? then (s, None)
    else
      var stored := c.(id := s.nextId);
      (s.(cases := s.cases[stored.id := stored], nextId := s.nextId + 1), if w.Acked? then Some(stored) else None)
  }

  function Drop(s: Sys, id: int, w: Write): Sys {
    if w.Lost? then s else s.(cases := s.cases - {id})
  }

  function FindByKey(cases: map<int, Case>, key: string, n: int): (r: Option<Case>)
    ensures r.None? ==> forall id :: id in cases && 0 <= id < n ==> cases[id].requestKey != key
    ensures r.Some? ==> exists id :: id in cases && 0 <= id < n && cases[id] == r.value && cases[id].requestKey == key
    decreases n
  {
    if n <= 0 then None
    else if n - 1 in cases && cases[n - 1].requestKey == key then Some(cases[n - 1])
    else FindByKey(cases, key, n - 1)
  }

  function FindByThread(cases: map<int, Case>, channel: string, ts: string, n: int): (r: Option<Case>)
    ensures r.None? ==> forall id :: id in cases && 0 <= id < n ==>
              !(cases[id].channel == channel && cases[id].threadTS == ts)
    ensures r.Some? ==> exists id :: id in cases && 0 <= id < n && cases[id] == r.value
                                     && cases[id].channel == channel && cases[id].threadTS == ts
    decreases n
  {
    if n <= 0 then None
    else if n - 1 in cases && cases[n - 1].channel == channel && cases[n - 1].threadTS == ts then Some(cases[n - 1])
    else FindByThread(cases, channel, ts, n - 1)
  }

  // ----- The funnel -----

  datatype Route = ViaChannel | ViaThread(monitor: string) | NoRoute(err: Err)

  /** openInWorkspaceMode */
  function RouteFor(cfg: Config, isPrivate: bool): Route {
    match cfg.registry
    case NoRegistry => ViaChannel
    case UnknownWorkspace => NoRoute(WorkspaceUnknown)
    case Entry(threadMode, monitor, _, _) =>
      if !threadMode then ViaChannel
      else if isPrivate then NoRoute(PrivateThreadUnsupported)
      else if !cfg.slack then ViaChannel
      else if monitor == "" then NoRoute(SlackUnconfigured)
      else ViaThread(monitor)
  }

  /** applyThreadBinding */
  function Bind(cfg: Config, c: Case, channel: string, ts: string, now: int): Case {
    var bound := c.(channel := channel, threadTS := ts, updatedAt := now);
    match cfg.Columns()
    case Some(columns) =>
      if c.board == "" || c.board !in columns.ids then bound.(board := columns.initial) else bound
    case None => bound
  }

  function ReporterOf(who: Actor): string {
    if who.Member? then who.sub else ""
  }

  // ----- Creation -----

  /** persistCase, for drafts and for open cases. */
  function Persist(cfg: Config, s: Sys, in_: NewCase, status: CaseStatus, who: Actor, w: World): Reply {
    if status != Draft && in_.title == "" then Reply(s, Refused(TitleRequired))
    else if in_.isPrivate && cfg.registry.UnknownWorkspace? then Reply(s, Refused(WorkspaceUnknown))
    else if in_.isPrivate && cfg.ThreadMode() then Reply(s, Refused(PrivateThreadUnsupported))
    else
      var existing := if in_.requestKey != "" && w.keyLookup then FindByKey(s.cases, in_.requestKey, s.nextId)
        else None;
      if existing.Some? then Reply(s, Done(existing.value))
      else if w.validated.None? then Reply(s, Refused(Validation))
      else
        var c := Case(0, in_.title, in_.description, status, ReporterOf(who), in_.assignees, "", "", "",
                      in_.isPrivate, in_.isTest, [], w.validated.value, in_.requestKey, w.now);
        var (s1, created) := Add(s, c, w.create);
        Reply(s1, if created.Some? then Done(created.value) else Refused(WriteFailed))
  }

  /** The record with its own channel and the members the sync found there. */
  function Activated(c: Case, w: World): Case
    requires w.channel.Some?
  {
    c.(channel := w.channel.value, channelUsers := if w.members.Some? then w.members.value else [], updatedAt := w.now)
  }

  /** activateChannelModeCase; invitations, bookmark and welcome posts cannot fail the call and are left out. */
  function Activate(cfg: Config, s: Sys, c: Case, w: World): Reply {
    if !cfg.slack then Reply(s, Done(c))
    else if cfg.ThreadMode() then Reply(s, Refused(ChannelOnThreadWorkspace))
    else
      var s1 := Log(s, ChannelAsked(c.id, w.channel));
      if w.channel.None? then Reply(s1, Refused(SlackFailed))
      else
        var active := Activated(c, w);
        var (s2, ok) := Put(s1, active, w.activate);
        Reply(s2, if ok then Done(active) else Refused(WriteFailed))
  }

  function CreateChannelMode(cfg: Config, s: Sys, in_: NewCase, who: Actor, w: World): Reply {
    var persisted := Persist(cfg, s, in_, Open, who, w);
    if persisted.result.Refused? then persisted
    else
      var c := persisted.result.record;
      if c.status != Open || c.channel != "" then persisted
      else
        var active := Activate(cfg, persisted.sys, c, w);
        if active.result.Refused? then Reply(Drop(active.sys, c.id, w.delete), active.result)
        else Reply(Log(active.sys, Published(c.id, CaseCreated, active.result.record)), active.result)
  }

  /** createThreadBoundCase */
  function CreateThreadBound(cfg: Config, s: Sys, channel: string, ts: string, reporter: string,
                             title: string, description: string, key: string, w: World): Reply
  {
    if channel == "" || ts == "" then Reply(s, Refused(Validation))
    else if !w.threadLookup then Reply(s, Refused(LookupFailed))
    else
      var existing := FindByThread(s.cases, channel, ts, s.nextId);
      if existing.Some? then Reply(s, Done(existing.value))
      else if w.validated.None? then Reply(s, Refused(Validation))
      else
        var c := Bind(cfg, Case(0, title, description, Open, reporter, [], "", "", "", false, false, [],
                                w.validated.value, key, w.now), channel, ts, w.now);
        var (s1, created) := Add(s, c, w.create);
        if created.None? then Reply(s1, Refused(WriteFailed))
        else Reply(Log(s1, Published(created.value.id, CaseCreated, created.value)), Done(created.value))
  }

  /** createThreadModeCase */
  function CreateThreadMode(cfg: Config, s: Sys, monitor: string, in_: NewCase, who: Actor, w: World): Reply {
    if in_.title == "" then Reply(s, Refused(TitleRequired))
    else
      var existing := if in_.requestKey != "" && w.keyLookup then FindByKey(s.cases, in_.requestKey, s.nextId)
        else None;
      if existing.Some? then Reply(s, Done(existing.value))
      else if !w.gate then Reply(s, Refused(Validation))
      else if w.root.None? || w.root.value == "" then Reply(s, Refused(SlackFailed))
      else CreateThreadBound(cfg, Log(s, RootPosted(monitor, w.root.value)), monitor, w.root.value, ReporterOf(who),
                             in_.title, in_.description, in_.requestKey, w)
  }

  function CreateCase(cfg: Config, s: Sys, in_: NewCase, who: Actor, w: World): Reply {
    match RouteFor(cfg, in_.isPrivate)
    case NoRoute(err) => Reply(s, Refused(err))
    case ViaChannel => CreateChannelMode(cfg, s, in_, who, w)
    case ViaThread(monitor) => CreateThreadMode(cfg, s, monitor, in_, who, w)
  }

  function CreateDraft(cfg: Config, s: Sys, in_: NewCase, who: Actor, w: World): Reply {
    Persist(cfg, s, in_.(requestKey := ""), Draft, who, w)
  }

  // ----- Drafts -----

  /** GetDraft: a private draft exists for its reporter only. */
  function GetDraft(s: Sys, id: int, who: Actor): Result {
    if id !in s.cases then Refused(NotFound)
    else if !s.cases[id].IsDraft() then Refused(NotDraft)
    else if s.cases[id].isPrivate && (who.System? || s.cases[id].reporter != who.sub) then Refused(NotFound)
    else Done(s.cases[id])
  }

  function Patched(c: Case, p: Patch, fields: map<string, FieldValue>): Case {
    c.(title := if p.title.Some? then p.title.value else c.title,
       description := if p.description.Some? then p.description.value else c.description,
       isTest := if p.isTest.Some? then p.isTest.value else c.isTest,
       fields := if p.fields.Some? then c.fields + fields else c.fields)
  }

  /** The pre-submit edits of SubmitDraft, stored before the strict checks run. */
  function PreSubmit(s: Sys, c: Case, patch: Option<Patch>, w: World): Reply {
    if patch.None? then Reply(s, Done(c))
    else if patch.value.fields.Some? && w.validated.None? then Reply(s, Refused(Validation))
    else if !w.usersKnown then Reply(s, Refused(Validation))
    else
      var edited := Patched(c, patch.value,
                            if w.validated.Some? then w.validated.value else map[]).(updatedAt := w.now);
      var (s1, ok) := Put(s, edited, w.patch);
      Reply(s1, if ok then Done(edited) else Refused(WriteFailed))
  }

  /** The thread producer of SubmitDraft. */
  function BindDraft(cfg: Config, s: Sys, c: Case, monitor: string, w: World): Reply {
    if w.root.None? || w.root.value == "" then Reply(s, Refused(SlackFailed))
    else
      var s1 := Log(s, RootPosted(monitor, w.root.value));
      var bound := Bind(cfg, c, monitor, w.root.value, w.now);
      var (s2, ok) := Put(s1, bound, w.activate);
      Reply(s2, if ok then Done(bound) else Refused(WriteFailed))
  }

  function OpenDraft(cfg: Config, s: Sys, c: Case, w: World): Reply {
    match RouteFor(cfg, c.isPrivate)
    case NoRoute(err) => Reply(s, Refused(err))
    case ViaChannel => Activate(cfg, s, c, w)
    case ViaThread(monitor) => BindDraft(cfg, s, c, monitor, w)
  }

  /** The rollback re-reads the record and restores the snapshot taken before the funnel ran. */
  function RollBack(s: Sys, snapshot: Case, w: World): Sys {
    if !w.rollbackRead || snapshot.id !in s.cases then s
    else
      var rolled := s.cases[snapshot.id].(status := Draft, channel := snapshot.channel, threadTS := snapshot.threadTS,
                                          board := snapshot.board, updatedAt := w.now);
      Put(s, rolled, w.rollback).0
  }

  function SubmitDraft(cfg: Config, s: Sys, id: int, patch: Option<Patch>, who: Actor, w: World): Reply {
    var draft := GetDraft(s, id, who);
    if draft.Refused? then Reply(s, draft)
    else
      var edited := PreSubmit(s, draft.record, patch, w);
      if edited.result.Refused? then edited
      else Promote(cfg, edited.sys, edited.result.record, w)
  }

  /** The strict checks, the status flip, the funnel and its rollback. */
  function Promote(cfg: Config, s: Sys, c: Case, w: World): Reply {
    if c.title == "" then Reply(s, Refused(TitleRequired))
    else if !(cfg.Required() <= c.fields.Keys) then Reply(s, Refused(MissingRequired))
    else
      var open := c.(status := Open, updatedAt := w.now);
      var (s1, flipped) := Put(s, open, w.update);
      if !flipped then Reply(s1, Refused(WriteFailed))
      else
        var active := OpenDraft(cfg, s1, open, w);
        if active.result.Refused? then
          Reply(RollBack(active.sys, open, w), Refused(ActivationFailed(active.result.err)))
        else Reply(Log(active.sys, Published(c.id, CaseCreated, active.result.record)), active.result)
  }

  function DiscardDraft(s: Sys, id: int, who: Actor, w: World): Reply {
    var draft := GetDraft(s, id, who);
    if draft.Refused? then Reply(s, draft)
    else Reply(Drop(s, id, w.delete), if w.delete.Acked? then draft else Refused(WriteFailed))
  }

  // ----- Edits -----

  /** loadCaseForWrite */
  function Load(s: Sys, id: int, who: Actor): Result {
    if id !in s.cases then Refused(NotFound)
    else if !MayWrite(s.cases[id], who) then Refused(AccessDenied)
    else Done(s.cases[id])
  }

  function Store(s: Sys, c: Case, w: Write): Reply {
    var (s1, ok) := Put(s, c, w);
    Reply(s1, if ok then Done(c) else Refused(WriteFailed))
  }

  predicate RenamesChannel(cfg: Config, c: Case, p: Patch) {
    p.title.Some? && cfg.slack && !c.IsThreadBound() && c.channel != "" && c.title != p.title.value
  }

  /** The channel is renamed before the record is stored. */
  function Rewrite(cfg: Config, s: Sys, c: Case, p: Patch, w: World): Reply {
    var s1 := if RenamesChannel(cfg, c, p) then Log(s, RenameAsked(c.channel, p.title.value)) else s;
    if RenamesChannel(cfg, c, p) && !w.rename then Reply(s1, Refused(SlackFailed))
    else Store(s1, Patched(c, p, if w.validated.Some? then w.validated.value else map[]).(updatedAt := w.now),
               w.update)
  }

  function UpdateCase(cfg: Config, s: Sys, id: int, p: Patch, who: Actor, w: World): Reply {
    var loaded := Load(s, id, who);
    if loaded.Refused? then Reply(s, loaded)
    else if p.title == Some("") && !loaded.record.IsDraft() then Reply(s, Refused(TitleRequired))
    else if p.fields.Some? && w.validated.None? then Reply(s, Refused(Validation))
    else Rewrite(cfg, s, loaded.record, p, w)
  }

  /** Empty texts keep the placeholder. */
  function Filled(c: Case, title: string, description: string, fields: map<string, FieldValue>): Case {
    c.(title := if title != "" then title else c.title,
       description := if description != "" then description else c.description,
       fields := c.fields + fields)
  }

  /** MaterializeThreadCase; there is no access gate. */
  function Materialize(s: Sys, id: int, title: string, description: string,
                       fields: map<string, FieldValue>, w: World): Reply
  {
    if id !in s.cases then Reply(s, Refused(NotFound))
    else if fields != map[] && w.validated.None? then Reply(s, Refused(Validation))
    else
      var given := if fields != map[] then w.validated.value else map[];
      Store(s, Filled(s.cases[id], title, description, given).(updatedAt := w.now), w.update)
  }

  function Regrouped(c: Case, assign: bool, users: seq<string>, now: int): Case {
    var after := if assign then Assignees.Union(c.assignees, users) else Assignees.Without(c.assignees, users);
    c.(assignees := after, updatedAt := if after != c.assignees then now else c.updatedAt)
  }

  /** AssignCase and UnassignCase; the transaction itself is modelled in module Assignees. */
  function Reassign(s: Sys, id: int, assign: bool, users: seq<string>, who: Actor, w: World): Reply {
    var loaded := Load(s, id, who);
    if loaded.Refused? || users == [] then Reply(s, loaded)
    else if assign && !w.usersKnown then Reply(s, Refused(Validation))
    else Store(s, Regrouped(loaded.record, assign, users, w.now), w.update)
  }

  function SyncMembers(cfg: Config, s: Sys, id: int, who: Actor, w: World): Reply {
    var loaded := Load(s, id, who);
    if loaded.Refused? then Reply(s, loaded)
    else if loaded.record.channel == "" then Reply(s, Refused(NoChannel))
    else if !cfg.slack || w.members.None? then Reply(s, Refused(SlackFailed))
    else Store(s, loaded.record.(channelUsers := w.members.value, updatedAt := w.now), w.update)
  }

  function DeleteCase(s: Sys, id: int, who: Actor, w: World): Reply {
    var loaded := Load(s, id, who);
    if loaded.Refused? then Reply(s, loaded)
    else if !w.cascade then Reply(s, Refused(WriteFailed))
    else Reply(Drop(s, id, w.delete), if w.delete.Acked? then loaded else Refused(NotFound))
  }

  // ----- Lifecycle -----

  function CloseCase(s: Sys, id: int, who: Actor, w: World): Reply {
    var loaded := Load(s, id, who);
    if loaded.Refused? then Reply(s, loaded)
    else if loaded.record.IsThreadBound() then Reply(s, Refused(UseBoardStatus))
    else if loaded.record.status == Draft then Reply(s, Refused(IsADraft))
    else if loaded.record.status == Closed then Reply(s, Refused(AlreadyClosed))
    else
      var closed := loaded.record.(status := Closed, updatedAt := w.now);
      var stored := Store(s, closed, w.update);
      if stored.result.Refused? then stored
      else Reply(Log(stored.sys, Published(id, CaseClosed, closed)), stored.result)
  }

  function ReopenCase(s: Sys, id: int, who: Actor, w: World): Reply {
    var loaded := Load(s, id, who);
    if loaded.Refused? then Reply(s, loaded)
    else if loaded.record.IsThreadBound() then Reply(s, Refused(UseBoardStatus))
    else if loaded.record.status == Draft then Reply(s, Refused(IsADraft))
    else if loaded.record.status.Normalize() == Open then Reply(s, Refused(AlreadyOpen))
    else Store(s, loaded.record.(status := Open, updatedAt := w.now), w.update)
  }

  /** A case crosses to closed on the board with a Closed event, as CloseCase publishes one. */
  function Move(s: Sys, c: Case, columns: StatusSet, board: string, w: World): Reply {
    var moved := c.(board := board).SyncLifecycle(columns).(updatedAt := w.now);
    var stored := Store(s, moved, w.update);
    if stored.result.Refused? || c.IsClosed() || !moved.IsClosed() then stored
    else Reply(Log(stored.sys, Published(c.id, CaseClosed, moved)), stored.result)
  }

  function UpdateCaseStatus(cfg: Config, s: Sys, id: int, board: string, who: Actor, w: World): Reply {
    if cfg.Columns().None? then Reply(s, Refused(NoColumns))
    else if board !in cfg.Columns().value.ids then Reply(s, Refused(UnknownColumn))
    else
      var loaded := Load(s, id, who);
      if loaded.Refused? then Reply(s, loaded) else Move(s, loaded.record, cfg.Columns().value, board, w)
  }

  // ----- Runs -----

  datatype Op =
    | OpCreateCase(new_: NewCase)
    | OpCreateDraft(new_: NewCase)
    | OpCreateThreadBound(channel: string, ts: string, reporter: string, title: string, description: string)
    | OpSubmitDraft(id: int, patch: Option<Patch>)
    | OpDiscardDraft(id: int)
    | OpUpdateCase(id: int, edit: Patch)
    | OpMaterialize(id: int, title: string, description: string, fields: map<string, FieldValue>)
    | OpReassign(id: int, assign: bool, users: seq<string>)
    | OpSyncMembers(id: int)
    | OpDeleteCase(id: int)
    | OpCloseCase(id: int)
    | OpReopenCase(id: int)
    | OpUpdateCaseStatus(id: int, board: string)

  datatype Call = Call(op: Op, who: Actor, w: World)

  function Step(cfg: Config, s: Sys, call: Call): Reply {
    match call.op
    case OpCreateCase(n) => CreateCase(cfg, s, n, call.who, call.w)
    case OpCreateDraft(n) => CreateDraft(cfg, s, n, call.who, call.w)
    case OpCreateThreadBound(ch, ts, rep, t, d) => CreateThreadBound(cfg, s, ch, ts, rep, t, d, "", call.w)
    case OpSubmitDraft(id, patch) => SubmitDraft(cfg, s, id, patch, call.who, call.w)
    case OpDiscardDraft(id) => DiscardDraft(s, id, call.who, call.w)
    case OpUpdateCase(id, p) => UpdateCase(cfg, s, id, p, call.who, call.w)
    case OpMaterialize(id, t, d, f) => Materialize(s, id, t, d, f, call.w)
    case OpReassign(id, assign, users) => Reassign(s, id, assign, users, call.who, call.w)
    case OpSyncMembers(id) => SyncMembers(cfg, s, id, call.who, call.w)
    case OpDeleteCase(id) => DeleteCase(s, id, call.who, call.w)
    case OpCloseCase(id) => CloseCase(s, id, call.who, call.w)
    case OpReopenCase(id) => ReopenCase(s, id, call.who, call.w)
    case OpUpdateCaseStatus(id, board) => UpdateCaseStatus(cfg, s, id, board, call.who, call.w)
  }

  function Run(cfg: Config, s: Sys, calls: seq<Call>): Sys
    decreases |calls|
  {
    if calls == [] then s else Run(cfg, Step(cfg, s, calls[0]).sys, calls[1..])
  }
}
