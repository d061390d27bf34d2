/** How one call may change the store: which records can appear, and how a stored record can change. Every
    run invariant of the case lifecycle follows from this summary. */
module CaseShape {
  import opened Cases
  import opened CaseSpec

  ghost predicate WellFormed(s: Sys) {
    s.nextId >= 1 && forall id :: id in s.cases ==> 1 <= id < s.nextId && s.cases[id].id == id
  }

  /** Where a record hangs in Slack and on the board. */
  ghost predicate SamePlace(b: Case, a: Case) {
    a.channel == b.channel && a.threadTS == b.threadTS && a.board == b.board
  }

  ghost predicate OnThread(cfg: Config, b: Case, a: Case, channel: string, ts: string) {
    channel != "" && ts != "" && SamePlace(Bind(cfg, b, channel, ts, 0), a)
  }

  ghost predicate MayMakeChannel(cfg: Config, w: World) {
    cfg.slack && !cfg.ThreadMode() && w.channel.Some?
  }

  ghost predicate OnChannel(cfg: Config, b: Case, a: Case, w: World) {
    MayMakeChannel(cfg, w) && a.threadTS == b.threadTS && a.board == b.board && a.channel == w.channel.value
  }

  /** The ways a call may change the status and place of a stored record. */
  ghost predicate Evolves(cfg: Config, call: Call, b: Case, a: Case) {
    && a.id == b.id && a.reporter == b.reporter && a.isPrivate == b.isPrivate && a.requestKey == b.requestKey
    && (
         || (SamePlace(b, a) && a.status == b.status)
         || (call.op.OpCloseCase? && !b.IsThreadBound() && b.status.Normalize() == Open
             && SamePlace(b, a) && a.status == Closed)
         || (call.op.OpReopenCase? && !b.IsThreadBound() && b.status == Closed && SamePlace(b, a) && a.status == Open)
         || (call.op.OpUpdateCaseStatus? && cfg.Columns().Some? && call.op.board in cfg.Columns().value.ids
             && a == b.(board := call.op.board).SyncLifecycle(cfg.Columns().value).(updatedAt := a.updatedAt))
         || (call.op.OpCreateCase? && b.status == Open && b.channel == "" && a.status == Open
             && OnChannel(cfg, b, a, call.w))
         || (call.op.OpSubmitDraft? && b.status == Draft && a.status == Open && Opens(cfg, b, a, call.w)))
  }

  /** A promoted draft stays where it was, gets its own channel, or gets a thread in the monitored channel. */
  ghost predicate Opens(cfg: Config, b: Case, a: Case, w: World) {
    || SamePlace(b, a)
    || OnChannel(cfg, b, a, w)
    || (RouteFor(cfg, b.isPrivate).ViaThread? && w.root.Some?
        && OnThread(cfg, b, a, RouteFor(cfg, b.isPrivate).monitor, w.root.value))
  }

  /** The records a call may add. */
  ghost predicate Born(cfg: Config, call: Call, a: Case) {
    var blank := a.(channel := "", threadTS := "", board := "");
    match call.op
    case OpCreateDraft(n) =>
      a.status == Draft && a == blank && a.requestKey == "" && (a.isPrivate ==> !cfg.ThreadMode())
    case OpCreateCase(n) =>
      && a.status == Open && a.requestKey == n.requestKey && !RouteFor(cfg, n.isPrivate).NoRoute?
      && (RouteFor(cfg, n.isPrivate).ViaChannel? ==>
            (a.isPrivate ==> !cfg.ThreadMode()) && (a == blank || OnChannel(cfg, blank, a, call.w)))
      && (RouteFor(cfg, n.isPrivate).ViaThread? ==>
            !a.isPrivate && call.w.root.Some?
            && OnThread(cfg, blank, a, RouteFor(cfg, n.isPrivate).monitor, call.w.root.value))
    case OpCreateThreadBound(channel, ts, _, _, _) =>
      a.status == Open && a.requestKey == "" && !a.isPrivate && OnThread(cfg, blank, a, channel, ts)
    case _ => false
  }

  /** A call touches the record k and no other. */
  ghost predicate Only(s: Sys, s': Sys, k: int) {
    && s.nextId <= s'.nextId
    && forall id :: id != k ==> (id in s'.cases <==> id in s.cases) && (id in s.cases ==> s'.cases[id] == s.cases[id])
  }

  ghost predicate Touched(cfg: Config, s: Sys, call: Call, s': Sys, k: int) {
    && Only(s, s', k)
    && (k in s'.cases ==>
          k < s'.nextId
          && if k in s.cases then Evolves(cfg, call, s.cases[k], s'.cases[k])
             else k == s.nextId && s'.cases[k].id == k && Born(cfg, call, s'.cases[k]))
  }

  /** Everything a promotion can leave under the draft's id. */
  lemma PromoteShape(cfg: Config, s: Sys, c: Case, w: World)
    requires c.id in s.cases && s.cases[c.id] == c && c.status == Draft
    ensures var s' := Promote(cfg, s, c, w).sys;
            && Only(s, s', c.id) && s'.nextId == s.nextId && c.id in s'.cases
            && var a := s'.cases[c.id];
               a.id == c.id && a.reporter == c.reporter && a.isPrivate == c.isPrivate && a.requestKey == c.requestKey
               && ((a.status == Draft && SamePlace(c, a)) || (a.status == Open && Opens(cfg, c, a, w)))
  {
    var open := c.(status := Open, updatedAt := w.now);
    var (s1, flipped) := Put(s, open, w.update);
    if flipped {
      OpenDraftShape(cfg, s1, open, w);
      var s2 := OpenDraft(cfg, s1, open, w).sys;
      OpensFrom(cfg, c, open, s2.cases[c.id], w);
      RollBackShape(s2, open, w);
    }
  }

  lemma RollBackShape(s: Sys, snapshot: Case, w: World)
    requires snapshot.id in s.cases && s.cases[snapshot.id].id == snapshot.id
    ensures var s' := RollBack(s, snapshot, w);
            && Only(s, s', snapshot.id) && s'.nextId == s.nextId && snapshot.id in s'.cases
            && (s'.cases[snapshot.id] == s.cases[snapshot.id]
                || (s'.cases[snapshot.id].status == Draft && SamePlace(snapshot, s'.cases[snapshot.id])
                    && s'.cases[snapshot.id] == s.cases[snapshot.id].(
                         status := Draft, channel := snapshot.channel, threadTS := snapshot.threadTS,
                         board := snapshot.board, updatedAt := w.now)))
  {
  }

  lemma OpenDraftShape(cfg: Config, s: Sys, c: Case, w: World)
    requires c.id in s.cases ==> s.cases[c.id] == c
    ensures var s' := OpenDraft(cfg, s, c, w).sys;
            && Only(s, s', c.id) && s'.nextId == s.nextId && (c.id in s.cases <==> c.id in s'.cases)
            && (c.id in s.cases ==>
                  var a := s'.cases[c.id];
                  Opens(cfg, c, a, w) && a == c.(channel := a.channel, threadTS := a.threadTS, board := a.board,
                                                 channelUsers := a.channelUsers, updatedAt := a.updatedAt))
  {
  }

  lemma PreSubmitShape(s: Sys, c: Case, patch: Option<Patch>, w: World)
    requires c.id in s.cases && s.cases[c.id] == c
    ensures var r := PreSubmit(s, c, patch, w);
            && Only(s, r.sys, c.id) && r.sys.nextId == s.nextId && c.id in r.sys.cases
            && var a := r.sys.cases[c.id];
               a.id == c.id && a.reporter == c.reporter && a.isPrivate == c.isPrivate && a.requestKey == c.requestKey
               && a.status == c.status && SamePlace(c, a) && (r.result.Done? ==> r.result.record == a)
  {
  }

  lemma OpensFrom(cfg: Config, b: Case, c: Case, a: Case, w: World)
    requires SamePlace(b, c) && b.isPrivate == c.isPrivate && Opens(cfg, c, a, w)
    ensures Opens(cfg, b, a, w)
  {
  }

  lemma SubmitShape(cfg: Config, s: Sys, call: Call)
    requires WellFormed(s) && call.op.OpSubmitDraft?
    ensures Touched(cfg, s, call, SubmitDraft(cfg, s, call.op.id, call.op.patch, call.who, call.w).sys, call.op.id)
  {
    var draft := GetDraft(s, call.op.id, call.who);
    if draft.Done? {
      var b := draft.record;
      PreSubmitShape(s, b, call.op.patch, call.w);
      var edited := PreSubmit(s, b, call.op.patch, call.w);
      if edited.result.Done? {
        var c := edited.result.record;
        PromoteShape(cfg, edited.sys, c, call.w);
        var a := Promote(cfg, edited.sys, c, call.w).sys.cases[c.id];
        if a.status == Open {
          OpensFrom(cfg, b, c, a, call.w);
        }
      }
    }
  }

  lemma PersistShape(cfg: Config, s: Sys, in_: NewCase, status: CaseStatus, who: Actor, w: World) returns (k: int)
    requires WellFormed(s)
    ensures var r := Persist(cfg, s, in_, status, who, w);
            && Only(s, r.sys, k)
            && (k in s.cases ==> r.sys == s)
            && (k !in s.cases && k in r.sys.cases ==>
                  var a := r.sys.cases[k];
                  k == s.nextId && r.sys.nextId == k + 1 && a.id == k && a.status == status
                  && a == a.(channel := "", threadTS := "", board := "") && a.requestKey == in_.requestKey
                  && (a.isPrivate ==> !cfg.ThreadMode()))
            && (r.result.Done? ==> k in r.sys.cases && r.sys.cases[k] == r.result.record && r.result.record.id == k)
  {
    k := s.nextId;
    var existing := if in_.requestKey != "" && w.keyLookup then FindByKey(s.cases, in_.requestKey, s.nextId) else None;
    if Persist(cfg, s, in_, status, who, w).result.Done? && existing.Some? {
      k := existing.value.id;
    }
  }

  /** A record a channel-mode creation persisted or found. */
  ghost predicate Persisted(cfg: Config, s: Sys, s1: Sys, key: string, k: int) {
    && Only(s, s1, k)
    && (k in s.cases ==> s1 == s)
    && (k !in s.cases && k in s1.cases ==>
          var a := s1.cases[k];
          k == s.nextId && s1.nextId == k + 1 && a.id == k && a.status == Open
          && a == a.(channel := "", threadTS := "", board := "") && a.requestKey == key
          && (a.isPrivate ==> !cfg.ThreadMode()))
  }

  lemma PersistedIsTouch(cfg: Config, s: Sys, s1: Sys, call: Call, k: int)
    requires WellFormed(s) && call.op.OpCreateCase? && RouteFor(cfg, call.op.new_.isPrivate).ViaChannel?
    requires Persisted(cfg, s, s1, call.op.new_.requestKey, k)
    ensures Touched(cfg, s, call, s1, k)
  {
  }

  /** Activating it, or deleting it again, is of a listed kind too. */
  lemma ActivatedIsTouch(cfg: Config, s: Sys, s1: Sys, s2: Sys, s': Sys, call: Call, c: Case)
    requires WellFormed(s) && call.op.OpCreateCase? && RouteFor(cfg, call.op.new_.isPrivate).ViaChannel?
    requires Persisted(cfg, s, s1, call.op.new_.requestKey, c.id) && c.id in s1.cases && s1.cases[c.id] == c
    requires c.status == Open && c.channel == ""
    requires Only(s1, s2, c.id) && s2.nextId == s1.nextId && c.id in s2.cases
    requires s2.cases[c.id] == c
             || (OnChannel(cfg, c, s2.cases[c.id], call.w)
                 && s2.cases[c.id] == c.(channel := s2.cases[c.id].channel, channelUsers := s2.cases[c.id].channelUsers,
                                         updatedAt := s2.cases[c.id].updatedAt))
    requires s'.nextId == s2.nextId && (s'.cases == s2.cases || s'.cases == s2.cases - {c.id})
    ensures Touched(cfg, s, call, s', c.id)
  {
  }

  lemma ChannelModeShape(cfg: Config, s: Sys, call: Call) returns (k: int)
    requires WellFormed(s) && call.op.OpCreateCase? && RouteFor(cfg, call.op.new_.isPrivate).ViaChannel?
    ensures Touched(cfg, s, call, CreateChannelMode(cfg, s, call.op.new_, call.who, call.w).sys, k)
  {
    var n := call.op.new_;
    k := PersistShape(cfg, s, n, Open, call.who, call.w);
    var persisted := Persist(cfg, s, n, Open, call.who, call.w);
    PersistedIsTouch(cfg, s, persisted.sys, call, k);
    if persisted.result.Done? && persisted.result.record.status == Open && persisted.result.record.channel == "" {
      var c := persisted.result.record;
      ActivateShape(cfg, persisted.sys, c, call.w);
      ActivatedIsTouch(cfg, s, persisted.sys, Activate(cfg, persisted.sys, c, call.w).sys,
                       CreateChannelMode(cfg, s, n, call.who, call.w).sys, call, c);
    }
  }

  lemma ActivateShape(cfg: Config, s: Sys, c: Case, w: World)
    requires c.id in s.cases && s.cases[c.id] == c
    ensures var s' := Activate(cfg, s, c, w).sys;
            && Only(s, s', c.id) && s'.nextId == s.nextId && c.id in s'.cases
            && (s'.cases[c.id] == c
                || (OnChannel(cfg, c, s'.cases[c.id], w)
                    && s'.cases[c.id] == c.(channel := s'.cases[c.id].channel,
                                            channelUsers := s'.cases[c.id].channelUsers,
                                            updatedAt := s'.cases[c.id].updatedAt)))
  {
  }

  lemma ThreadBoundShape(cfg: Config, s: Sys, channel: string, ts: string, reporter: string,
                         title: string, description: string, key: string, w: World)
    requires WellFormed(s)
    ensures var s' := CreateThreadBound(cfg, s, channel, ts, reporter, title, description, key, w).sys;
            && Only(s, s', s.nextId)
            && (s.nextId in s'.cases ==>
                  var a := s'.cases[s.nextId];
                  s'.nextId == s.nextId + 1 && a.id == s.nextId && a.status == Open && a.requestKey == key
                  && !a.isPrivate && OnThread(cfg, a.(channel := "", threadTS := "", board := ""), a, channel, ts))
  {
  }

  lemma ThreadModeShape(cfg: Config, s: Sys, call: Call)
    requires WellFormed(s) && call.op.OpCreateCase? && !RouteFor(cfg, call.op.new_.isPrivate).ViaChannel?
    ensures Touched(cfg, s, call, Step(cfg, s, call).sys, s.nextId)
  {
    var n, route := call.op.new_, RouteFor(cfg, call.op.new_.isPrivate);
    if route.ViaThread? && call.w.root.Some? {
      ThreadBoundShape(cfg, Log(s, RootPosted(route.monitor, call.w.root.value)), route.monitor, call.w.root.value,
                       ReporterOf(call.who), n.title, n.description, n.requestKey, call.w);
    }
  }

  lemma StoreShape(s: Sys, c: Case, w: Write)
    ensures var s' := Store(s, c, w).sys;
            Only(s, s', c.id) && s'.nextId == s.nextId && s'.trace == s.trace && (c.id in s'.cases <==> c.id in s.cases)
            && (c.id in s.cases ==> s'.cases[c.id] == s.cases[c.id] || s'.cases[c.id] == c)
  {
  }

  /** An edit that keeps the status and the place of a stored record is of a listed kind. */
  lemma EditIsTouch(cfg: Config, s: Sys, call: Call, c: Case, s': Sys, k: int)
    requires WellFormed(s) && k in s.cases && s'.nextId == s.nextId
    requires c.id == k && c.reporter == s.cases[k].reporter && c.isPrivate == s.cases[k].isPrivate
    requires c.requestKey == s.cases[k].requestKey && SamePlace(s.cases[k], c) && c.status == s.cases[k].status
    requires s'.cases == s.cases || s'.cases == s.cases[k := c]
    ensures Touched(cfg, s, call, s', k)
  {
  }

  lemma UpdateStores(cfg: Config, s: Sys, id: int, p: Patch, who: Actor, w: World)
    requires id in s.cases && s.cases[id].id == id
    ensures var s' := UpdateCase(cfg, s, id, p, who, w).sys;
            var c := Patched(s.cases[id], p,
                             if w.validated.Some? then w.validated.value else map[]).(updatedAt := w.now);
            s'.nextId == s.nextId && (s'.cases == s.cases || s'.cases == s.cases[id := c])
  {
  }

  lemma UpdateShape(cfg: Config, s: Sys, call: Call)
    requires WellFormed(s) && call.op.OpUpdateCase?
    ensures Touched(cfg, s, call, UpdateCase(cfg, s, call.op.id, call.op.edit, call.who, call.w).sys, call.op.id)
  {
    var id, p, w := call.op.id, call.op.edit, call.w;
    if id in s.cases {
      UpdateStores(cfg, s, id, p, call.who, w);
      var c := Patched(s.cases[id], p, if w.validated.Some? then w.validated.value else map[]).(updatedAt := w.now);
      EditIsTouch(cfg, s, call, c, UpdateCase(cfg, s, id, p, call.who, w).sys, id);
    }
  }

  lemma MaterializeShape(cfg: Config, s: Sys, call: Call)
    requires WellFormed(s) && call.op.OpMaterialize?
    ensures Touched(cfg, s, call,
                    Materialize(s, call.op.id, call.op.title, call.op.description, call.op.fields, call.w).sys,
                    call.op.id)
  {
    var id, s' := call.op.id,
      Materialize(s, call.op.id, call.op.title, call.op.description, call.op.fields, call.w).sys;
    if id in s.cases {
      EditIsTouch(cfg, s, call, s'.cases[id], s', id);
    }
  }

  lemma SyncShape(cfg: Config, s: Sys, call: Call)
    requires WellFormed(s) && call.op.OpSyncMembers?
    ensures Touched(cfg, s, call, SyncMembers(cfg, s, call.op.id, call.who, call.w).sys, call.op.id)
  {
    var id, s' := call.op.id, SyncMembers(cfg, s, call.op.id, call.who, call.w).sys;
    if id in s.cases {
      EditIsTouch(cfg, s, call, s'.cases[id], s', id);
    }
  }

  lemma ReassignShape(cfg: Config, s: Sys, call: Call)
    requires WellFormed(s) && call.op.OpReassign?
    ensures Touched(cfg, s, call, Reassign(s, call.op.id, call.op.assign, call.op.users, call.who, call.w).sys,
                    call.op.id)
  {
    var id, s' := call.op.id, Reassign(s, call.op.id, call.op.assign, call.op.users, call.who, call.w).sys;
    if id in s.cases {
      EditIsTouch(cfg, s, call, s'.cases[id], s', id);
    }
  }

  lemma RemovalShape(cfg: Config, s: Sys, call: Call)
    requires WellFormed(s) && (call.op.OpDeleteCase? || call.op.OpDiscardDraft?)
    ensures Touched(cfg, s, call, Step(cfg, s, call).sys, call.op.id)
  {
  }

  lemma CloseShape(cfg: Config, s: Sys, call: Call)
    requires WellFormed(s) && call.op.OpCloseCase?
    ensures Touched(cfg, s, call, CloseCase(s, call.op.id, call.who, call.w).sys, call.op.id)
  {
    var loaded := Load(s, call.op.id, call.who);
    if loaded.Done? {
      StoreShape(s, loaded.record.(status := Closed, updatedAt := call.w.now), call.w.update);
    }
  }

  lemma ReopenShape(cfg: Config, s: Sys, call: Call)
    requires WellFormed(s) && call.op.OpReopenCase?
    ensures Touched(cfg, s, call, ReopenCase(s, call.op.id, call.who, call.w).sys, call.op.id)
  {
    var loaded := Load(s, call.op.id, call.who);
    if loaded.Done? {
      StoreShape(s, loaded.record.(status := Open, updatedAt := call.w.now), call.w.update);
    }
  }

  /** A move to another column is of a listed kind. */
  lemma MoveIsTouch(cfg: Config, s: Sys, call: Call, b: Case, a: Case, s': Sys)
    requires WellFormed(s) && b.id in s.cases && s.cases[b.id] == b && s'.nextId == s.nextId
    requires call.op.OpUpdateCaseStatus? && cfg.Columns().Some? && call.op.board in cfg.Columns().value.ids
    requires a == b.(board := call.op.board).SyncLifecycle(cfg.Columns().value).(updatedAt := a.updatedAt)
    requires s'.cases == s.cases || s'.cases == s.cases[b.id := a]
    ensures Touched(cfg, s, call, s', b.id)
  {
  }

  lemma BoardShape(cfg: Config, s: Sys, call: Call)
    requires WellFormed(s) && call.op.OpUpdateCaseStatus?
    ensures Touched(cfg, s, call, UpdateCaseStatus(cfg, s, call.op.id, call.op.board, call.who, call.w).sys, call.op.id)
  {
    var loaded := Load(s, call.op.id, call.who);
    if loaded.Done? && cfg.Columns().Some? && call.op.board in cfg.Columns().value.ids {
      var a := loaded.record.(board := call.op.board).SyncLifecycle(cfg.Columns().value).(updatedAt := call.w.now);
      MoveIsTouch(cfg, s, call, loaded.record, a,
                  UpdateCaseStatus(cfg, s, call.op.id, call.op.board, call.who, call.w).sys);
    }
  }

  /** The summary of a call: it touches one record, in one of the listed ways. */
  lemma StepShape(cfg: Config, s: Sys, call: Call) returns (k: int)
    requires WellFormed(s)
    ensures Touched(cfg, s, call, Step(cfg, s, call).sys, k)
    ensures WellFormed(Step(cfg, s, call).sys)
  {
    match call.op {
      case OpCreateCase(n) =>
        if RouteFor(cfg, n.isPrivate).ViaChannel? {
          k := ChannelModeShape(cfg, s, call);
        } else {
          ThreadModeShape(cfg, s, call);
          k := s.nextId;
        }
      case OpCreateThreadBound(channel, ts, reporter, title, description) =>
        ThreadBoundShape(cfg, s, channel, ts, reporter, title, description, "", call.w);
        k := s.nextId;
      case OpCreateDraft(n) => k := PersistShape(cfg, s, n.(requestKey := ""), Draft, call.who, call.w);
      case OpSubmitDraft(id, _) => SubmitShape(cfg, s, call); k := id;
      case OpCloseCase(id) => CloseShape(cfg, s, call); k := id;
      case OpReopenCase(id) => ReopenShape(cfg, s, call); k := id;
      case OpUpdateCaseStatus(id, _) => BoardShape(cfg, s, call); k := id;
      case OpUpdateCase(id, _) => UpdateShape(cfg, s, call); k := id;
      case OpReassign(id, _, _) => ReassignShape(cfg, s, call); k := id;
      case OpDeleteCase(id) => RemovalShape(cfg, s, call); k := id;
      case OpDiscardDraft(id) => RemovalShape(cfg, s, call); k := id;
      case OpMaterialize(id, _, _, _) => MaterializeShape(cfg, s, call); k := id;
      case OpSyncMembers(id) => SyncShape(cfg, s, call); k := id;
    }
    TouchedIsWellFormed(cfg, s, call, Step(cfg, s, call).sys, k);
  }

  lemma TouchedIsWellFormed(cfg: Config, s: Sys, call: Call, s': Sys, k: int)
    requires WellFormed(s) && Touched(cfg, s, call, s', k)
    ensures WellFormed(s')
  {
  }
}
