/** What the branching case operations do to a record, said from the stored record, the call and the outside world's
    answers alone: when they succeed, what they then store, and what they tell Slack and the listeners. */
module CasePromises {
  import opened Cases
  import opened CaseSpec
  import opened CaseShape
  import opened CaseOutcomes
  import CaseReads
  import CaseRollback

  // ----- Where a case goes -----

  /** The workspace opens a case of this privacy in a thread of its monitored channel. */
  predicate GoesToThread(cfg: Config, isPrivate: bool) {
    cfg.slack && !isPrivate && cfg.registry.Entry? && cfg.registry.threadMode && cfg.registry.monitor != ""
  }

  /** The workspace opens it in a channel of its own, or in none when Slack is not wired. */
  predicate GoesToChannel(cfg: Config, isPrivate: bool) {
    cfg.registry.NoRegistry?
    || (cfg.registry.Entry? && (!cfg.registry.threadMode || (!isPrivate && !cfg.slack)))
  }

  /** The funnel takes these two ways and no others, and says why when it takes neither. */
  lemma RouteIs(cfg: Config, isPrivate: bool)
    ensures RouteFor(cfg, isPrivate).ViaChannel? <==> GoesToChannel(cfg, isPrivate)
    ensures RouteFor(cfg, isPrivate).ViaThread? <==> GoesToThread(cfg, isPrivate)
    ensures GoesToThread(cfg, isPrivate) ==> RouteFor(cfg, isPrivate).monitor == cfg.registry.monitor
    ensures RouteFor(cfg, isPrivate).NoRoute? ==>
              RouteFor(cfg, isPrivate).err == if cfg.registry.UnknownWorkspace? then WorkspaceUnknown
                                              else if isPrivate then PrivateThreadUnsupported
                                              else SlackUnconfigured
  {
  }

  /** The channel is made or the root posted, and the record written with it. */
  predicate Activates(cfg: Config, isPrivate: bool, w: World) {
    || (GoesToChannel(cfg, isPrivate) && (cfg.slack ==> w.channel.Some? && w.activate.Acked?))
    || (GoesToThread(cfg, isPrivate) && w.root.Some? && w.root.value != "" && w.activate.Acked?)
  }

  /** A board column when the workspace has columns: the one the record waits in if it is one of them, otherwise the
      initial one. */
  predicate OnBoard(cfg: Config, before: string, after: string) {
    if cfg.registry.Entry? && cfg.registry.columns.Some? && before !in cfg.registry.columns.value.ids - {""}
    then after == cfg.registry.columns.value.initial
    else after == before
  }

  /** `a` hangs in the thread just posted, in the channel just made with the members found there, or, without Slack,
      where `b` did. */
  predicate Hangs(cfg: Config, b: Case, a: Case, w: World) {
    if GoesToThread(cfg, b.isPrivate) then
      w.root.Some? && a.channel == cfg.registry.monitor && a.threadTS == w.root.value && OnBoard(cfg, b.board, a.board)
      && a.channelUsers == b.channelUsers
    else if cfg.slack then
      w.channel.Some? && a.channel == w.channel.value && a.threadTS == b.threadTS && a.board == b.board
      && a.channelUsers == if w.members.Some? then w.members.value else []
    else
      a.channel == b.channel && a.threadTS == b.threadTS && a.board == b.board && a.channelUsers == b.channelUsers
  }

  /** The effects of an activation that goes through: Slack is told, and then the listeners. */
  function Announced(cfg: Config, a: Case, w: World): seq<Effect> {
    (if !cfg.slack then []
     else if GoesToThread(cfg, a.isPrivate) then [RootPosted(a.channel, a.threadTS)]
     else [ChannelAsked(a.id, w.channel)])
    + [Published(a.id, CaseCreated, a)]
  }

  lemma ActivationIs(cfg: Config, s: Sys, c: Case, w: World)
    requires c.id in s.cases
    ensures var r := OpenDraft(cfg, s, c, w);
            && (r.result.Done? <==> Activates(cfg, c.isPrivate, w))
            && (r.result.Done? ==>
                  var a := r.result.record;
                  && r.sys.cases == s.cases[c.id := if cfg.slack then a else s.cases[c.id]] && r.sys.nextId == s.nextId
                  && Hangs(cfg, c, a, w)
                  && a == c.(channel := a.channel, threadTS := a.threadTS, board := a.board,
                             channelUsers := a.channelUsers, updatedAt := if cfg.slack then w.now else c.updatedAt)
                  && r.sys.trace + [Published(a.id, CaseCreated, a)] == s.trace + Announced(cfg, a, w))
  {
    RouteIs(cfg, c.isPrivate);
    assert s.trace + [] == s.trace;
  }

  // ----- Submitting a draft -----

  /** A draft its caller may see. */
  predicate Sees(s: Sys, id: int, who: Actor) {
    id in s.cases && s.cases[id].status == Draft && (s.cases[id].isPrivate ==> who == Member(s.cases[id].reporter))
  }

  /** The edits that come with the submission are valid and stored. */
  predicate EditsGoThrough(patch: Option<Patch>, w: World) {
    patch.Some? ==> (patch.value.fields.Some? ==> w.validated.Some?) && w.usersKnown && w.patch.Acked?
  }

  /** The draft with those edits. */
  ghost predicate IsEdited(b: Case, d: Case, patch: Option<Patch>, w: World) {
    (patch.None? ==> d == b) && (patch.Some? ==> TakesPatch(b, d, patch.value, w))
  }

  lemma SubmittedIs(s: Sys, id: int, patch: Option<Patch>, who: Actor, w: World)
    requires WellFormed(s)
    ensures var d := CaseRollback.Submitted(s, id, patch, who, w);
            && (d.Done? <==> Sees(s, id, who) && EditsGoThrough(patch, w))
            && (d.Done? ==> IsEdited(s.cases[id], d.record, patch, w))
  {
  }

  /** With its edits, the draft has a title and every required field. */
  predicate IsComplete(cfg: Config, b: Case, patch: Option<Patch>, w: World) {
    && (if patch.Some? && patch.value.title.Some? then patch.value.title.value != "" else b.title != "")
    && (cfg.registry.Entry? ==>
          forall f :: f in cfg.registry.required ==>
            f in b.fields || (patch.Some? && patch.value.fields.Some? && w.validated.Some? && f in w.validated.value))
  }

  predicate Submits(cfg: Config, s: Sys, id: int, patch: Option<Patch>, who: Actor, w: World) {
    Sees(s, id, who) && EditsGoThrough(patch, w) && IsComplete(cfg, s.cases[id], patch, w) && w.update.Acked?
    && Activates(cfg, s.cases[id].isPrivate, w)
  }

  /** The record as it would be unopened: a draft in the place of `at`, with the members and the time of `b`, or the
      time of the edits. */
  function Unopened(a: Case, at: Case, b: Case, patch: Option<Patch>, w: World): Case {
    a.(status := Draft, channel := at.channel, threadTS := at.threadTS, board := at.board,
       channelUsers := b.channelUsers,
       updatedAt := if patch.Some? then w.now else b.updatedAt)
  }

  /** `a` is the edited draft, opened and hung up, and nothing else. */
  ghost predicate IsOpened(cfg: Config, b: Case, a: Case, patch: Option<Patch>, w: World) {
    && a.status == Open && a.updatedAt == w.now && Hangs(cfg, b, a, w)
    && IsEdited(b, Unopened(a, b, b, patch, w), patch, w)
  }

  lemma PromotionIs(cfg: Config, s: Sys, c: Case, w: World)
    requires c.id in s.cases && s.cases[c.id] == c && c.status == Draft
    ensures var r := Promote(cfg, s, c, w);
            && (r.result.Done? <==>
                  c.title != "" && (cfg.registry.Entry? ==> cfg.registry.required <= c.fields.Keys) && w.update.Acked?
                  && Activates(cfg, c.isPrivate, w))
            && (r.result.Done? ==>
                  var a := r.result.record;
                  && r.sys == Sys(s.cases[c.id := a], s.nextId, s.trace + Announced(cfg, a, w)) && a.status == Open
                  && Hangs(cfg, c, a, w) && a.updatedAt == w.now && Unopened(a, c, c, None, w) == c)
            && (c.title == "" ==> r == Reply(s, Refused(TitleRequired)))
            && (c.title != "" && cfg.registry.Entry? && !(cfg.registry.required <= c.fields.Keys) ==>
                  r == Reply(s, Refused(MissingRequired)))
  {
    var open := c.(status := Open, updatedAt := w.now);
    if w.update.Acked? {
      ActivationIs(cfg, Put(s, open, w.update).0, open, w);
    }
  }

  /** A submission goes through exactly when its caller sees the draft, its edits are stored, the edited draft is
      complete, and the flip and the activation are acknowledged; it then stores the edited draft, opened and hung up,
      tells Slack and the listeners, and touches no other record. An incomplete draft is refused as what it lacks. When
      the activation fails and its rollback goes through, the edited draft is stored again, with the synced members at
      most. */
  ghost predicate SubmitsAsAsked(cfg: Config, s: Sys, r: Reply, id: int, patch: Option<Patch>, who: Actor, w: World) {
    && Only(s, r.sys, id)
    && (r.result.Done? <==> Submits(cfg, s, id, patch, who, w))
    && (r.result.Done? ==>
          var a := r.result.record;
          && r.sys == Sys(s.cases[id := a], s.nextId, s.trace + Announced(cfg, a, w))
          && IsOpened(cfg, s.cases[id], a, patch, w))
    && (Sees(s, id, who) && EditsGoThrough(patch, w) && !IsComplete(cfg, s.cases[id], patch, w) ==>
          r.sys.trace == s.trace && id in r.sys.cases && IsEdited(s.cases[id], r.sys.cases[id], patch, w)
          && r.result == Refused(if TitleMissing(s.cases[id], patch) then TitleRequired else MissingRequired))
    && (r.result.Refused? && r.result.err.ActivationFailed? && w.rollbackRead && !w.rollback.Lost? ==>
          id in s.cases && id in r.sys.cases
          && var (b, a) := (s.cases[id], r.sys.cases[id]);
             && a.status == Draft && IsEdited(b, Unopened(a, a, b, patch, w), patch, w)
             && (w.activate.Lost? ==> a.channelUsers == b.channelUsers))
  }

  lemma SubmissionIs(cfg: Config, s: Sys, id: int, patch: Option<Patch>, who: Actor, w: World)
    requires WellFormed(s)
    ensures SubmitsAsAsked(cfg, s, SubmitDraft(cfg, s, id, patch, who, w), id, patch, who, w)
  {
    SubmittedIs(s, id, patch, who, w);
    SubmitShape(cfg, s, Call(OpSubmitDraft(id, patch), who, w));
    if Sees(s, id, who) && EditsGoThrough(patch, w) {
      var b := s.cases[id];
      PreSubmitShape(s, b, patch, w);
      var edited := PreSubmit(s, b, patch, w);
      PromotionIs(cfg, edited.sys, edited.result.record, w);
      CompleteIs(cfg, b, edited.result.record, patch, w);
    }
    var r := SubmitDraft(cfg, s, id, patch, who, w);
    if r.result.Refused? && r.result.err.ActivationFailed? && w.rollbackRead && !w.rollback.Lost? {
      CaseRollback.FailedSubmitKeepsTheDraft(cfg, s, id, patch, who, w);
    }
  }

  predicate TitleMissing(b: Case, patch: Option<Patch>) {
    if patch.Some? && patch.value.title.Some? then patch.value.title.value == "" else b.title == ""
  }

  lemma CompleteIs(cfg: Config, b: Case, d: Case, patch: Option<Patch>, w: World)
    requires IsEdited(b, d, patch, w)
    ensures TitleMissing(b, patch) <==> d.title == ""
    ensures IsComplete(cfg, b, patch, w)
            <==> d.title != "" && (cfg.registry.Entry? ==> cfg.registry.required <= d.fields.Keys)
  {
  }

  // ----- Creating a case -----

  /** The lookup finds a stored case under the request key. */
  predicate KeyKnown(s: Sys, n: NewCase, w: World) {
    n.requestKey != "" && w.keyLookup && exists id :: id in s.cases && s.cases[id].requestKey == n.requestKey
  }

  /** An open case that has no channel counts as not yet activated. */
  predicate Waits(c: Case) {
    c.status == Open && c.channel == ""
  }

  predicate ThreadTaken(s: Sys, channel: string, ts: string) {
    exists id :: id in s.cases && s.cases[id].channel == channel && s.cases[id].threadTS == ts
  }

  lemma KnownIs(s: Sys, n: NewCase, w: World)
    requires WellFormed(s)
    ensures Known(s, n, w).Some? <==> KeyKnown(s, n, w)
    ensures Known(s, n, w).Some? ==>
              var c := Known(s, n, w).value;
              c.id in s.cases && s.cases[c.id] == c && c.requestKey == n.requestKey
  {
  }

  /** The new case: open, as its input says, hung up, stored under the next id and announced; nothing else changes. */
  ghost predicate IsNewCase(cfg: Config, s: Sys, r: Reply, n: NewCase, who: Actor, w: World) {
    r.result.Done?
    && var a := r.result.record;
       && a.id == s.nextId && r.sys == Sys(s.cases[s.nextId := a], s.nextId + 1, s.trace + Announced(cfg, a, w))
       && a.status == Open && HoldsItsInput(cfg, a, n, who, w) && a.updatedAt == w.now
       && Hangs(cfg, a.(channel := "", threadTS := "", board := "", channelUsers := []), a, w)
  }

  /** The call answers with a case stored under its key, and changes nothing. */
  ghost predicate RepeatsKnown(s: Sys, r: Reply, n: NewCase) {
    r.result.Done? && r.sys == s
    && var c := r.result.record; c.id in s.cases && s.cases[c.id] == c && c.requestKey == n.requestKey
  }

  lemma ChannelCreationIs(cfg: Config, s: Sys, n: NewCase, who: Actor, w: World)
    requires WellFormed(s) && GoesToChannel(cfg, n.isPrivate) && !KeyKnown(s, n, w)
    ensures var r := CreateCase(cfg, s, n, who, w);
            && (r.result.Done? <==>
                  n.title != "" && w.validated.Some? && who.Member? && who.sub != "" && w.create.Acked?
                  && Activates(cfg, n.isPrivate, w))
            && (r.result.Done? ==> IsNewCase(cfg, s, r, n, who, w))
  {
    RouteIs(cfg, n.isPrivate);
    KnownIs(s, n, w);
    var persisted := Persist(cfg, s, n, Open, who, w);
    assert s.nextId !in s.cases;
    if persisted.result.Done? {
      ActivationIs(cfg, persisted.sys, persisted.result.record, w);
      NewCaseFrom(cfg, s, n, who, w);
    }
  }

  lemma NewCaseFrom(cfg: Config, s: Sys, n: NewCase, who: Actor, w: World)
    requires WellFormed(s) && GoesToChannel(cfg, n.isPrivate) && !KeyKnown(s, n, w)
    requires Persist(cfg, s, n, Open, who, w).result.Done?
    ensures var r := CreateCase(cfg, s, n, who, w);
            r.result.Done? ==> IsNewCase(cfg, s, r, n, who, w)
  {
    RouteIs(cfg, n.isPrivate);
    KnownIs(s, n, w);
    var persisted := Persist(cfg, s, n, Open, who, w);
    var c := persisted.result.record;
    ActivationIs(cfg, persisted.sys, c, w);
    var r := CreateCase(cfg, s, n, who, w);
    if r.result.Done? {
      CreatedCaseHoldsItsInput(cfg, s, n, who, w);
      assert s.cases[c.id := c][c.id := r.result.record] == s.cases[c.id := r.result.record];
    }
  }

  lemma ThreadCreationIs(cfg: Config, s: Sys, n: NewCase, who: Actor, w: World)
    requires WellFormed(s) && GoesToThread(cfg, n.isPrivate) && !KeyKnown(s, n, w)
    ensures var r := CreateCase(cfg, s, n, who, w);
            var taken := w.root.Some? && ThreadTaken(s, cfg.registry.monitor, w.root.value);
            && (r.result.Done? <==> n.title != "" && w.gate && w.root.Some? && w.root.value != "" && w.threadLookup
                                    && (taken || (w.validated.Some? && w.create.Acked?)))
            && (n.title != "" && !w.gate ==> r == Reply(s, Refused(Validation)))
            && (n.title != "" && w.gate && (w.root.None? || w.root.value == "") ==> r == Reply(s, Refused(SlackFailed)))
            && (r.result.Done? && !taken ==> IsNewCase(cfg, s, r, n, who, w))
            && (r.result.Done? && taken ==>
                  var c := r.result.record;
                  && r.sys == s.(trace := s.trace + [RootPosted(cfg.registry.monitor, w.root.value)])
                  && c.id in s.cases && s.cases[c.id] == c && c.channel == cfg.registry.monitor
                  && c.threadTS == w.root.value)
  {
    RouteIs(cfg, n.isPrivate);
    KnownIs(s, n, w);
    if w.root.Some? {
      TakenIs(s, cfg.registry.monitor, w.root.value);
    }
  }

  lemma TakenIs(s: Sys, channel: string, ts: string)
    requires WellFormed(s)
    ensures FindByThread(s.cases, channel, ts, s.nextId).Some? <==> ThreadTaken(s, channel, ts)
    ensures FindByThread(s.cases, channel, ts, s.nextId).Some? ==>
              var c := FindByThread(s.cases, channel, ts, s.nextId).value;
              c.id in s.cases && s.cases[c.id] == c && c.channel == channel && c.threadTS == ts
  {
  }

  lemma RepeatIs(cfg: Config, s: Sys, n: NewCase, who: Actor, w: World)
    requires WellFormed(s) && KeyKnown(s, n, w) && n.title != ""
    requires GoesToThread(cfg, n.isPrivate) || GoesToChannel(cfg, n.isPrivate)
    ensures var r := CreateCase(cfg, s, n, who, w);
            && (r.result.Done? ==> r.result.record.id in s.cases && r.result.record.requestKey == n.requestKey)
            && (GoesToThread(cfg, n.isPrivate)
                || (forall id :: id in s.cases && s.cases[id].requestKey == n.requestKey ==> !Waits(s.cases[id])) ==>
                  RepeatsKnown(s, r, n))
  {
    RouteIs(cfg, n.isPrivate);
    KnownIs(s, n, w);
    if GoesToChannel(cfg, n.isPrivate) && Waits(Known(s, n, w).value) {
      ActivationIs(cfg, s, Known(s, n, w).value, w);
    }
  }

  lemma UntitledIsRefused(cfg: Config, s: Sys, n: NewCase, who: Actor, w: World)
    ensures var r := CreateCase(cfg, s, n, who, w);
            && (n.title == "" && (GoesToThread(cfg, n.isPrivate) || GoesToChannel(cfg, n.isPrivate)) ==>
                  r == Reply(s, Refused(TitleRequired)))
            && (!GoesToThread(cfg, n.isPrivate) && !GoesToChannel(cfg, n.isPrivate) ==>
                  r == Reply(s, Refused(if cfg.registry.UnknownWorkspace? then WorkspaceUnknown
                                        else if n.isPrivate then PrivateThreadUnsupported else SlackUnconfigured)))
  {
    RouteIs(cfg, n.isPrivate);
  }

  /** What CreateCase answers. A call the funnel does not take, or without a title, is refused as such and changes
      nothing. A repeated key is answered with a case stored under it, and changes nothing, on the thread route always
      and on the channel route when no stored case under the key still waits for its channel. A key nobody has yet, or
      one the lookup fails on, makes a new case exactly when validation, the reporter, the root or channel and every
      write go through; on the thread route, a root somebody's case already has is answered with that case. */
  ghost predicate CreatesAsAsked(cfg: Config, s: Sys, r: Reply, n: NewCase, who: Actor, w: World) {
    var toThread, toChannel := GoesToThread(cfg, n.isPrivate), GoesToChannel(cfg, n.isPrivate);
    if !toThread && !toChannel then
      r == Reply(s, Refused(if cfg.registry.UnknownWorkspace? then WorkspaceUnknown
                            else if n.isPrivate then PrivateThreadUnsupported else SlackUnconfigured))
    else if n.title == "" then
      r == Reply(s, Refused(TitleRequired))
    else if KeyKnown(s, n, w) then
      && (r.result.Done? ==> r.result.record.id in s.cases && r.result.record.requestKey == n.requestKey)
      && (toThread || (forall id :: id in s.cases && s.cases[id].requestKey == n.requestKey ==> !Waits(s.cases[id])) ==>
            RepeatsKnown(s, r, n))
    else if toChannel then
      && (r.result.Done? <==> w.validated.Some? && who.Member? && who.sub != "" && w.create.Acked?
                              && Activates(cfg, n.isPrivate, w))
      && (r.result.Done? ==> IsNewCase(cfg, s, r, n, who, w))
    else
      var taken := w.root.Some? && ThreadTaken(s, cfg.registry.monitor, w.root.value);
      && (r.result.Done? <==> w.gate && w.root.Some? && w.root.value != "" && w.threadLookup
                              && (taken || (w.validated.Some? && w.create.Acked?)))
      && (!w.gate ==> r == Reply(s, Refused(Validation)))
      && (w.gate && (w.root.None? || w.root.value == "") ==> r == Reply(s, Refused(SlackFailed)))
      && (r.result.Done? && !taken ==> IsNewCase(cfg, s, r, n, who, w))
      && (r.result.Done? && taken ==>
            var c := r.result.record;
            && r.sys == s.(trace := s.trace + [RootPosted(cfg.registry.monitor, w.root.value)])
            && c.id in s.cases && s.cases[c.id] == c && c.channel == cfg.registry.monitor
            && c.threadTS == w.root.value)
  }

  lemma CreationIs(cfg: Config, s: Sys, n: NewCase, who: Actor, w: World)
    requires WellFormed(s)
    ensures CreatesAsAsked(cfg, s, CreateCase(cfg, s, n, who, w), n, who, w)
  {
    UntitledIsRefused(cfg, s, n, who, w);
    RouteIs(cfg, n.isPrivate);
    if (GoesToThread(cfg, n.isPrivate) || GoesToChannel(cfg, n.isPrivate)) && n.title != "" {
      if KeyKnown(s, n, w) {
        RepeatIs(cfg, s, n, who, w);
      } else if GoesToChannel(cfg, n.isPrivate) {
        ChannelCreationIs(cfg, s, n, who, w);
      } else {
        ThreadCreationIs(cfg, s, n, who, w);
      }
    }
  }

  // ----- Creating the case of a thread -----

  /** createThreadBoundCase by the agent: the thread's case, or a new one hung up in it. */
  ghost predicate CreatesForThread(cfg: Config, s: Sys, r: Reply, channel: string, ts: string, reporter: string,
                                   title: string, description: string, w: World)
  {
    && (r.result.Done? <==> channel != "" && ts != "" && w.threadLookup
                            && (ThreadTaken(s, channel, ts) || (w.validated.Some? && w.create.Acked?)))
    && (r.result.Done? ==>
          var c := r.result.record;
          c.channel == channel && c.threadTS == ts
          && if ThreadTaken(s, channel, ts) then r.sys == s && c.id in s.cases && s.cases[c.id] == c
             else
               && r.sys == Sys(s.cases[s.nextId := c], s.nextId + 1, s.trace + [Published(s.nextId, CaseCreated, c)])
               && OnBoard(cfg, "", c.board)
               && c == Case(s.nextId, title, description, Open, reporter, [], channel, ts, c.board, false, false, [],
                            w.validated.value, "", w.now))
  }

  lemma ThreadCaseIs(cfg: Config, s: Sys, channel: string, ts: string, reporter: string,
                     title: string, description: string, w: World)
    requires WellFormed(s)
    ensures CreatesForThread(cfg, s, CreateThreadBound(cfg, s, channel, ts, reporter, title, description, "", w),
                             channel, ts, reporter, title, description, w)
  {
    TakenIs(s, channel, ts);
  }

  // ----- Updating a case -----

  /** The new title renames the case's own channel. */
  predicate Renames(cfg: Config, b: Case, p: Patch) {
    cfg.slack && b.channel != "" && b.threadTS == "" && p.title.Some? && p.title.value != b.title
  }

  /** The call is let through up to the Slack rename: its caller may write the case, only a draft loses its title, and
      the fields given are valid. */
  predicate MayPatch(s: Sys, id: int, p: Patch, who: Actor, w: World) {
    id in s.cases && MayWrite(s.cases[id], who) && (p.title == Some("") ==> s.cases[id].status == Draft)
    && (p.fields.Some? ==> w.validated.Some?)
  }

  /** An update succeeds exactly when it is let through, the rename it needs is made and the write acknowledged; the
      rename is asked for exactly when it is needed, and before anything is stored. */
  ghost predicate UpdatesAsAsked(cfg: Config, s: Sys, r: Reply, id: int, p: Patch, who: Actor, w: World) {
    && (r.result.Done? <==>
          MayPatch(s, id, p, who, w) && (Renames(cfg, s.cases[id], p) ==> w.rename) && w.update.Acked?)
    && r.sys.trace == s.trace + (if MayPatch(s, id, p, who, w) && Renames(cfg, s.cases[id], p)
                                 then [RenameAsked(s.cases[id].channel, p.title.value)] else [])
    && (r.result.Done? ==>
          r.sys.cases == s.cases[id := r.result.record] && TakesPatch(s.cases[id], r.result.record, p, w)
          && CaseReads.GetCase(r.sys.cases, id, who) == Some(r.result.record))
    && (id !in s.cases ==> r.result == Refused(NotFound))
    && (id in s.cases && !MayWrite(s.cases[id], who) ==> r.result == Refused(AccessDenied))
  }

  lemma UpdateGoes(cfg: Config, s: Sys, id: int, p: Patch, who: Actor, w: World)
    requires WellFormed(s)
    ensures var r := UpdateCase(cfg, s, id, p, who, w);
            && (r.result.Done? <==>
                  MayPatch(s, id, p, who, w) && (Renames(cfg, s.cases[id], p) ==> w.rename) && w.update.Acked?)
            && r.sys.trace == s.trace + (if MayPatch(s, id, p, who, w) && Renames(cfg, s.cases[id], p)
                                         then [RenameAsked(s.cases[id].channel, p.title.value)] else [])
            && (id !in s.cases ==> r.result == Refused(NotFound))
            && (id in s.cases && !MayWrite(s.cases[id], who) ==> r.result == Refused(AccessDenied))
  {
    assert s.trace + [] == s.trace;
  }

  lemma UpdateIs(cfg: Config, s: Sys, id: int, p: Patch, who: Actor, w: World)
    requires WellFormed(s)
    ensures UpdatesAsAsked(cfg, s, UpdateCase(cfg, s, id, p, who, w), id, p, who, w)
  {
    UpdateGoes(cfg, s, id, p, who, w);
    if UpdateCase(cfg, s, id, p, who, w).result.Done? {
      UpdateReadsBack(cfg, s, id, p, who, w);
      UpdateAnswers(cfg, s, id, p, who, w);
      UpdateStores(cfg, s, id, p, who, w);
    }
  }

  // ----- Moving a case on the board -----

  /** The record replaces the stored one under its id, and no other record has changed. */
  ghost predicate Edited(s: Sys, s': Sys, a: Case) {
    a.id in s.cases && s'.cases == s.cases[a.id := a] && s'.nextId == s.nextId
  }

  /** A move changes the column, the status and the update time only: a draft keeps its status, any other case is
      closed exactly when the column is a closed one. */
  ghost predicate MovesTo(b: Case, a: Case, columns: StatusSet, board: string, now: int) {
    && a == b.(board := board, status := a.status, updatedAt := now)
    && (b.IsDraft() || board == "" ==> a.status == b.status)
    && (!b.IsDraft() && board != "" ==>
          (a.IsClosed() <==> board in columns.closed) && (!a.IsClosed() ==> a.status == Open))
  }

  lemma ColumnDecides(s: Sys, b: Case, columns: StatusSet, board: string, w: World)
    requires b.id in s.cases
    ensures var r := Move(s, b, columns, board, w);
            && (r.result.Done? <==> w.update.Acked?)
            && (r.result.Done? ==>
                  var a := r.result.record;
                  MovesTo(b, a, columns, board, w.now) && Edited(s, r.sys, a)
                  && r.sys.trace == s.trace + if !b.IsClosed() && a.IsClosed() then [Published(b.id, CaseClosed, a)]
                     else [])
            && (r.result.Refused? ==> r.sys.trace == s.trace)
  {
    assert s.trace + [] == s.trace;
  }

  /** A move goes through exactly for a column of the workspace and a caller who may write the case; the column then
      decides the status, and a crossing to closed is published. */
  ghost predicate MovesAsAsked(cfg: Config, s: Sys, r: Reply, id: int, board: string, who: Actor, w: World) {
    && (!(cfg.registry.Entry? && cfg.registry.columns.Some?) ==> r == Reply(s, Refused(NoColumns)))
    && (cfg.registry.Entry? && cfg.registry.columns.Some? && board !in cfg.registry.columns.value.ids ==>
          r == Reply(s, Refused(UnknownColumn)))
    && (r.result.Done? <==>
          cfg.registry.Entry? && cfg.registry.columns.Some? && board in cfg.registry.columns.value.ids
          && id in s.cases && MayWrite(s.cases[id], who) && w.update.Acked?)
    && (r.result.Done? ==>
          var a := r.result.record;
          && Edited(s, r.sys, a) && MovesTo(s.cases[id], a, cfg.registry.columns.value, board, w.now)
          && r.sys.trace == s.trace + if !s.cases[id].IsClosed() && a.IsClosed() then [Published(id, CaseClosed, a)]
             else [])
    && (r.result.Refused? ==> r.sys.trace == s.trace)
  }

  lemma MoveIs(cfg: Config, s: Sys, id: int, board: string, who: Actor, w: World)
    requires WellFormed(s)
    ensures MovesAsAsked(cfg, s, UpdateCaseStatus(cfg, s, id, board, who, w), id, board, who, w)
  {
    if id in s.cases && cfg.Columns().Some? {
      ColumnDecides(s, s.cases[id], cfg.Columns().value, board, w);
    }
  }
}
