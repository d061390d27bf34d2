/** What each action operation does, said from the stored action, its case, the caller and the outside world's answers
    alone: when it succeeds, what it then stores, and what it writes to the log. */
module ActionPromises {
  import opened Cases
  import opened Actions
  import opened ActionHistory

  // ----- Who may -----

  /** A token decides, whoever the Slack user is; without one the Slack user does; and a call with neither is the
      system's. */
  predicate Passes(parent: Case, who: Caller) {
    && (who.token.Some? ==> Admits(parent, who.token.value))
    && (who.token.None? && who.slackUser.Some? ==> Admits(parent, who.slackUser.value))
  }

  /** Where the Slack user is not asked. */
  predicate PassesByToken(parent: Case, who: Caller) {
    who.token.Some? ==> Admits(parent, who.token.value)
  }

  lemma GatesAre(parent: Case, who: Caller)
    ensures MayWrite(parent, ActorForAccess(who)) <==> Passes(parent, who)
    ensures MayWrite(parent, TokenActor(who)) <==> PassesByToken(parent, who)
  {
  }

  /** The log goes on with events of this action, all under the name of the Slack user. */
  predicate LogsFor(s: Sys, t: Sys, id: int, who: Caller) {
    s.events <= t.events
    && forall k :: |s.events| <= k < |t.events| ==>
         t.events[k].actionId == id && t.events[k].actor == if who.slackUser.Some? then who.slackUser.value else ""
  }

  // ----- Creating -----

  /** The case takes actions of this caller, and the status is one of the workspace's; none given means the first. */
  predicate TakesNew(cfg: Settings, caseId: int, title: string, status: string, who: Caller, e: Env) {
    title != "" && caseId != 0 && caseId in e.cases && PassesByToken(e.cases[caseId], who)
      && e.cases[caseId].threadTS == ""
    && (if status == "" then cfg.initial else status) in cfg.statuses
  }

  /** The timestamp of the first Slack message, when one is posted. */
  predicate PostsFirst(cfg: Settings, caseId: int, e: Env)
    requires caseId in e.cases
  {
    cfg.slack && e.cases[caseId].channel != "" && e.posted.Some? && e.posted.value != ""
  }

  /** A new action holds what it was given, under the next id, with the requested status or the first one; it is logged
      under the token's name, and stored as handed out unless its first message's timestamp was lost. */
  predicate CreatesAsAsked(cfg: Settings, s: Sys, r: Reply, caseId: int, title: string, description: string,
                           assignee: string, messageTS: string, status: string, due: Option<int>, who: Caller, e: Env)
  {
    && (r.result.Done? <==> TakesNew(cfg, caseId, title, status, who, e) && e.save.Acked?)
    && (r.result.Done? ==>
          var ts := if PostsFirst(cfg, caseId, e) then e.posted.value else messageTS;
          var given := Action(s.nextId, caseId, title, description, assignee, messageTS,
                              if status == "" then cfg.initial else status, due, None, e.now);
          && r.result.record == given.(messageTS := ts)
          && r.sys.actions == s.actions[s.nextId := if PostsFirst(cfg, caseId, e) && e.second.Lost? then given
                                                     else r.result.record]
          && r.sys.nextId == s.nextId + 1
          && r.sys.events == s.events + (if Created in e.lost then []
                                         else [Event(s.nextId, Created, if who.token.Some? then who.token.value else "",
                                                     "", title)]))
    && (r.result.Refused? ==>
          (r.sys == s <==> !(e.save.AppliedUnacked? && TakesNew(cfg, caseId, title, status, who, e))))
  }

  lemma AddingIs(cfg: Settings, s: Sys, a: Action, who: Caller, e: Env)
    requires a.id == s.nextId && a.updatedAt == e.now && a.caseId in e.cases
    ensures var r := Add(cfg, s, a, e.cases[a.caseId], who, e);
            var posts := PostsFirst(cfg, a.caseId, e);
            && (r.result.Done? <==> a.caseId != 0 && e.save.Acked?)
            && (r.result.Done? ==>
                  && r.result.record == a.(messageTS := if posts then e.posted.value else a.messageTS)
                  && r.sys.actions == s.actions[s.nextId := if posts && e.second.Lost? then a else r.result.record]
                  && r.sys.nextId == s.nextId + 1
                  && r.sys.events == s.events + (if Created in e.lost then []
                                                 else [Event(s.nextId, Created,
                                                             if who.token.Some? then who.token.value
                                                               else "", "", a.title)]))
            && (r.result.Refused? ==> (r.sys == s <==> !(e.save.AppliedUnacked? && a.caseId != 0)))
  {
    assert s.events + [] == s.events;
  }

  lemma CheckIs(cfg: Settings, caseId: int, title: string, status: string, who: Caller, e: Env)
    ensures CheckNew(cfg, caseId, title, status, who, e).None? && caseId != 0
            <==> TakesNew(cfg, caseId, title, status, who, e)
  {
    if caseId in e.cases {
      GatesAre(e.cases[caseId], who);
    }
  }

  lemma CreationIs(cfg: Settings, s: Sys, caseId: int, title: string, description: string, assignee: string,
                   messageTS: string, status: string, due: Option<int>, who: Caller, e: Env)
    ensures CreatesAsAsked(cfg, s, Create(cfg, s, caseId, title, description, assignee, messageTS, status, due, who, e),
                           caseId, title, description, assignee, messageTS, status, due, who, e)
  {
    CheckIs(cfg, caseId, title, status, who, e);
    if CheckNew(cfg, caseId, title, status, who, e).None? {
      AddingIs(cfg, s, Action(s.nextId, caseId, title, description, assignee, messageTS,
                              if status == "" then cfg.initial else status, due, None, e.now), who, e);
    }
  }

  // ----- Posting -----

  /** An action without a message is posted to its case's channel for a caller the case admits, and the timestamp
      stored; nothing else changes. */
  predicate PostsAsAsked(cfg: Settings, s: Sys, r: Reply, id: int, who: Caller, e: Env) {
    && (r.result.Done? <==>
          cfg.slack && id in s.actions && s.actions[id].messageTS == "" && s.actions[id].caseId in e.cases
          && PassesByToken(e.cases[s.actions[id].caseId], who) && e.cases[s.actions[id].caseId].channel != ""
          && e.posted.Some? && (e.posted.value != "" ==> e.second.Acked?))
    && (r.result.Done? ==>
          r.result.record == s.actions[id].(messageTS := e.posted.value,
                                            updatedAt := if e.posted.value == "" then s.actions[id].updatedAt
                                              else e.now)
          && r.sys == s.(actions := s.actions[id := r.result.record]))
    && (r.result.Refused? && !e.second.AppliedUnacked? ==> r.sys == s)
    && (id in s.actions && s.actions[id].messageTS != "" ==> r.sys == s)
  }

  lemma PostingIs(cfg: Settings, s: Sys, id: int, who: Caller, e: Env)
    requires Keyed(s)
    ensures PostsAsAsked(cfg, s, Post(cfg, s, id, who, e), id, who, e)
  {
    if id in s.actions && s.actions[id].caseId in e.cases {
      GatesAre(e.cases[s.actions[id].caseId], who);
    }
  }

  // ----- Updating -----

  /** The patch may be applied: the action's case admits the caller, another case it moves to has no thread, the title
      is not emptied, and the status is one of the workspace's. */
  predicate TakesUpdate(cfg: Settings, s: Sys, id: int, p: Patch, who: Caller, e: Env) {
    id in s.actions && s.actions[id].caseId in e.cases && Passes(e.cases[s.actions[id].caseId], who)
    && (p.caseId.Some? && p.caseId.value != s.actions[id].caseId ==>
          p.caseId.value != 0 && p.caseId.value in e.cases && e.cases[p.caseId.value].threadTS == "")
    && p.title != Some("") && (p.status.Some? ==> p.status.value in cfg.statuses)
  }

  predicate UpdatesAsAsked(cfg: Settings, s: Sys, r: Reply, id: int, p: Patch, who: Caller, e: Env) {
    && (r.result.Done? <==> TakesUpdate(cfg, s, id, p, who, e) && e.save.Acked?)
    && (r.result.Done? ==>
          r.sys.actions == s.actions[id := r.result.record] && r.result.record.updatedAt == e.now
          && TakesPatch(cfg, s.actions[id], r.result.record, p, e.human) && LogsFor(s, r.sys, id, who))
    && (r.result.Refused? && !e.save.AppliedUnacked? ==> r.sys == s)
  }

  lemma UpdateGoesThrough(cfg: Settings, s: Sys, id: int, p: Patch, who: Caller, e: Env)
    requires Keyed(s)
    ensures var r := Update(cfg, s, id, p, who, e);
            && (r.result.Done? <==> TakesUpdate(cfg, s, id, p, who, e) && e.save.Acked?)
            && (r.result.Refused? && !e.save.AppliedUnacked? ==> r.sys == s)
  {
    if id in s.actions && s.actions[id].caseId in e.cases {
      GatesAre(e.cases[s.actions[id].caseId], who);
    }
  }

  lemma UpdateLogs(cfg: Settings, s: Sys, id: int, p: Patch, who: Caller, e: Env)
    requires Keyed(s) && Update(cfg, s, id, p, who, e).result.Done?
    ensures LogsFor(s, Update(cfg, s, id, p, who, e).sys, id, who)
  {
    UpdateAmends(cfg, s, id, p, who, e);
    var after := Patched(s.actions[id], p, e.human).(updatedAt := e.now);
    ChangesAreSigned(s.actions[id], after, Author(who), e.lost);
    var more := Changes(s.actions[id], after, Author(who), e.lost);
    assert forall k :: |s.events| <= k < |s.events + more| ==> (s.events + more)[k] in more;
  }

  lemma ChangesAreSigned(before: Action, after: Action, author: string, lost: set<Kind>)
    ensures forall x :: x in Changes(before, after, author, lost) ==> x.actionId == after.id && x.actor == author
  {
  }

  lemma UpdateIs(cfg: Settings, s: Sys, id: int, p: Patch, who: Caller, e: Env)
    requires Keyed(s)
    ensures UpdatesAsAsked(cfg, s, Update(cfg, s, id, p, who, e), id, p, who, e)
  {
    UpdateGoesThrough(cfg, s, id, p, who, e);
    if Update(cfg, s, id, p, who, e).result.Done? {
      UpdateStoresExactlyThePatch(cfg, s, id, p, who, e);
      UpdateLogs(cfg, s, id, p, who, e);
    }
  }

  // ----- Archiving -----

  /** An action is archived or restored for a caller its case admits, once, and logged under the Slack user's name. */
  predicate ArchivesAsAsked(s: Sys, r: Reply, id: int, archive: bool, who: Caller, e: Env) {
    && (r.result.Done? <==>
          id in s.actions && s.actions[id].archivedAt.Some? != archive && s.actions[id].caseId in e.cases
          && Passes(e.cases[s.actions[id].caseId], who) && e.save.Acked?)
    && (r.result.Done? ==>
          var kind := if archive then Archived else Unarchived;
          && r.result.record == s.actions[id].(archivedAt := if archive then Some(e.now) else None, updatedAt := e.now)
          && r.sys.actions == s.actions[id := r.result.record]
          && r.sys.events == s.events + (if kind in e.lost then []
                                         else [Event(id, kind, if who.slackUser.Some? then who.slackUser.value else "",
                                                     "", s.actions[id].title)]))
    && (r.result.Refused? && !e.save.AppliedUnacked? ==> r.sys == s)
    && (r.result == Refused(if archive then IsArchived else NotArchived) <==>
          id in s.actions && s.actions[id].caseId in e.cases && Passes(e.cases[s.actions[id].caseId], who)
          && s.actions[id].archivedAt.Some? == archive)
  }

  lemma ArchivingIs(s: Sys, id: int, archive: bool, who: Caller, e: Env)
    requires Keyed(s)
    ensures ArchivesAsAsked(s, SetArchived(s, id, archive, who, e), id, archive, who, e)
  {
    if id in s.actions && s.actions[id].caseId in e.cases {
      GatesAre(e.cases[s.actions[id].caseId], who);
    }
    assert s.events + [] == s.events;
  }

  // ----- A batch -----

  /** An earlier entry of the batch archives the action. */
  predicate Earlier(ids: seq<(int, Env)>, k: int, id: int) {
    exists j :: 0 <= j < k && j < |ids| && ids[j].0 == id
  }

  /** The entry's action may be archived by the caller, or is archived by then. */
  predicate EntryGoes(actions: map<int, Action>, ids: seq<(int, Env)>, k: int, who: Caller)
    requires 0 <= k < |ids|
  {
    var (id, e) := ids[k];
    id in actions && actions[id].caseId in e.cases && Passes(e.cases[actions[id].caseId], who)
    && (actions[id].archivedAt.Some? || Earlier(ids, k, id) || e.save.Acked?)
  }

  /** A batch finishes exactly when each of its actions exists under a case that admits the caller and is archived
      already, by an earlier entry, or by its own. */
  lemma {:induction false} BatchFinishesExactlyWhen(s: Sys, ids: seq<(int, Env)>, who: Caller)
    requires Keyed(s)
    ensures BulkArchive(s, ids, who).failed.None? <==> forall k :: 0 <= k < |ids| ==> EntryGoes(s.actions, ids, k, who)
    decreases |ids|
  {
    if ids != [] {
      var (id, e) := ids[0];
      var first := SetArchived(s, id, true, who, e);
      ArchivingIs(s, id, true, who, e);
      FirstArchived(s, id, who, e);
      assert EntryGoes(s.actions, ids, 0, who) <==> first.result.Done? || first.result == Refused(IsArchived);
      if first.result.Done? || first.result == Refused(IsArchived) {
        BatchFinishesExactlyWhen(first.sys, ids[1..], who);
        forall k | 0 < k < |ids|
          ensures EntryGoes(s.actions, ids, k, who) <==> EntryGoes(first.sys.actions, ids[1..], k - 1, who)
        {
          OneEntryLater(s.actions, first.sys.actions, ids, k, who);
        }
        assert (forall k :: 0 <= k < |ids| ==> EntryGoes(s.actions, ids, k, who))
               <==> forall k :: 0 <= k < |ids[1..]| ==> EntryGoes(first.sys.actions, ids[1..], k, who) by {
          assert forall k :: 0 <= k < |ids[1..]| ==>
                   (EntryGoes(first.sys.actions, ids[1..], k, who) <==> EntryGoes(s.actions, ids, k + 1, who));
        }
      }
    }
  }

  lemma OneEntryLater(before: map<int, Action>, after: map<int, Action>, ids: seq<(int, Env)>, k: int, who: Caller)
    requires 0 < k < |ids| && ids[0].0 in before && after.Keys == before.Keys
    requires after[ids[0].0].archivedAt.Some? && after[ids[0].0].caseId == before[ids[0].0].caseId
    requires forall id :: id in before && id != ids[0].0 ==> after[id] == before[id]
    ensures EntryGoes(before, ids, k, who) <==> EntryGoes(after, ids[1..], k - 1, who)
  {
    var id := ids[k].0;
    assert ids[1..][k - 1] == ids[k];
    assert Earlier(ids, k, id) <==> id == ids[0].0 || Earlier(ids[1..], k - 1, id) by {
      assert forall j :: 0 <= j < |ids| - 1 ==> ids[1..][j] == ids[j + 1];
      if j :| 0 <= j < k && ids[j].0 == id {
        assert j > 0 ==> ids[1..][j - 1].0 == id;
      }
    }
  }
}
