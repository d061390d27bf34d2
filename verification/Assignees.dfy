/** Assignee lists: AssignUsers / UnassignUsers (pkg/domain/model/case.go), diffAssignees, and the
    re-runnable transactions of AssignCase and UnassignCase (pkg/usecase/case.go). */
module Assignees {
  import opened Cases

  /** The users a list names: blank ids name nobody. */
  function Named(ids: seq<string>): set<string> {
    set u | u in ids && u != ""
  }

  // ----- AssignUsers -----

  function Union(current: seq<string>, users: seq<string>): (r: seq<string>)
    ensures current <= r
    ensures forall u :: u in r <==> u in current || (u in users && u != "")
    decreases |users|
  {
    if users == [] then current
    else if users[0] == "" || users[0] in current then Union(current, users[1..])
    else Union(current + [users[0]], users[1..])
  }

  /** Where a name first stands in a list. */
  function FirstAt(list: seq<string>, name: string): (i: nat)
    ensures i <= |list| && (i < |list| ==> list[i] == name) && name !in list[..i]
    decreases |list|
  {
    if list == [] then 0
    else if list[0] == name then 0
    else
      var i := FirstAt(list[1..], name);
      assert list[..i + 1] == [list[0]] + list[1..][..i];
      i + 1
  }

  /** What is added is new and not blank, each name once, in the order in which the names first stand in the request. */
  lemma {:induction false} AddedInOrder(current: seq<string>, users: seq<string>)
    ensures var r := Union(current, users);
            && current == r[..|current|]
            && (forall i :: |current| <= i < |r| ==> r[i] !in current && r[i] != "" && r[i] in users)
            && (forall i, j :: |current| <= i < j < |r| ==> FirstAt(users, r[i]) < FirstAt(users, r[j]))
    decreases |users|
  {
    if users != [] {
      var u, rest := users[0], users[1..];
      var r := Union(current, users);
      assert forall name :: name != u ==> FirstAt(users, name) == FirstAt(rest, name) + 1;
      if u == "" || u in current {
        AddedInOrder(current, rest);
      } else {
        AddedInOrder(current + [u], rest);
        assert r[|current|] == u && FirstAt(users, u) == 0;
        assert r[..|current|] == r[..|current| + 1][..|current|];
        forall i | |current| + 1 <= i < |r|
          ensures r[i] != u && r[i] !in current && r[i] != "" && r[i] in users
        {
          assert u in current + [u];
        }
      }
    }
  }

  method AssignUsers(current: seq<string>, users: seq<string>) returns (r: seq<string>, changed: bool)
    ensures r == Union(current, users)
    ensures changed <==> r != current
  {
    var existing := set id | id in current;
    r, changed := current, false;
    for i := 0 to |users|
      invariant existing == set id | id in r
      invariant Union(r, users[i..]) == Union(current, users)
      invariant current <= r
      invariant changed <==> |r| > |current|
    {
      if users[i] != "" && users[i] !in existing {
        existing := existing + {users[i]};
        r := r + [users[i]];
        changed := true;
      }
      assert users[i..][1..] == users[i + 1..];
    }
  }

  // ----- UnassignUsers -----

  function Without(current: seq<string>, users: seq<string>): (r: seq<string>)
    ensures |r| <= |current|
    ensures forall u :: u in r <==> u in current && u !in users
    ensures |r| == |current| ==> r == current
  {
    if current == [] then []
    else
      var rest := Without(current[..|current| - 1], users);
      assert forall u :: u in current <==> u in current[..|current| - 1] || u == current[|current| - 1];
      assert current == current[..|current| - 1] + [current[|current| - 1]];
      if current[|current| - 1] in users then rest else rest + [current[|current| - 1]]
  }

  method UnassignUsers(current: seq<string>, users: seq<string>) returns (r: seq<string>, changed: bool)
    ensures r == Without(current, users)
    ensures changed <==> r != current
  {
    if |current| == 0 || |users| == 0 {
      assert Without(current, users) == current by { NothingRemoved(current, users); }
      return current, false;
    }
    var kept := [];
    for i := 0 to |current|
      invariant kept == Without(current[..i], users)
    {
      assert current[..i + 1][..i] == current[..i];
      if current[i] !in users {
        kept := kept + [current[i]];
      }
    }
    assert current[..|current|] == current;
    if |kept| == |current| {
      return current, false;
    }
    return kept, true;
  }

  lemma NothingRemoved(current: seq<string>, users: seq<string>)
    requires forall u :: u in current ==> u !in users
    ensures Without(current, users) == current
  {
    if current != [] {
      var front := current[..|current| - 1];
      assert forall u :: u in front ==> u in current;
      NothingRemoved(front, users);
    }
  }

  lemma OneMoreRemains(a: seq<string>, u: string, users: seq<string>)
    ensures Without(a + [u], users) == Without(a, users) + if u in users then [] else [u]
  {
    assert (a + [u])[..|a|] == a;
  }

  /** What remains stays in order, repeats kept. */
  lemma {:induction false} RemainsInOrder(a: seq<string>, b: seq<string>, users: seq<string>)
    ensures Without(a + b, users) == Without(a, users) + Without(b, users)
    decreases |b|
  {
    if b == [] {
      assert a + b == a;
    } else {
      var front, u := b[..|b| - 1], b[|b| - 1];
      assert b == front + [u] && a + b == (a + front) + [u];
      RemainsInOrder(a, front, users);
      OneMoreRemains(a + front, u, users);
      OneMoreRemains(front, u, users);
    }
  }

  // ----- diffAssignees -----

  /** The ids of `list` that are not blank and not in `other`, in order, repeats kept. */
  function NotIn(list: seq<string>, other: set<string>): (r: seq<string>)
    ensures forall u :: u in r <==> u in list && u != "" && u !in other
  {
    if list == [] then []
    else
      var last := list[|list| - 1];
      var rest := NotIn(list[..|list| - 1], other);
      assert list == list[..|list| - 1] + [last];
      if last != "" && last !in other then rest + [last] else rest
  }

  lemma OneMoreDiffers(a: seq<string>, u: string, other: set<string>)
    ensures NotIn(a + [u], other) == NotIn(a, other) + if u == "" || u in other then [] else [u]
  {
    assert (a + [u])[..|a|] == a;
  }

  /** The difference stays in order, repeats kept. */
  lemma {:induction false} DifferenceInOrder(a: seq<string>, b: seq<string>, other: set<string>)
    ensures NotIn(a + b, other) == NotIn(a, other) + NotIn(b, other)
    decreases |b|
  {
    if b == [] {
      assert a + b == a;
    } else {
      var front, u := b[..|b| - 1], b[|b| - 1];
      assert b == front + [u] && a + b == (a + front) + [u];
      DifferenceInOrder(a, front, other);
      OneMoreDiffers(a + front, u, other);
      OneMoreDiffers(front, u, other);
    }
  }

  method DiffAssignees(current: seq<string>, desired: seq<string>) returns (toAdd: seq<string>, toRemove: seq<string>)
    ensures toAdd == NotIn(desired, Named(current))
    ensures toRemove == NotIn(current, Named(desired))
  {
    var currentSet: set<string> := {};
    for i := 0 to |current|
      invariant currentSet == Named(current[..i])
    {
      assert current[..i + 1] == current[..i] + [current[i]];
      if current[i] != "" {
        currentSet := currentSet + {current[i]};
      }
    }
    assert current[..|current|] == current;
    var desiredSet: set<string> := {};
    toAdd := [];
    for i := 0 to |desired|
      invariant desiredSet == Named(desired[..i])
      invariant toAdd == NotIn(desired[..i], Named(current))
    {
      assert desired[..i + 1] == desired[..i] + [desired[i]];
      assert desired[..i + 1][..i] == desired[..i];
      if desired[i] != "" {
        desiredSet := desiredSet + {desired[i]};
        if desired[i] !in currentSet {
          toAdd := toAdd + [desired[i]];
        }
      }
    }
    assert desired[..|desired|] == desired;
    toRemove := [];
    for i := 0 to |current|
      invariant toRemove == NotIn(current[..i], Named(desired))
    {
      assert current[..i + 1][..i] == current[..i];
      if current[i] != "" && current[i] !in desiredSet {
        toRemove := toRemove + [current[i]];
      }
    }
    assert current[..|current|] == current;
  }

  // ----- Transactions -----

  /** How a transaction goes: who asks, whether the read before it works and the users are known, the records handed to
      that read and to attempts that lost the race and were thrown away, the clock, and the outcome of the attempt that
      runs on the stored record. */
  datatype How = How(who: Actor, read: bool, known: bool, stale: seq<Case>, now: int, commit: Write)

  /** One AssignCase or UnassignCase transaction. */
  datatype Tx = Tx(assign: bool, users: seq<string>, how: How) {
    /** AssignCase checks the users before it opens its transaction; UnassignCase does not. */
    predicate Opens() {
      how.read && (assign ==> how.known)
    }

    /** An attempt whose closure is denied ends the transaction; only contention starts another one. */
    predicate Admitted(c: Case) {
      Opens() && MayWrite(c, how.who) && forall s :: s in how.stale ==> MayWrite(s, how.who)
    }

    /** The call reports success. */
    predicate Succeeds(c: Case) {
      Admitted(c) && how.commit.Acked?
    }

    /** The change is stored, whatever the call reports. */
    predicate Applies(c: Case) {
      Admitted(c) && !how.commit.Lost?
    }
  }

  /** What a committed transaction announces. */
  datatype Note = Note(added: seq<string>, removed: seq<string>)

  const NOTHING := Note([], [])

  /** A note is honest about a change of membership when it names exactly the users that came and went. */
  ghost predicate Honest(note: Note, before: set<string>, after: set<string>) {
    Named(note.added) == after - before && Named(note.removed) == before - after
    && "" !in note.added && "" !in note.removed
  }

  /** The record an attempt writes: the time is stamped only when the list changes. */
  function Written(tx: Tx, c: Case): Case {
    var after := if tx.assign then Union(c.assignees, tx.users) else Without(c.assignees, tx.users);
    c.(assignees := after, updatedAt := if after != c.assignees then tx.how.now else c.updatedAt)
  }

  function NoteOf(tx: Tx, c: Case): Note {
    var after := Written(tx, c).assignees;
    if tx.assign then Note(NotIn(after, Named(c.assignees)), []) else Note([], NotIn(c.assignees, Named(after)))
  }

  function Commit(tx: Tx, c: Case): (Case, Option<Note>) {
    if !tx.Admitted(c) || tx.how.commit.Lost? then (c, None)
    else (Written(tx, c), if tx.how.commit.Acked? && NoteOf(tx, c) != NOTHING then Some(NoteOf(tx, c)) else None)
  }

  /** The stored record and the announcements of one case under assignment transactions. */
  class AssigneeStore {
    var stored: Case
    var notes: seq<Note>

    constructor (c: Case)
      ensures stored == c && notes == []
    {
      stored, notes := c, [];
    }

    /** The closure: it resets the captured variable, checks access, and diffs the state it is about to write. */
    method Attempt(tx: Tx, c: Case) returns (ok: bool, c': Case, captured: Note)
      ensures ok <==> MayWrite(c, tx.how.who)
      ensures ok ==> c' == Written(tx, c) && captured == NoteOf(tx, c)
      ensures ok ==> Honest(captured, Named(c.assignees), Named(c'.assignees))
      ensures ok ==> c'.updatedAt == if c'.assignees != c.assignees then tx.how.now else c.updatedAt
      ensures ok ==> c' == c.(assignees := c'.assignees, updatedAt := c'.updatedAt)
      ensures !ok ==> c' == c && captured == NOTHING
    {
      captured := NOTHING;
      if !MayWrite(c, tx.how.who) {
        return false, c, captured;
      }
      var before := c.assignees;
      var after, changed;
      if tx.assign {
        after, changed := AssignUsers(before, tx.users);
      } else {
        after, changed := UnassignUsers(before, tx.users);
      }
      c' := c.(assignees := after);
      if changed {
        c' := c'.(updatedAt := tx.how.now);
      }
      var added, removed := DiffAssignees(before, after);
      captured := if tx.assign then Note(added, []) else Note([], removed);
      ok := true;
    }

    /** Transact: every lost attempt runs the closure for nothing; the last one runs it on the stored record, and
        what it captured is announced once the commit is acknowledged. */
    method Transact(tx: Tx) returns (ok: bool)
      modifies this
      ensures stored == Commit(tx, old(stored)).0
      ensures ok <==> tx.Succeeds(old(stored))
      ensures ok && NoteOf(tx, old(stored)) != NOTHING ==>
                notes == old(notes) + [NoteOf(tx, old(stored))]
                && Honest(NoteOf(tx, old(stored)), Named(old(stored).assignees), Named(stored.assignees))
      ensures !ok || NoteOf(tx, old(stored)) == NOTHING ==> notes == old(notes)
    {
      if !tx.how.read || (tx.assign && !tx.how.known) {
        return false;
      }
      var c', captured;
      for i := 0 to |tx.how.stale|
        invariant stored == old(stored) && notes == old(notes)
        invariant forall k :: 0 <= k < i ==> MayWrite(tx.how.stale[k], tx.how.who)
      {
        ok, c', captured := Attempt(tx, tx.how.stale[i]);
        if !ok {
          return;
        }
      }
      ok, c', captured := Attempt(tx, stored);
      if !ok {
        return;
      }
      if !tx.how.commit.Lost? {
        stored := c';
      }
      if !tx.how.commit.Acked? {
        return false;
      }
      if |captured.added| > 0 || |captured.removed| > 0 {
        notes := notes + [captured];
      }
    }

    /** The assignee part of HandleCaseEditSubmit: the selection is diffed against the record just read, the additions
        go out, and the removals follow unless the additions report a failure. */
    method Reconcile(selected: seq<string>, first: How, second: How) returns (ok: bool)
      modifies this
      ensures stored == RunTx(old(stored), WithModal(old(stored), old(stored), selected, first, second, [], [], [])).0
      ensures Named(stored.assignees) == Named(selected) <==> ReachesSelection(old(stored), selected, first, second)
      ensures ok ==> Named(stored.assignees) == Named(selected)
    {
      ghost var c := stored;
      ModalAlone(c, c, selected, first, second);
      ModalReachesSelectionExactlyWhen(c, selected, first, second);
      RunNone(c);
      var toAdd, toRemove := DiffAssignees(stored.assignees, selected);
      if |toAdd| > 0 {
        RunOne(stored, Tx(true, toAdd, first));
        ok := Transact(Tx(true, toAdd, first));
        if !ok {
          RunNone(stored);
          return;
        }
      }
      RunNone(stored);
      if |toRemove| > 0 {
        RunOne(stored, Tx(false, toRemove, second));
        ok := Transact(Tx(false, toRemove, second));
        if !ok {
          return;
        }
      }
      return true;
    }
  }

  // ----- Runs -----

  function RunTx(c: Case, txs: seq<Tx>): (Case, seq<Note>)
    decreases |txs|
  {
    if txs == [] then (c, [])
    else
      var (c1, note) := Commit(txs[0], c);
      var (c2, notes) := RunTx(c1, txs[1..]);
      (c2, (if note.Some? then [note.value] else []) + notes)
  }

  function Replay(members: set<string>, notes: seq<Note>): set<string>
    decreases |notes|
  {
    if notes == [] then members
    else Replay((members + Named(notes[0].added)) - Named(notes[0].removed), notes[1..])
  }

  /** The membership changes and the change is not announced: the write was applied but reported as failed. */
  predicate Silent(tx: Tx, c: Case) {
    tx.Admitted(c) && tx.how.commit.AppliedUnacked? && Named(Written(tx, c).assignees) != Named(c.assignees)
  }

  /** What is announced names exactly the users whose membership changed; what is not announced changed nobody's,
      exactly when it was not silent. */
  lemma CommitIsHonest(tx: Tx, c: Case)
    ensures var (c', note) := Commit(tx, c);
            if note.Some? then
              Honest(note.value, Named(c.assignees), Named(c'.assignees)) && Named(c'.assignees) != Named(c.assignees)
            else Named(c'.assignees) == Named(c.assignees) <==> !Silent(tx, c)
  {
    var (c', note) := Commit(tx, c);
    if note.Some? {
      var said := note.value.added + note.value.removed;
      assert said != [];
      assert said[0] in said;
    }
    if note.None? && tx.Admitted(c) && NoteOf(tx, c) == NOTHING {
      forall u
        ensures u in Named(c'.assignees) <==> u in Named(c.assignees)
      {
        assert u !in NoteOf(tx, c).added && u !in NoteOf(tx, c).removed;
      }
    }
  }

  /** Every announcement of a run, in commit order, names exactly the users whose membership its own
      transaction changed. */
  ghost predicate AllHonest(members: set<string>, notes: seq<Note>)
    decreases |notes|
  {
    notes == [] ||
    var after := (members + Named(notes[0].added)) - Named(notes[0].removed);
    Honest(notes[0], members, after) && AllHonest(after, notes[1..])
  }

  /** No transaction of the run is silent when its turn comes. */
  predicate NoneSilent(c: Case, txs: seq<Tx>)
    decreases |txs|
  {
    txs != [] ==> !Silent(txs[0], c) && NoneSilent(Commit(txs[0], c).0, txs[1..])
  }

  /** One transaction keeps the replayed announcements at the stored set exactly when it is not silent. */
  lemma ReplayKeepsUpExactlyWhen(tx: Tx, c: Case)
    ensures var (c', note) := Commit(tx, c);
            Replay(Named(c.assignees), if note.Some? then [note.value] else []) == Named(c'.assignees)
            <==> !Silent(tx, c)
  {
    CommitIsHonest(tx, c);
    var note := Commit(tx, c).1;
    if note.Some? {
      assert [note.value][1..] == [];
    }
  }

  /** Replaying the announcements of any run without silent transactions from the first assignee set gives the
      stored set. */
  lemma {:induction false} ReplayGivesStoredSet(c: Case, txs: seq<Tx>)
    requires NoneSilent(c, txs)
    ensures var (c', notes) := RunTx(c, txs);
            Replay(Named(c.assignees), notes) == Named(c'.assignees) && AllHonest(Named(c.assignees), notes)
    decreases |txs|
  {
    if txs != [] {
      var (c1, note) := Commit(txs[0], c);
      CommitIsHonest(txs[0], c);
      ReplayGivesStoredSet(c1, txs[1..]);
      if note.Some? {
        var rest := RunTx(c1, txs[1..]).1;
        assert ([note.value] + rest)[1..] == rest;
        assert Named(c1.assignees) == (Named(c.assignees) + Named(note.value.added)) - Named(note.value.removed);
      } else {
        assert RunTx(c, txs).1 == RunTx(c1, txs[1..]).1;
      }
    }
  }

  /** A transaction changes nothing but the list and the time, so access never changes. */
  lemma {:induction false} AccessIsStable(c: Case, txs: seq<Tx>)
    ensures var end := RunTx(c, txs).0; end == c.(assignees := end.assignees, updatedAt := end.updatedAt)
    decreases |txs|
  {
    if txs != [] {
      AccessIsStable(Commit(txs[0], c).0, txs[1..]);
    }
  }

  /** Some transaction of the run is stored that asks for the opposite of what the record says about u. */
  predicate Turned(u: string, c: Case, txs: seq<Tx>) {
    exists i :: 0 <= i < |txs| && Turns(u, c, txs[i])
  }

  predicate Turns(u: string, c: Case, t: Tx) {
    t.assign == (u !in c.assignees) && u in t.users && t.Applies(c)
  }

  lemma TurnedFirst(u: string, c: Case, txs: seq<Tx>)
    requires txs != []
    ensures Turned(u, c, txs) <==> Turns(u, c, txs[0]) || Turned(u, c, txs[1..])
  {
    if i :| 0 < i < |txs| && Turns(u, c, txs[i]) {
      assert txs[1..][i - 1] == txs[i];
    }
    if i :| 0 <= i < |txs| - 1 && Turns(u, c, txs[1..][i]) {
      assert txs[i + 1] == txs[1..][i];
    }
  }

  /** Announcements replayed from any other set say the stored thing about u from the first turn on, and until then what
      that set said. */
  lemma {:induction false} ReplayCatchesUp(c: Case, txs: seq<Tx>, members: set<string>, u: string)
    requires u != "" && NoneSilent(c, txs)
    ensures var (end, notes) := RunTx(c, txs);
            (u in Replay(members, notes) <==> if Turned(u, c, txs) then u in end.assignees else u in members)
            && (!Turned(u, c, txs) ==> (u in end.assignees <==> u in c.assignees))
    decreases |txs|
  {
    if txs != [] {
      var (c1, note) := Commit(txs[0], c);
      var more := if note.Some? then (members + Named(note.value.added)) - Named(note.value.removed) else members;
      ReplayCatchesUp(c1, txs[1..], more, u);
      FirstNote(c, txs, members);
      TurnedFirst(u, c, txs);
      OneNote(u, c, txs[0], members);
      OneTurn(u, c, txs[0]);
      assert Turns(u, c, txs[0]) || (Turned(u, c1, txs[1..]) <==> Turned(u, c, txs[1..]));
    }
  }

  lemma OneTurn(u: string, c: Case, t: Tx)
    requires u != ""
    ensures var c1 := Commit(t, c).0;
            (u in c1.assignees <==> (u in c.assignees) != Turns(u, c, t))
            && (!Turns(u, c, t) ==> forall x :: Turns(u, c1, x) <==> Turns(u, c, x))
  {
  }

  lemma OneNote(u: string, c: Case, t: Tx, members: set<string>)
    requires u != "" && !Silent(t, c)
    ensures var (c1, note) := Commit(t, c);
            var more := if note.Some? then (members + Named(note.value.added)) - Named(note.value.removed) else members;
            u in more <==> if Turns(u, c, t) then u in c1.assignees else u in members
  {
    CommitIsHonest(t, c);
    OneTurn(u, c, t);
    var (c1, note) := Commit(t, c);
    assert u in c1.assignees <==> u in Named(c1.assignees);
    assert u in c.assignees <==> u in Named(c.assignees);
  }

  lemma FirstNote(c: Case, txs: seq<Tx>, members: set<string>)
    requires txs != []
    ensures var (c1, note) := Commit(txs[0], c);
            var more := if note.Some? then (members + Named(note.value.added)) - Named(note.value.removed) else members;
            RunTx(c, txs).0 == RunTx(c1, txs[1..]).0
            && Replay(members, RunTx(c, txs).1) == Replay(more, RunTx(c1, txs[1..]).1)
  {
    var (c1, note) := Commit(txs[0], c);
    var rest := RunTx(c1, txs[1..]).1;
    if note.Some? {
      assert ([note.value] + rest)[1..] == rest;
    } else {
      assert [] + rest == rest;
    }
  }

  lemma {:induction false} ReplaySplits(members: set<string>, a: seq<Note>, b: seq<Note>)
    ensures Replay(members, a + b) == Replay(Replay(members, a), b)
    decreases |a|
  {
    if a == [] {
      assert a + b == b;
    } else {
      assert (a + b)[1..] == a[1..] + b;
      ReplaySplits((members + Named(a[0].added)) - Named(a[0].removed), a[1..], b);
    }
  }

  // ----- The edit modal -----

  /** The transactions of a run that name u. */
  function Naming(u: string, txs: seq<Tx>): seq<Tx>
    decreases |txs|
  {
    if txs == [] then []
    else (if u in txs[0].users then [txs[0]] else []) + Naming(u, txs[1..])
  }

  /** Membership of u is decided by the transactions that name u alone. */
  lemma {:induction false} OnlyNamingMatters(u: string, c: Case, d: Case, txs: seq<Tx>)
    requires d == c.(assignees := d.assignees, updatedAt := d.updatedAt)
    requires u in c.assignees <==> u in d.assignees
    ensures u in RunTx(c, txs).0.assignees <==> u in RunTx(d, Naming(u, txs)).0.assignees
    decreases |txs|
  {
    if txs != [] {
      var c1 := Commit(txs[0], c).0;
      if u in txs[0].users {
        var d1 := Commit(txs[0], d).0;
        OnlyNamingMatters(u, c1, d1, txs[1..]);
        assert ([txs[0]] + Naming(u, txs[1..]))[1..] == Naming(u, txs[1..]);
      } else {
        OnlyNamingMatters(u, c1, d, txs[1..]);
        assert Naming(u, txs) == Naming(u, txs[1..]);
      }
    }
  }

  lemma {:induction false} NamingAppend(u: string, a: seq<Tx>, b: seq<Tx>)
    ensures Naming(u, a + b) == Naming(u, a) + Naming(u, b)
    decreases |a|
  {
    if a == [] {
      assert a + b == b;
    } else {
      NamingAppend(u, a[1..], b);
      assert (a + b)[0] == a[0] && (a + b)[1..] == a[1..] + b;
      Associates(if u in a[0].users then [a[0]] else [], Naming(u, a[1..]), Naming(u, b));
    }
  }

  lemma Associates(a: seq<Tx>, b: seq<Tx>, c: seq<Tx>)
    ensures (a + b) + c == a + (b + c)
  {
  }

  /** HandleCaseEditSubmit: the selection is diffed against the record `seen`, then the additions and the
      removals go out as two transactions; an empty side is skipped. */
  function ModalAdd(seen: Case, selected: seq<string>, how: How): seq<Tx> {
    var toAdd := NotIn(selected, Named(seen.assignees));
    if toAdd == [] then [] else [Tx(true, toAdd, how)]
  }

  function ModalRemove(seen: Case, selected: seq<string>, how: How): seq<Tx> {
    var toRemove := NotIn(seen.assignees, Named(selected));
    if toRemove == [] then [] else [Tx(false, toRemove, how)]
  }

  /** The transactions of a run with the modal in it: the addition after `before`, the removal after `between`, and no
      removal when the addition reported a failure. */
  function WithModal(c: Case, seen: Case, selected: seq<string>, first: How, second: How,
                     before: seq<Tx>, between: seq<Tx>, after: seq<Tx>): seq<Tx>
  {
    var add := ModalAdd(seen, selected, first);
    var goesOn := add == [] || add[0].Succeeds(RunTx(c, before).0);
    before + add + between + (if goesOn then ModalRemove(seen, selected, second) else []) + after
  }

  lemma RunOne(c: Case, t: Tx)
    ensures RunTx(c, [t]).0 == Commit(t, c).0
  {
    assert [t][1..] == [];
  }

  lemma RunNone(c: Case)
    ensures RunTx(c, []) == (c, [])
  {
  }

  /** Each side does its part exactly when it has nothing to do or its transaction is applied. */
  predicate Done(c: Case, txs: seq<Tx>)
    requires |txs| <= 1
  {
    txs == [] || txs[0].Applies(c)
  }

  lemma AddingReachesUnion(c: Case, selected: seq<string>, how: How)
    ensures var end := RunTx(c, ModalAdd(c, selected, how)).0;
            Named(end.assignees)
            == if Done(c, ModalAdd(c, selected, how)) then Named(c.assignees) + Named(selected) else Named(c.assignees)
  {
    var add := ModalAdd(c, selected, how);
    if add != [] {
      RunOne(c, add[0]);
    }
  }

  lemma RemovingTakesAway(c: Case, seen: Case, selected: seq<string>, how: How)
    ensures var end := RunTx(c, ModalRemove(seen, selected, how)).0;
            Named(end.assignees)
            == if Done(c, ModalRemove(seen, selected, how))
               then Named(c.assignees) - (Named(seen.assignees) - Named(selected)) else Named(c.assignees)
  {
    var remove := ModalRemove(seen, selected, how);
    assert forall u :: u in Named(seen.assignees) - Named(selected) <==> u in NotIn(seen.assignees, Named(selected));
    if remove != [] {
      RunOne(c, remove[0]);
      var end := RunTx(c, remove).0;
      if remove[0].Applies(c) {
        assert forall u :: u in end.assignees <==> u in c.assignees && u !in remove[0].users;
      }
    }
  }

  /** Nothing to add, or an addition that reports success; or one that is stored but reported as failed, with nothing
      to remove after it. And nothing to remove, or a removal that is stored. */
  predicate ReachesSelection(c: Case, selected: seq<string>, first: How, second: How) {
    var add, remove := ModalAdd(c, selected, first), ModalRemove(c, selected, second);
    && (add == [] || add[0].Succeeds(c) || (add[0].Applies(c) && remove == []))
    && (remove == [] || remove[0].Applies(c))
  }

  /** With nobody else writing, the modal ends with exactly the selected users if and only if each of its transactions
      that has anything to do goes through as said: the removal is not sent after an addition that reports a failure. */
  lemma ModalReachesSelectionExactlyWhen(c: Case, selected: seq<string>, first: How, second: How)
    ensures Named(RunTx(c, WithModal(c, c, selected, first, second, [], [], [])).0.assignees) == Named(selected)
            <==> ReachesSelection(c, selected, first, second)
  {
    var add, remove := ModalAdd(c, selected, first), ModalRemove(c, selected, second);
    var mid := RunTx(c, add).0;
    ModalAlone(c, c, selected, first, second);
    AccessIsStable(c, add);
    AddingReachesUnion(c, selected, first);
    RemovingTakesAway(mid, c, selected, second);
    NothingOnASide(c, selected, first, second);
    var sends := add == [] || add[0].Succeeds(c);
    SidesMakeTheSelection(Named(c.assignees), Named(selected), Named(mid.assignees),
                          Named(RunTx(mid, if sends then remove else []).0.assignees),
                          Done(c, add), sends && remove != [] && remove[0].Applies(mid));
  }

  /** The modal's two transactions with nobody else writing. */
  lemma ModalAlone(c: Case, seen: Case, selected: seq<string>, first: How, second: How)
    ensures var add := ModalAdd(seen, selected, first);
            var sent := if add == [] || add[0].Succeeds(c) then ModalRemove(seen, selected, second) else [];
            RunTx(c, WithModal(c, seen, selected, first, second, [], [], [])).0 == RunTx(RunTx(c, add).0, sent).0
  {
    var add := ModalAdd(seen, selected, first);
    var sent := if add == [] || add[0].Succeeds(c) then ModalRemove(seen, selected, second) else [];
    RunNone(c);
    assert WithModal(c, seen, selected, first, second, [], [], []) == add + sent;
    RunSplits(c, add, sent);
  }

  lemma NothingOnASide(c: Case, selected: seq<string>, first: How, second: How)
    ensures ModalAdd(c, selected, first) == [] <==> Named(selected) <= Named(c.assignees)
    ensures ModalRemove(c, selected, second) == [] <==> Named(c.assignees) <= Named(selected)
  {
    NothingNew(selected, c.assignees);
    NothingNew(c.assignees, selected);
  }

  lemma NothingNew(a: seq<string>, b: seq<string>)
    ensures NotIn(a, Named(b)) == [] <==> Named(a) <= Named(b)
  {
    if NotIn(a, Named(b)) != [] {
      assert NotIn(a, Named(b))[0] in NotIn(a, Named(b));
    } else {
      assert forall u :: u in Named(a) ==> u in Named(b) || u in NotIn(a, Named(b));
    }
  }

  lemma SidesMakeTheSelection(had: set<string>, want: set<string>, mid: set<string>, end: set<string>,
                              added: bool, removed: bool)
    requires mid == if added then had + want else had
    requires end == if removed then mid - (had - want) else mid
    ensures end == want <==> (want <= had || added) && (had <= want || removed)
  {
    if (want <= had || added) && (had <= want || removed) {
      assert forall u :: u in end <==> u in want;
    }
    assert had - want <= mid;
  }

  lemma {:induction false} RunSplits(c: Case, a: seq<Tx>, b: seq<Tx>)
    ensures RunTx(c, a + b).0 == RunTx(RunTx(c, a).0, b).0
    ensures RunTx(c, a + b).1 == RunTx(c, a).1 + RunTx(RunTx(c, a).0, b).1
    decreases |a|
  {
    if a == [] {
      assert a + b == b;
    } else {
      assert (a + b)[1..] == a[1..] + b;
      RunSplits(Commit(a[0], c).0, a[1..], b);
    }
  }

  /** With any transactions of others before, between and after the modal's two, whatever becomes of those, a user the
      modal neither added nor removed ends exactly as if the modal had not been submitted. */
  lemma ModalLeavesOthersAlone(
      c: Case, seen: Case, selected: seq<string>, first: How, second: How,
      before: seq<Tx>, between: seq<Tx>, after: seq<Tx>, u: string)
    requires u in Named(seen.assignees) <==> u in Named(selected)
    ensures u in RunTx(c, WithModal(c, seen, selected, first, second, before, between, after)).0.assignees
            <==> u in RunTx(c, before + between + after).0.assignees
  {
    var add := ModalAdd(seen, selected, first);
    var remove := if add == [] || add[0].Succeeds(RunTx(c, before).0) then ModalRemove(seen, selected, second) else [];
    ModalNamesOthersNot(seen, selected, first, second, u);
    NamingSkips(u, before + add + between, remove, after);
    assert before + add + between + after == before + add + (between + after);
    NamingSkips(u, before, add, between + after);
    assert before + (between + after) == before + between + after;
    OnlyNamingMatters(u, c, c, before + add + between + remove + after);
    OnlyNamingMatters(u, c, c, before + between + after);
  }

  lemma ModalNamesOthersNot(seen: Case, selected: seq<string>, first: How, second: How, u: string)
    requires u in Named(seen.assignees) <==> u in Named(selected)
    ensures Naming(u, ModalAdd(seen, selected, first)) == [] && Naming(u, ModalRemove(seen, selected, second)) == []
  {
    var add, remove := ModalAdd(seen, selected, first), ModalRemove(seen, selected, second);
    assert add == [] || (add[1..] == [] && u !in add[0].users);
    assert remove == [] || (remove[1..] == [] && u !in remove[0].users);
  }

  lemma NamingSkips(u: string, a: seq<Tx>, x: seq<Tx>, b: seq<Tx>)
    requires Naming(u, x) == []
    ensures Naming(u, a + x + b) == Naming(u, a + b)
  {
    NamingAppend(u, a + x, b);
    NamingAppend(u, a, x);
    NamingAppend(u, a, b);
  }
}
