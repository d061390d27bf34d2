/** The thread-mode question form and the turn its answer starts (HandleThreadCaseQuestionSubmit,
    pkg/usecase/slack_thread_create_question.go; StartTurn, pkg/usecase/agent/threadcase/durable.go). Presses, turns and
    other writers of a session interleave between any two steps of a press. */
module FormResume {
  import opened Cases
  import opened QuestionForms
  import WireIds

  type Thread = (string, string)

  /** The form a session waits on, and the session of a case thread. */
  datatype Pending = Pending(messageTS: string, items: seq<Item>)

  datatype Session = Session(creator: string, pending: Option<Pending>)

  /** A question form that was posted for a thread under a message timestamp. */
  datatype Form = Form(thread: Thread, ts: string, items: seq<Item>)

  /** A spawned run. `answers` is what a form's turn was started with; other turns have none. */
  datatype Turn = Turn(key: string, thread: Thread, trigger: string, reporter: string,
                       answers: Option<map<string, Answer>>)

  /** The stored state: cases by thread, sessions, runs ever spawned, threads with an open run, and the forms posted. */
  datatype Store = Store(cases: set<Thread>, sessions: map<Thread, Session>, turns: seq<Turn>, busy: set<Thread>,
                         asked: set<Form>)

  /** A press of Submit: the button's value, the message it sits on, who pressed and what the form held. */
  datatype Press = Press(value: string, messageTS: string, user: string, states: Option<States>)

  /** What a step hears: its lookup worked, the run locator answered, its write went through. */
  datatype Env = Env(ok: bool, located: bool, write: Write)

  datatype Outcome =
    | Malformed | NotMonitored | LookupFailed | Stale | Incomplete(missing: seq<string>)
    | NotLoaded | Duplicate | NotReady | Busy | NotSpawned | Started

  /** What a press does next. */
  datatype Pc =
    | Received
    | CheckingCase(thread: Thread)
    | Loading(thread: Thread)
    | Clearing(turn: Turn)
    | Reloading(turn: Turn)
    | Persisting(turn: Turn, copy: Session)
    | Binding(turn: Turn)
    | Asking(turn: Turn)
    | Spawning(turn: Turn)
    | Ended(outcome: Outcome)

  // ----- Starting a turn -----

  const NUL := 0 as char

  /** TriggerKey */
  function TriggerKey(thread: Thread, trigger: string): string {
    "slack" + [NUL] + thread.0 + [NUL] + thread.1 + [NUL] + trigger
  }

  predicate HasKey(turns: seq<Turn>, key: string) {
    exists i :: 0 <= i < |turns| && turns[i].key == key
  }

  /** Spawn answers a known key with the run it has, and only then asks whether the thread is busy. */
  function Spawn(s: Store, turn: Turn, w: Write): (Store, Outcome) {
    if HasKey(s.turns, turn.key) then (s, Started)
    else if turn.thread in s.busy then (s, Busy)
    else if w.Lost? then (s, NotSpawned)
    else (s.(turns := s.turns + [turn], busy := s.busy + {turn.thread}), if w.Acked? then Started else NotSpawned)
  }

  // ----- The steps of a press -----

  function Parsed(items: seq<Item>, states: Option<States>): map<string, Answer> {
    if states.None? then map[] else Answers(states.value, items)
  }

  /** The pending form the press answers, if it is still the one. */
  function Awaited(s: Store, thread: Thread, ts: string): Option<Pending> {
    if thread in s.sessions && s.sessions[thread].pending.Some? && s.sessions[thread].pending.value.messageTS == ts
    then s.sessions[thread].pending else None
  }

  /** The turn a press with these answers starts. */
  function TurnOf(s: Store, thread: Thread, p: Press, answers: map<string, Answer>): Turn
    requires thread in s.sessions
  {
    var creator := s.sessions[thread].creator;
    Turn(TriggerKey(thread, p.messageTS), thread, p.messageTS, if creator == "" then p.user else creator, Some(answers))
  }

  /** SetPendingQuestion writes one field of a session that exists. */
  function SetPending(s: Store, thread: Thread, pending: Option<Pending>, w: Write): Store {
    if w.Lost? || thread !in s.sessions then s
    else s.(sessions := s.sessions[thread := s.sessions[thread].(pending := pending)])
  }

  /** loadOrCreateSession, with the reporter filled in. */
  function Loaded(s: Store, turn: Turn): Session {
    var session := if turn.thread in s.sessions then s.sessions[turn.thread] else Session("", None);
    if session.creator == "" then session.(creator := turn.reporter) else session
  }

  function CheckAnswers(s: Store, thread: Thread, p: Press): Pc {
    var pending := Awaited(s, thread, p.messageTS);
    if pending.None? then Ended(Stale)
    else
      var answers := Parsed(pending.value.items, p.states);
      var missing := Missing(pending.value.items, answers);
      if missing != [] then Ended(Incomplete(missing)) else Clearing(TurnOf(s, thread, p, answers))
  }

  /** One step: what it leaves stored, and what the press does next. */
  function Move(s: Store, p: Press, pc: Pc, e: Env): (Store, Pc) {
    match pc
    case Received =>
      var thread := WireIds.ParseCaseThreadValue(p.value);
      (s, if thread.None? then Ended(Malformed) else if !e.ok then Ended(NotMonitored) else CheckingCase(thread.value))
    case CheckingCase(thread) =>
      (s, if !e.ok then Ended(Outcome.LookupFailed) else if thread in s.cases then Ended(Stale) else Loading(thread))
    case Loading(thread) => (s, if !e.ok then Ended(Outcome.LookupFailed) else CheckAnswers(s, thread, p))
    case Clearing(turn) => (SetPending(s, turn.thread, None, e.write), Reloading(turn))
    case Reloading(turn) => (s, if !e.ok then Ended(NotLoaded) else Persisting(turn, Loaded(s, turn)))
    case Persisting(turn, copy) =>
      (if e.write.Lost? then s else s.(sessions := s.sessions[turn.thread := copy]), Binding(turn))
    case Binding(turn) => (s, if !e.ok then Ended(NotReady) else Asking(turn))
    case Asking(turn) =>
      (s, if e.located && HasKey(s.turns, turn.key) then Ended(Duplicate)
          else if !e.ok then Ended(NotReady)
          else Spawning(turn))
    case Spawning(turn) => var (t, outcome) := Spawn(s, turn, e.write); (t, Ended(outcome))
    case Ended(outcome) => (s, pc)
  }

  // ----- Interleavings -----

  datatype InFlight = InFlight(press: Press, pc: Pc)

  datatype State = State(store: Store, presses: map<nat, InFlight>)

  /** Besides presses: a form is posted and recorded, a case comes to be, another writer stores the session document it
      holds, another message of the thread starts a turn, and a turn ends. */
  datatype Act =
    | Ask(form: Form, write: Write)
    | CreateCase(thread: Thread)
    | Overwrite(thread: Thread, session: Session)
    | SpawnOther(thread: Thread, trigger: string, write: Write)
    | FinishTurn(thread: Thread)
    | Submit(id: nat, press: Press)
    | Advance(id: nat, env: Env)

  function Asked(s: Store, form: Form, w: Write): Store {
    SetPending(s.(asked := s.asked + {form}), form.thread, Some(Pending(form.ts, form.items)), w)
  }

  /** A document a writer may hold: one whose pending question, if any, was asked on the thread. */
  predicate MayHold(s: Store, thread: Thread, session: Session) {
    session.pending.Some? ==> Form(thread, session.pending.value.messageTS, session.pending.value.items) in s.asked
  }

  function Do(s: State, a: Act): State {
    match a
    case Ask(form, w) => s.(store := Asked(s.store, form, w))
    case CreateCase(thread) => s.(store := s.store.(cases := s.store.cases + {thread}))
    case Overwrite(thread, session) =>
      if MayHold(s.store, thread, session) then s.(store := s.store.(sessions := s.store.sessions[thread := session]))
        else s
    case SpawnOther(thread, trigger, w) =>
      s.(store := Spawn(s.store, Turn(TriggerKey(thread, trigger), thread, trigger, "", None), w).0)
    case FinishTurn(thread) => s.(store := s.store.(busy := s.store.busy - {thread}))
    case Submit(id, p) => if id in s.presses then s else s.(presses := s.presses[id := InFlight(p, Received)])
    case Advance(id, e) =>
      if id !in s.presses then s
      else
        var (store, pc) := Move(s.store, s.presses[id].press, s.presses[id].pc, e);
        State(store, s.presses[id := s.presses[id].(pc := pc)])
  }

  function Run(s: State, acts: seq<Act>): State
    decreases |acts|
  {
    if acts == [] then s else Run(Do(s, acts[0]), acts[1..])
  }

  // ----- What every interleaving keeps -----

  predicate Complete(items: seq<Item>, answers: map<string, Answer>) {
    forall i :: 0 <= i < |items| ==> items[i].id in answers && !answers[items[i].id].IsEmpty()
  }

  /** The turn has its key, and a form's turn answers every question of a form that was posted under its trigger. */
  ghost predicate Right(asked: set<Form>, turn: Turn) {
    && turn.key == TriggerKey(turn.thread, turn.trigger)
    && (turn.answers.Some? ==>
          exists items :: Form(turn.thread, turn.trigger, items) in asked && Complete(items, turn.answers.value))
  }

  predicate KeysDistinct(turns: seq<Turn>) {
    forall i, j :: 0 <= i < j < |turns| ==> turns[i].key != turns[j].key
  }

  ghost predicate StoreSound(s: Store) {
    && KeysDistinct(s.turns)
    && (forall i :: 0 <= i < |s.turns| ==> Right(s.asked, s.turns[i]))
    && (forall thread :: thread in s.sessions ==> MayHold(s, thread, s.sessions[thread]))
  }

  /** The press is of this thread's form. */
  predicate Names(p: Press, thread: Thread) {
    WireIds.ParseCaseThreadValue(p.value) == Some(thread)
  }

  /** The turn is right, and the one this press asks for. */
  ghost predicate Carries(s: Store, p: Press, turn: Turn) {
    Right(s.asked, turn) && turn.answers.Some? && Names(p, turn.thread) && turn.trigger == p.messageTS
  }

  ghost predicate PressSound(s: Store, p: Press, pc: Pc) {
    match pc
    case Received => true
    case CheckingCase(thread) => Names(p, thread)
    case Loading(thread) => Names(p, thread)
    case Clearing(turn) => Carries(s, p, turn)
    case Reloading(turn) => Carries(s, p, turn)
    case Persisting(turn, copy) => Carries(s, p, turn) && MayHold(s, turn.thread, copy)
    case Binding(turn) => Carries(s, p, turn)
    case Asking(turn) => Carries(s, p, turn)
    case Spawning(turn) => Carries(s, p, turn)
    case Ended(outcome) => outcome.Started? || outcome.Duplicate? ==> HasTurn(s, p)
  }

  /** The message pressed has its turn. */
  predicate HasTurn(s: Store, p: Press) {
    var thread := WireIds.ParseCaseThreadValue(p.value);
    thread.Some? && HasKey(s.turns, TriggerKey(thread.value, p.messageTS))
  }

  ghost predicate Sound(s: State) {
    StoreSound(s.store) && forall id :: id in s.presses ==> PressSound(s.store, s.presses[id].press, s.presses[id].pc)
  }

  /** Stored turns stay, in order, and so do the forms that were posted. */
  predicate Grows(s: Store, t: Store) {
    s.turns <= t.turns && s.asked <= t.asked
  }

  lemma RightStays(asked: set<Form>, more: set<Form>, turn: Turn)
    requires asked <= more && Right(asked, turn)
    ensures Right(more, turn)
  {
    if turn.answers.Some? {
      var items :| Form(turn.thread, turn.trigger, items) in asked && Complete(items, turn.answers.value);
      assert Form(turn.thread, turn.trigger, items) in more;
    }
  }

  lemma KeyStays(turns: seq<Turn>, more: seq<Turn>, key: string)
    requires turns <= more && HasKey(turns, key)
    ensures HasKey(more, key)
  {
    var i :| 0 <= i < |turns| && turns[i].key == key;
    assert more[i] == turns[i];
  }

  lemma PressStays(s: Store, t: Store, p: Press, pc: Pc)
    requires Grows(s, t) && PressSound(s, p, pc)
    ensures PressSound(t, p, pc)
  {
    if pc.Clearing? || pc.Reloading? || pc.Persisting? || pc.Binding? || pc.Asking? || pc.Spawning? {
      RightStays(s.asked, t.asked, pc.turn);
    } else if pc.Ended? && (pc.outcome.Started? || pc.outcome.Duplicate?) {
      KeyStays(s.turns, t.turns, TriggerKey(WireIds.ParseCaseThreadValue(p.value).value, p.messageTS));
    }
  }

  lemma SpawnIsSound(s: Store, turn: Turn, w: Write)
    requires StoreSound(s) && Right(s.asked, turn)
    ensures StoreSound(Spawn(s, turn, w).0) && Grows(s, Spawn(s, turn, w).0)
    ensures Spawn(s, turn, w).1.Started? ==> HasKey(Spawn(s, turn, w).0.turns, turn.key)
  {
    KeyAdded(s.turns, turn);
  }

  lemma PendingIsSound(s: Store, thread: Thread, pending: Option<Pending>, w: Write)
    requires StoreSound(s) && MayHold(s, thread, Session("", pending))
    ensures StoreSound(SetPending(s, thread, pending, w))
  {
  }

  lemma CheckedIsRight(s: Store, thread: Thread, p: Press)
    requires StoreSound(s) && Names(p, thread)
    ensures PressSound(s, p, CheckAnswers(s, thread, p))
  {
    var pending := Awaited(s, thread, p.messageTS);
    if pending.Some? {
      var items := pending.value.items;
      MissingIsEmptyExactlyWhen(items, Parsed(items, p.states));
      assert Form(thread, p.messageTS, items) in s.asked;
    }
  }

  lemma MoveIsSound(s: Store, p: Press, pc: Pc, e: Env)
    requires StoreSound(s) && PressSound(s, p, pc)
    ensures var (t, next) := Move(s, p, pc, e); StoreSound(t) && PressSound(t, p, next) && Grows(s, t)
  {
    match pc
    case Loading(thread) => CheckedIsRight(s, thread, p);
    case Clearing(turn) => PendingIsSound(s, turn.thread, None, e.write);
    case Spawning(turn) => SpawnIsSound(s, turn, e.write);
    case _ =>
  }

  lemma AskedIsSound(s: Store, form: Form, w: Write)
    requires StoreSound(s)
    ensures StoreSound(Asked(s, form, w)) && Grows(s, Asked(s, form, w))
  {
    var t := s.(asked := s.asked + {form});
    forall i | 0 <= i < |t.turns|
      ensures Right(t.asked, t.turns[i])
    {
      RightStays(s.asked, t.asked, s.turns[i]);
    }
    PendingIsSound(t, form.thread, Some(Pending(form.ts, form.items)), w);
  }

  lemma DoIsSound(s: State, a: Act)
    requires Sound(s)
    ensures Sound(Do(s, a)) && Grows(s.store, Do(s, a).store)
  {
    match a {
      case Ask(form, w) => AskedIsSound(s.store, form, w);
      case SpawnOther(thread, trigger, w) =>
        SpawnIsSound(s.store, Turn(TriggerKey(thread, trigger), thread, trigger, "", None), w);
      case Advance(id, e) =>
        if id in s.presses {
          MoveIsSound(s.store, s.presses[id].press, s.presses[id].pc, e);
        }
      case _ =>
    }
    forall id | id in s.presses
      ensures PressSound(Do(s, a).store, s.presses[id].press, s.presses[id].pc)
    {
      PressStays(s.store, Do(s, a).store, s.presses[id].press, s.presses[id].pc);
    }
  }

  /** Over every interleaving of presses, posted forms, other turns and other writers, whatever fails: each stored turn
      stays, has its key to itself, and a form's turn answers every question of a form posted under its trigger. */
  lemma {:induction false} EveryInterleavingIsSound(s: State, acts: seq<Act>)
    requires Sound(s)
    ensures Sound(Run(s, acts)) && Grows(s.store, Run(s, acts).store)
    decreases |acts|
  {
    if acts != [] {
      DoIsSound(s, acts[0]);
      EveryInterleavingIsSound(Do(s, acts[0]), acts[1..]);
    }
  }

  // ----- One turn a form -----

  /** The turns a message of a thread has started. */
  function Count(turns: seq<Turn>, thread: Thread, ts: string): nat
    decreases |turns|
  {
    if turns == [] then 0
    else
      var last := turns[|turns| - 1];
      Count(turns[..|turns| - 1], thread, ts) + if last.thread == thread && last.trigger == ts then 1 else 0
  }

  lemma {:induction false} CountIsHasKey(turns: seq<Turn>, thread: Thread, ts: string)
    requires KeysDistinct(turns) && forall i :: 0 <= i < |turns| ==>
               turns[i].key == TriggerKey(turns[i].thread, turns[i].trigger)
    ensures Count(turns, thread, ts) <= if HasKey(turns, TriggerKey(thread, ts)) then 1 else 0
    decreases |turns|
  {
    if turns != [] {
      var n := |turns| - 1;
      CountIsHasKey(turns[..n], thread, ts);
      if turns[n].key == TriggerKey(thread, ts) {
        assert !HasKey(turns[..n], TriggerKey(thread, ts));
      } else if HasKey(turns[..n], TriggerKey(thread, ts)) {
        var i :| 0 <= i < n && turns[..n][i].key == TriggerKey(thread, ts);
        assert turns[i].key == TriggerKey(thread, ts);
      }
    }
  }

  /** However forms are posted, superseded, pressed and pressed again, with any clearing lost and any steps of the
      presses interleaved, a form starts at most one turn. */
  lemma FormStartsAtMostOneTurn(s: State, acts: seq<Act>, thread: Thread, ts: string)
    requires Sound(s)
    ensures Count(Run(s, acts).store.turns, thread, ts) <= 1
  {
    EveryInterleavingIsSound(s, acts);
    CountIsHasKey(Run(s, acts).store.turns, thread, ts);
  }

  /** A turn that carries answers carries one to every question of a form that was posted under its message. */
  lemma TurnHasEveryAnswer(s: State, acts: seq<Act>, i: nat)
    requires Sound(s)
    ensures var t := Run(s, acts).store;
            i < |t.turns| && t.turns[i].answers.Some? ==>
              exists items :: Form(t.turns[i].thread, t.turns[i].trigger, items) in t.asked
                              && Complete(items, t.turns[i].answers.value)
  {
    EveryInterleavingIsSound(s, acts);
    var t := Run(s, acts).store;
    if i < |t.turns| {
      assert Right(t.asked, t.turns[i]);
    }
  }

  /** If the press reports a turn as started, now or before, there is one. */
  predicate ReportsTruly(s: State, id: nat) {
    id in s.presses && s.presses[id].pc.Ended?
    && (s.presses[id].pc.outcome.Started? || s.presses[id].pc.outcome.Duplicate?) ==>
      HasTurn(s.store, s.presses[id].press)
  }

  lemma SoundReportsTruly(s: State, id: nat)
    requires Sound(s)
    ensures ReportsTruly(s, id)
  {
    assert id in s.presses ==> PressSound(s.store, s.presses[id].press, s.presses[id].pc);
  }

  /** Under any interleaving, a press that reports a turn as started, or as started before, has one. */
  lemma ReportedTurnsExist(s: State, acts: seq<Act>, id: nat)
    requires Sound(s)
    ensures ReportsTruly(Run(s, acts), id)
  {
    EveryInterleavingIsSound(s, acts);
    SoundReportsTruly(Run(s, acts), id);
  }

  /** Whatever happened before, the spawn of a press leaves its message with a turn exactly when it had one already or
      the thread is idle and the run is recorded. */
  lemma SpawnStartsExactlyWhen(s: State, id: nat, e: Env)
    requires Sound(s) && id in s.presses && s.presses[id].pc.Spawning?
    ensures var turn := s.presses[id].pc.turn;
            HasTurn(Do(s, Advance(id, e)).store, s.presses[id].press)
            <==> HasTurn(s.store, s.presses[id].press) || (turn.thread !in s.store.busy && !e.write.Lost?)
    ensures var turn := s.presses[id].pc.turn;
            Do(s, Advance(id, e)).presses[id].pc
            == Ended(if HasTurn(s.store, s.presses[id].press) then Started
                     else if turn.thread in s.store.busy then Busy
                     else if e.write.Acked? then Started else NotSpawned)
  {
    var turn := s.presses[id].pc.turn;
    assert PressSound(s.store, s.presses[id].press, s.presses[id].pc);
    KeyAdded(s.store.turns, turn);
  }

  function TurnsOf(turns: seq<Turn>, thread: Thread): nat
    decreases |turns|
  {
    if turns == [] then 0
    else TurnsOf(turns[..|turns| - 1], thread) + if turns[|turns| - 1].thread == thread then 1 else 0
  }

  /** A busy thread stays busy and gets no turn, and a thread that gets one is busy from then on. */
  predicate KeepsBusy(s: Store, t: Store, thread: Thread) {
    && (thread in s.busy ==> thread in t.busy && TurnsOf(t.turns, thread) == TurnsOf(s.turns, thread))
    && (TurnsOf(t.turns, thread) != TurnsOf(s.turns, thread) ==>
          thread in t.busy && TurnsOf(t.turns, thread) == TurnsOf(s.turns, thread) + 1)
  }

  lemma SpawnKeepsBusy(s: Store, turn: Turn, w: Write, thread: Thread)
    ensures KeepsBusy(s, Spawn(s, turn, w).0, thread)
  {
    assert (s.turns + [turn])[..|s.turns|] == s.turns;
  }

  lemma MoveKeepsBusy(s: Store, p: Press, pc: Pc, e: Env, thread: Thread)
    ensures KeepsBusy(s, Move(s, p, pc, e).0, thread)
  {
    if pc.Spawning? {
      SpawnKeepsBusy(s, pc.turn, e.write, thread);
    }
  }

  lemma BusyStep(s: State, a: Act, thread: Thread)
    requires a != FinishTurn(thread)
    ensures KeepsBusy(s.store, Do(s, a).store, thread)
  {
    match a
    case SpawnOther(other, trigger, w) =>
      SpawnKeepsBusy(s.store, Turn(TriggerKey(other, trigger), other, trigger, "", None), w, thread);
    case Advance(id, e) =>
      if id in s.presses {
        MoveKeepsBusy(s.store, s.presses[id].press, s.presses[id].pc, e, thread);
      }
    case _ =>
  }

  /** A thread runs one turn at a time: until a turn of it ends, any interleaving starts at most one, and none while one
      is open. */
  lemma {:induction false} OneTurnAtATime(s: State, acts: seq<Act>, thread: Thread)
    requires FinishTurn(thread) !in acts
    ensures var (before, after) := (TurnsOf(s.store.turns, thread), TurnsOf(Run(s, acts).store.turns, thread));
            before <= after <= before + 1 && (thread in s.store.busy ==> after == before)
    decreases |acts|
  {
    if acts != [] {
      assert acts[0] in acts;
      BusyStep(s, acts[0], thread);
      OneTurnAtATime(Do(s, acts[0]), acts[1..], thread);
    }
  }

  predicate LeavesAlone(acts: seq<Act>, id: nat) {
    forall a :: a in acts && a.Advance? ==> a.id != id
  }

  lemma {:induction false} PressWaits(s: State, acts: seq<Act>, id: nat)
    requires id in s.presses && LeavesAlone(acts, id)
    ensures id in Run(s, acts).presses && Run(s, acts).presses[id] == s.presses[id]
    decreases |acts|
  {
    if acts != [] {
      assert acts[0] in acts;
      PressWaits(Do(s, acts[0]), acts[1..], id);
    }
  }

  /** The whole session document a press stores back overwrites a form posted since it was loaded, whatever happened in
      between, exactly when the write is applied and the document did not already hold that form. */
  lemma FormIsOverwrittenExactlyWhen(s: State, acts: seq<Act>, id: nat, e: Env, ts: string)
    requires id in s.presses && s.presses[id].pc.Persisting? && LeavesAlone(acts, id)
    requires Awaited(Run(s, acts).store, s.presses[id].pc.turn.thread, ts).Some?
    ensures var (thread, copy) := (s.presses[id].pc.turn.thread, s.presses[id].pc.copy);
            Awaited(Do(Run(s, acts), Advance(id, e)).store, thread, ts).None?
            <==> !e.write.Lost? && (copy.pending.None? || copy.pending.value.messageTS != ts)
  {
    PressWaits(s, acts, id);
  }

  predicate Sayable(s: string) {
    NUL !in s
  }

  lemma SplitAtNul(a: string, b: string, c: string, d: string)
    requires Sayable(a) && Sayable(c) && a + [NUL] + b == c + [NUL] + d
    ensures a == c && b == d
  {
    var left, right := a + [NUL] + b, c + [NUL] + d;
    assert left[|a|] == NUL && right[|c|] == NUL;
    assert forall k :: 0 <= k < |a| ==> left[k] == a[k] && a[k] in a;
    assert forall k :: 0 <= k < |c| ==> right[k] == c[k] && c[k] in c;
    assert |a| == |c|;
    assert a == left[..|a|] && c == right[..|c|] && b == left[|a| + 1..] && d == right[|c| + 1..];
  }

  /** Two messages never share a key, so no form is taken for another one's repeat. */
  lemma KeysTellMessagesApart(a: Thread, x: string, b: Thread, y: string)
    requires Sayable(a.0) && Sayable(a.1) && Sayable(b.0) && Sayable(b.1)
    ensures TriggerKey(a, x) == TriggerKey(b, y) <==> a == b && x == y
  {
    if TriggerKey(a, x) == TriggerKey(b, y) {
      assert TriggerKey(a, x) == "slack" + [NUL] + (a.0 + [NUL] + (a.1 + [NUL] + x));
      assert TriggerKey(b, y) == "slack" + [NUL] + (b.0 + [NUL] + (b.1 + [NUL] + y));
      SplitAtNul("slack", a.0 + [NUL] + (a.1 + [NUL] + x), "slack", b.0 + [NUL] + (b.1 + [NUL] + y));
      SplitAtNul(a.0, a.1 + [NUL] + x, b.0, b.1 + [NUL] + y);
      SplitAtNul(a.1, x, b.1, y);
    }
  }

  // ----- A press that nothing interleaves with -----

  /** The answers of the outside world during one press. */
  datatype World = World(monitored: bool, caseLookup: bool, sessionLookup: bool, clear: Write, reload: bool,
                         persist: Write, bound: bool,
                         located: bool, ready: bool, spawn: Write)

  function EnvOf(pc: Pc, w: World): Env {
    match pc
    case Received => Env(w.monitored, true, Acked)
    case CheckingCase(_) => Env(w.caseLookup, true, Acked)
    case Loading(_) => Env(w.sessionLookup, true, Acked)
    case Clearing(_) => Env(true, true, w.clear)
    case Reloading(_) => Env(w.reload, true, Acked)
    case Persisting(_, _) => Env(true, true, w.persist)
    case Binding(_) => Env(w.bound, true, Acked)
    case Asking(_) => Env(w.ready, w.located, Acked)
    case Spawning(_) => Env(true, true, w.spawn)
    case Ended(_) => Env(true, true, Acked)
  }

  function Rank(pc: Pc): nat {
    match pc
    case Received => 9
    case CheckingCase(_) => 8
    case Loading(_) => 7
    case Clearing(_) => 6
    case Reloading(_) => 5
    case Persisting(_, _) => 4
    case Binding(_) => 3
    case Asking(_) => 2
    case Spawning(_) => 1
    case Ended(_) => 0
  }

  /** The press goes on to its end. */
  function Finish(s: Store, p: Press, pc: Pc, w: World): (Store, Outcome)
    decreases Rank(pc)
  {
    if pc.Ended? then (s, pc.outcome)
    else
      var (t, next) := Move(s, p, pc, EnvOf(pc, w));
      Finish(t, p, next, w)
  }

  lemma Stepped(s: Store, p: Press, pc: Pc, w: World) returns (t: Store, next: Pc)
    requires !pc.Ended?
    ensures (t, next) == Move(s, p, pc, EnvOf(pc, w)) && Finish(t, p, next, w) == Finish(s, p, pc, w)
  {
    t, next := Move(s, p, pc, EnvOf(pc, w)).0, Move(s, p, pc, EnvOf(pc, w)).1;
  }

  lemma {:induction false} FinishIsSound(s: Store, p: Press, pc: Pc, w: World)
    requires StoreSound(s) && PressSound(s, p, pc)
    ensures StoreSound(Finish(s, p, pc, w).0) && Grows(s, Finish(s, p, pc, w).0)
    decreases Rank(pc)
  {
    if !pc.Ended? {
      var t, next := Stepped(s, p, pc, w);
      MoveIsSound(s, p, pc, EnvOf(pc, w));
      FinishIsSound(t, p, next, w);
    }
  }

  /** The press is of the form its thread waits on, before there is a case, and its lookups work. */
  predicate Arrives(s: Store, p: Press, w: World) {
    var thread := WireIds.ParseCaseThreadValue(p.value);
    thread.Some? && w.monitored && w.caseLookup && w.sessionLookup && thread.value !in s.cases
    && Awaited(s, thread.value, p.messageTS).Some?
  }

  /** The turn the press asks for, when no answer is missing. */
  function Wanted(s: Store, p: Press, w: World): Option<Turn>
    requires Arrives(s, p, w)
  {
    var thread := WireIds.ParseCaseThreadValue(p.value).value;
    var pc := CheckAnswers(s, thread, p);
    if pc.Clearing? then Some(pc.turn) else None
  }

  /** The runtime takes the turn. */
  predicate Takes(s: Store, turn: Turn, w: World) {
    w.reload && w.bound && w.ready && turn.thread !in s.busy && !w.spawn.Lost?
  }

  lemma GateIsPassed(s: Store, p: Press, w: World)
    requires Arrives(s, p, w)
    ensures Wanted(s, p, w).Some? ==> Finish(s, p, Received, w) == Finish(s, p, Clearing(Wanted(s, p, w).value), w)
    ensures Wanted(s, p, w).None? ==>
              Finish(s, p, Received, w).0 == s && Finish(s, p, Received, w).1.Incomplete?
              && Finish(s, p, Received, w).1.missing != []
  {
    var thread := WireIds.ParseCaseThreadValue(p.value).value;
    var s1, pc1 := Stepped(s, p, Received, w);
    var s2, pc2 := Stepped(s1, p, pc1, w);
    var s3, pc3 := Stepped(s2, p, pc2, w);
  }

  /** From the clearing on: the turn is started exactly when it had been before or the runtime takes it, and the form is
      awaited again exactly when the clearing was lost. */
  lemma ClearingEnds(s: Store, p: Press, turn: Turn, w: World)
    requires turn.thread in s.sessions
    requires s.sessions[turn.thread].pending.Some? && s.sessions[turn.thread].pending.value.messageTS == turn.trigger
    ensures var t := Finish(s, p, Clearing(turn), w).0;
            && t.turns == (if !HasKey(s.turns, turn.key) && Takes(s, turn, w) then s.turns + [turn] else s.turns)
            && (Awaited(t, turn.thread, turn.trigger).Some? <==> w.clear.Lost?)
            && t.cases == s.cases && turn.thread in t.sessions
            && (var creator := s.sessions[turn.thread].creator;
                t.sessions[turn.thread].creator
                == if creator == "" && w.reload && !w.persist.Lost? then turn.reporter else creator)
            && (w.clear.Lost? ==> t.sessions[turn.thread].pending == s.sessions[turn.thread].pending)
  {
    var s1, pc1 := Stepped(s, p, Clearing(turn), w);
    var s2, pc2 := Stepped(s1, p, pc1, w);
    if w.reload {
      var s3, pc3 := Stepped(s2, p, pc2, w);
      assert s3.turns == s.turns && s3.busy == s.busy;
      var s4, pc4 := Stepped(s3, p, pc3, w);
      if !pc4.Ended? {
        var s5, pc5 := Stepped(s4, p, pc4, w);
        if !pc5.Ended? {
          var s6, pc6 := Stepped(s5, p, pc5, w);
        }
      }
    }
  }

  lemma KeyAdded(turns: seq<Turn>, turn: Turn)
    ensures HasKey(turns + [turn], turn.key)
  {
    assert (turns + [turn])[|turns|] == turn;
  }

  /** The turn a press asks for, said from the session and the press: it is the form's, and its reporter is whoever the
      session was opened for, or else the person who pressed. It is asked for exactly when every question has an
      answer. */
  lemma WantedIs(s: Store, p: Press, w: World)
    requires Arrives(s, p, w)
    ensures var thread := WireIds.ParseCaseThreadValue(p.value).value;
            var items := s.sessions[thread].pending.value.items;
            var answers := if p.states.Some? then Answers(p.states.value, items) else map[];
            && (Wanted(s, p, w).Some? <==> Complete(items, answers))
            && (Wanted(s, p, w).Some? ==>
                  var turn := Wanted(s, p, w).value;
                  turn.thread == thread && turn.trigger == p.messageTS && turn.answers == Some(answers)
                  && turn.key == TriggerKey(thread, p.messageTS)
                  && turn.reporter == if s.sessions[thread].creator == "" then p.user else s.sessions[thread].creator)
  {
    var thread := WireIds.ParseCaseThreadValue(p.value).value;
    MissingIsEmptyExactlyWhen(s.sessions[thread].pending.value.items,
                              Parsed(s.sessions[thread].pending.value.items, p.states));
  }

  /** An undisturbed press of a form it waits on has started a turn by its end exactly when no answer is missing and the
      turn had been started before or the runtime takes it now. */
  lemma PressStartsExactlyWhen(s: Store, p: Press, w: World)
    requires Arrives(s, p, w)
    ensures var t := Finish(s, p, Received, w).0;
            var turn := Wanted(s, p, w);
            && (turn.None? ==> t == s)
            && (turn.Some? ==>
                  (HasKey(t.turns, turn.value.key) <==> HasKey(s.turns, turn.value.key) || Takes(s, turn.value, w))
                  && t.turns == if !HasKey(s.turns, turn.value.key) && Takes(s, turn.value, w)
                                then s.turns + [turn.value] else s.turns)
  {
    GateIsPassed(s, p, w);
    if Wanted(s, p, w).Some? {
      var turn := Wanted(s, p, w).value;
      ClearingEnds(s, p, turn, w);
      KeyAdded(s.turns, turn);
    }
  }

  /** A complete answer is lost for good, no turn having it and the form no longer waiting for another press, exactly
      when the clearing is applied and the runtime does not take the turn: the thread is busy, or the session, the
      runtime, the run's input or the spawn itself fails. */
  lemma AnswerIsLostExactlyWhen(s: Store, p: Press, w: World)
    requires Arrives(s, p, w) && Wanted(s, p, w).Some?
    ensures var t := Finish(s, p, Received, w).0;
            var turn := Wanted(s, p, w).value;
            !HasKey(t.turns, turn.key) && Awaited(t, turn.thread, turn.trigger).None?
            <==> !w.clear.Lost? && !HasKey(s.turns, turn.key) && !Takes(s, turn, w)
  {
    PressStartsExactlyWhen(s, p, w);
    GateIsPassed(s, p, w);
    ClearingEnds(s, p, Wanted(s, p, w).value, w);
  }

  /** Pressing again gets past the stale check exactly when the clearing was lost; it starts a turn then only if the
      first press did not. */
  lemma SecondPress(s: Store, p: Press, w: World, again: World)
    requires Arrives(s, p, w) && Wanted(s, p, w).Some? && again.monitored && again.caseLookup && again.sessionLookup
    ensures var t := Finish(s, p, Received, w).0;
            var u, r := Finish(t, p, Received, again).0, Finish(t, p, Received, again).1;
            && (w.clear.Lost? <==> Arrives(t, p, again))
            && (!w.clear.Lost? ==> u == t && r.Stale?)
            && (HasKey(t.turns, Wanted(s, p, w).value.key) ==> u.turns == t.turns)
  {
    GateIsPassed(s, p, w);
    var turn := Wanted(s, p, w).value;
    ClearingEnds(s, p, turn, w);
    var t := Finish(s, p, Received, w).0;
    if w.clear.Lost? {
      PressStartsExactlyWhen(t, p, again);
    } else {
      var t1, pc1 := Stepped(t, p, Received, again);
      var t2, pc2 := Stepped(t1, p, pc1, again);
      var t3, pc3 := Stepped(t2, p, pc2, again);
    }
  }

  /** A form filled in completely, pressed undisturbed on an idle thread, starts a turn with exactly the answers that
      were meant. */
  lemma CompleteFormStartsItsTurn(s: Store, thread: Thread, p: Press, given: seq<Given>, w: World)
    requires thread.0 != "" && ':' !in thread.0 && thread.1 != ""
             && p.value == WireIds.CaseThreadValue(thread.0, thread.1)
    requires Arrives(s, p, w) && Awaited(s, thread, p.messageTS).Some?
    requires var items := Awaited(s, thread, p.messageTS).value.items;
             |given| == |items| && Unambiguous(items) && p.states == Some(Fill(items, given))
             && forall i :: 0 <= i < |items| ==> Answered(items[i], given[i])
    requires !HasKey(s.turns, TriggerKey(thread, p.messageTS))
    requires w.reload && w.bound && w.ready && thread !in s.busy && !w.spawn.Lost?
    ensures var items := Awaited(s, thread, p.messageTS).value.items;
            var t := Finish(s, p, Received, w).0;
            |t.turns| == |s.turns| + 1
            && var turn := t.turns[|s.turns|];
               turn.thread == thread && turn.trigger == p.messageTS && turn.answers.Some?
               && forall i :: 0 <= i < |items| ==>
                    items[i].id in turn.answers.value && turn.answers.value[items[i].id] == Meant(items[i], given[i])
  {
    var items := Awaited(s, thread, p.messageTS).value.items;
    WireIds.CaseThreadReadsBackExactlyWhen(thread.0, thread.1);
    NothingMissingExactlyWhen(items, given);
    FormReadsBack(items, given);
    forall i | 0 <= i < |items|
      ensures !Meant(items[i], given[i]).IsEmpty()
    {
      MeantIsEmptyExactlyWhen(items[i], given[i]);
    }
    PressStartsExactlyWhen(s, p, w);
  }

  /** A press left alone is one of the interleavings: its steps, taken one after the other, end where the call does. */
  lemma {:induction false} StepsAreThePress(s: State, id: nat, w: World) returns (acts: seq<Act>)
    requires id in s.presses
    ensures var q := s.presses[id];
            var (store, outcome) := Finish(s.store, q.press, q.pc, w);
            Run(s, acts) == State(store, s.presses[id := q.(pc := Ended(outcome))])
    decreases Rank(s.presses[id].pc)
  {
    var q := s.presses[id];
    if q.pc.Ended? {
      acts := [];
      assert s.presses[id := q] == s.presses;
    } else {
      var a := Advance(id, EnvOf(q.pc, w));
      var t, next := Stepped(s.store, q.press, q.pc, w);
      assert Do(s, a) == State(t, s.presses[id := q.(pc := next)]);
      var rest := StepsAreThePress(Do(s, a), id, w);
      acts := [a] + rest;
      assert acts[1..] == rest;
      assert Do(s, a).presses[id := q.(pc := Ended(Finish(s.store, q.press, q.pc, w).1))]
             == s.presses[id := q.(pc := Ended(Finish(s.store, q.press, q.pc, w).1))];
    }
  }

  /** So a press that nothing interleaves with is a run from its receipt to its end. */
  lemma PressIsARun(s: State, id: nat, p: Press, w: World) returns (acts: seq<Act>)
    requires id !in s.presses
    ensures var (store, outcome) := Finish(s.store, p, Received, w);
            Run(s, acts) == State(store, s.presses[id := InFlight(p, Ended(outcome))])
  {
    var begun := Do(s, Submit(id, p));
    assert begun == State(s.store, s.presses[id := InFlight(p, Received)]);
    var rest := StepsAreThePress(begun, id, w);
    acts := [Submit(id, p)] + rest;
    assert acts[1..] == rest;
    var outcome := Finish(s.store, p, Received, w).1;
    assert begun.presses[id := InFlight(p, Ended(outcome))] == s.presses[id := InFlight(p, Ended(outcome))];
  }

  /** What others do between its steps takes effect. */
  lemma OthersAct(s: State, form: Form, w: Write, session: Session, trigger: string)
    requires form.thread in s.store.sessions && !w.Lost?
    ensures Awaited(Do(s, Ask(form, w)).store, form.thread, form.ts) == Some(Pending(form.ts, form.items))
    ensures form in Do(s, Ask(form, w)).store.asked
    ensures form.thread in Do(s, CreateCase(form.thread)).store.cases
    ensures MayHold(s.store, form.thread, session) ==>
              Do(s, Overwrite(form.thread, session)).store.sessions[form.thread] == session
    ensures form.thread !in s.store.busy ==>
              HasKey(Do(s, SpawnOther(form.thread, trigger, w)).store.turns, TriggerKey(form.thread, trigger))
    ensures form.thread !in Do(s, FinishTurn(form.thread)).store.busy
  {
    KeyAdded(s.store.turns, Turn(TriggerKey(form.thread, trigger), form.thread, trigger, "", None));
  }

  /** What the person who pressed is told. */
  predicate Says(s: Store, p: Press, w: World, r: Outcome) {
    var thread := WireIds.ParseCaseThreadValue(p.value);
    if thread.None? then r == Malformed
    else if !w.monitored then r == NotMonitored
    else if !w.caseLookup then r == Outcome.LookupFailed
    else if thread.value in s.cases then r == Stale
    else if !w.sessionLookup then r == Outcome.LookupFailed
    else if Awaited(s, thread.value, p.messageTS).None? then r == Stale
    else if Wanted(s, p, w).None? then r.Incomplete? && r.missing != []
    else if !w.reload then r == NotLoaded
    else if !w.bound then r == NotReady
    else if HasTurn(s, p) then r == if w.located then Duplicate else if w.ready then Started else NotReady
    else if !w.ready then r == NotReady
    else if thread.value in s.busy then r == Busy
    else r == if w.spawn.Acked? then Started else NotSpawned
  }

  /** A press of a message that has its turn says so, or starts nothing; one without a turn reports it as started only
      when it is recorded and acknowledged. */
  lemma PressSays(s: Store, p: Press, w: World)
    ensures Says(s, p, w, Finish(s, p, Received, w).1)
  {
    if Arrives(s, p, w) {
      GateIsPassed(s, p, w);
      if Wanted(s, p, w).Some? {
        ClearingSays(s, p, Wanted(s, p, w).value, w);
      }
    } else {
      ArrivalSays(s, p, w);
    }
  }

  lemma ArrivalSays(s: Store, p: Press, w: World)
    requires !Arrives(s, p, w)
    ensures Says(s, p, w, Finish(s, p, Received, w).1)
  {
    var s1, pc1 := Stepped(s, p, Received, w);
    if !pc1.Ended? {
      var s2, pc2 := Stepped(s1, p, pc1, w);
      if !pc2.Ended? {
        var s3, pc3 := Stepped(s2, p, pc2, w);
      }
    }
  }

  lemma ClearingSays(s: Store, p: Press, turn: Turn, w: World)
    requires turn.thread in s.sessions
    ensures Finish(s, p, Clearing(turn), w).1
            == if !w.reload then NotLoaded
               else if !w.bound then NotReady
               else if HasKey(s.turns, turn.key) then if w.located then Duplicate else if w.ready then Started
                 else NotReady
               else if !w.ready then NotReady
               else if turn.thread in s.busy then Busy
               else if w.spawn.Acked? then Started else NotSpawned
  {
    var s1, pc1 := Stepped(s, p, Clearing(turn), w);
    var s2, pc2 := Stepped(s1, p, pc1, w);
    if w.reload {
      var s3, pc3 := Stepped(s2, p, pc2, w);
      assert s3.turns == s.turns && s3.busy == s.busy;
      var s4, pc4 := Stepped(s3, p, pc3, w);
      if !pc4.Ended? {
        var s5, pc5 := Stepped(s4, p, pc4, w);
        if !pc5.Ended? {
          var s6, pc6 := Stepped(s5, p, pc5, w);
        }
      }
    }
  }

  // ----- The handler -----

  /** The turn is of the thread and message pressed, under the session's creator or else the presser, with an answer to
      every question of the form. */
  predicate IsTurnOf(turn: Turn, s: Store, p: Press) {
    WireIds.ParseCaseThreadValue(p.value) == Some(turn.thread) && turn.trigger == p.messageTS
    && turn.thread in s.sessions && s.sessions[turn.thread].pending.Some? && turn.answers.Some?
    && Complete(s.sessions[turn.thread].pending.value.items, turn.answers.value)
    && turn.reporter == (if s.sessions[turn.thread].creator == "" then p.user else s.sessions[turn.thread].creator)
  }

  class Sessions {
    var cases: set<Thread>
    var sessions: map<Thread, Session>
    var turns: seq<Turn>
    var busy: set<Thread>
    ghost var asked: set<Form>

    constructor (cases: set<Thread>)
      ensures Valid() && Contents() == Store(cases, map[], [], {}, {})
    {
      this.cases, sessions, turns, busy, asked := cases, map[], [], {}, {};
    }

    ghost function Contents(): Store
      reads this
    {
      Store(cases, sessions, turns, busy, asked)
    }

    /** Every turn has its key to itself and answers to a form that was posted. */
    ghost predicate Valid()
      reads this
    {
      StoreSound(Contents())
    }

    /** postThreadCreateQuestionForm and the write of AskQuestion: from now on the thread waits on this form alone. */
    method PostThreadCreateQuestionForm(form: Form, w: Write)
      requires Valid()
      modifies this`sessions, this`asked
      ensures Valid() && asked == old(asked) + {form}
      ensures form.thread in old(sessions) && !w.Lost? ==>
                forall ts :: Awaited(Contents(), form.thread, ts).Some? <==> ts == form.ts
      ensures sessions.Keys == old(sessions).Keys
      ensures forall thread :: thread in sessions && (thread != form.thread || w.Lost?) ==>
                                 sessions[thread] == old(sessions)[thread]
    {
      AskedIsSound(Contents(), form, w);
      asked := asked + {form};
      SetPendingQuestion(form.thread, Some(Pending(form.ts, form.items)), w);
    }

    method SetPendingQuestion(thread: Thread, pending: Option<Pending>, w: Write)
      modifies this`sessions
      ensures Contents() == SetPending(old(Contents()), thread, pending, w)
    {
      if thread in sessions && !w.Lost? {
        sessions := sessions[thread := sessions[thread].(pending := pending)];
      }
    }

    /** The press does what its steps do one after the other; whatever it does, every message still has at most one
        turn, and a new turn has every answer. */
    method HandleThreadCaseQuestionSubmit(p: Press, w: World) returns (r: Outcome)
      requires Valid()
      modifies this`sessions, this`turns, this`busy
      ensures Valid() && (Contents(), r) == Finish(old(Contents()), p, Received, w)
      ensures Says(old(Contents()), p, w, r)
      ensures forall thread, ts :: Count(turns, thread, ts) <= 1
      ensures turns == old(turns)
              || (Arrives(old(Contents()), p, w) && Wanted(old(Contents()), p, w).Some?
                  && turns == old(turns) + [Wanted(old(Contents()), p, w).value]
                  && IsTurnOf(turns[|old(turns)|], old(Contents()), p))
      ensures Arrives(old(Contents()), p, w) && Wanted(old(Contents()), p, w).Some? ==>
                (HasKey(turns, Wanted(old(Contents()), p, w).value.key)
                 <==> HasKey(old(turns), Wanted(old(Contents()), p, w).value.key)
                      || Takes(old(Contents()), Wanted(old(Contents()), p, w).value, w))
    {
      ghost var s := Contents();
      PressIsSound(s, p, w);
      PressSays(s, p, w);
      r := Handle(p, w);
    }

    lemma PressIsSound(s: Store, p: Press, w: World)
      requires StoreSound(s)
      ensures var t := Finish(s, p, Received, w).0;
              && StoreSound(t) && (forall thread, ts :: Count(t.turns, thread, ts) <= 1)
              && (t.turns == s.turns
                  || (Arrives(s, p, w) && Wanted(s, p, w).Some? && t.turns == s.turns + [Wanted(s, p, w).value]
                      && IsTurnOf(Wanted(s, p, w).value, s, p)))
              && (Arrives(s, p, w) && Wanted(s, p, w).Some? ==>
                    (HasKey(t.turns, Wanted(s, p, w).value.key)
                     <==> HasKey(s.turns, Wanted(s, p, w).value.key) || Takes(s, Wanted(s, p, w).value, w)))
    {
      var t := Finish(s, p, Received, w).0;
      FinishIsSound(s, p, Received, w);
      forall thread, ts
        ensures Count(t.turns, thread, ts) <= 1
      {
        CountIsHasKey(t.turns, thread, ts);
      }
      if Arrives(s, p, w) {
        WantedIs(s, p, w);
        PressStartsExactlyWhen(s, p, w);
      } else {
        NothingWithoutArrival(s, p, w);
      }
    }

    method Handle(p: Press, w: World) returns (r: Outcome)
      modifies this`sessions, this`turns, this`busy
      ensures (Contents(), r) == Finish(old(Contents()), p, Received, w)
    {
      ghost var s, pc := Contents(), Received;
      s, pc := Stepped(s, p, pc, w);
      var parsed := WireIds.ParseCaseThreadValue(p.value);
      if parsed.None? {
        return Malformed;
      }
      var thread := parsed.value;
      if !w.monitored {
        return NotMonitored;
      }
      s, pc := Stepped(s, p, pc, w);
      if !w.caseLookup {
        return Outcome.LookupFailed;
      }
      if thread in cases {
        return Stale;
      }
      s, pc := Stepped(s, p, pc, w);
      if !w.sessionLookup {
        return Outcome.LookupFailed;
      }
      if thread !in sessions || sessions[thread].pending.None?
        || sessions[thread].pending.value.messageTS != p.messageTS {
        return Stale;
      }
      r := AnswerForm(thread, p, w);
    }

    /** The session is loaded and waits on the form pressed. */
    method AnswerForm(thread: Thread, p: Press, w: World) returns (r: Outcome)
      requires thread in sessions && Awaited(Contents(), thread, p.messageTS).Some?
      modifies this`sessions, this`turns, this`busy
      ensures (Contents(), r) == Finish(old(Contents()), p, CheckAnswers(old(Contents()), thread, p), w)
    {
      var session := sessions[thread];
      var pq := session.pending.value;
      var answers := ParseDraftQuestionAnswers(pq.items, p.states);
      var reporter := session.creator;
      if reporter == "" {
        reporter := p.user;
      }
      var missing := MissingDraftQuestionItems(pq.items, answers);
      if |missing| > 0 {
        return Incomplete(missing);
      }
      var turn := Turn(TriggerKey(thread, p.messageTS), thread, p.messageTS, reporter, Some(answers));
      assert CheckAnswers(Contents(), thread, p) == Clearing(turn);
      ghost var s, pc := Stepped(Contents(), p, Clearing(turn), w);
      SetPendingQuestion(thread, None, w.clear);
      r := RunThreadCaseCreation(turn, p, w);
    }

    method RunThreadCaseCreation(turn: Turn, ghost p: Press, w: World) returns (r: Outcome)
      modifies this`sessions, this`turns, this`busy
      ensures (Contents(), r) == Finish(old(Contents()), p, Reloading(turn), w)
    {
      ghost var s, pc := Stepped(Contents(), p, Reloading(turn), w);
      if !w.reload {
        return NotLoaded;
      }
      var session := if turn.thread in sessions then sessions[turn.thread] else Session("", None);
      if session.creator == "" {
        session := session.(creator := turn.reporter);
      }
      s, pc := Stepped(s, p, pc, w);
      if !w.persist.Lost? {
        sessions := sessions[turn.thread := session];
      }
      r := StartTurn(turn, p, w);
    }

    method StartTurn(turn: Turn, ghost p: Press, w: World) returns (r: Outcome)
      modifies this`turns, this`busy
      ensures (Contents(), r) == Finish(old(Contents()), p, Binding(turn), w)
    {
      ghost var s, pc := Stepped(Contents(), p, Binding(turn), w);
      if !w.bound {
        return NotReady;
      }
      s, pc := Stepped(s, p, pc, w);
      if w.located && HasKey(turns, turn.key) {
        return Duplicate;
      }
      if !w.ready {
        return NotReady;
      }
      s, pc := Stepped(s, p, pc, w);
      if HasKey(turns, turn.key) {
        return Started;
      }
      if turn.thread in busy {
        return Busy;
      }
      if w.spawn.Lost? {
        return NotSpawned;
      }
      turns := turns + [turn];
      busy := busy + {turn.thread};
      return if w.spawn.Acked? then Started else NotSpawned;
    }
  }

  lemma NothingWithoutArrival(s: Store, p: Press, w: World)
    requires !Arrives(s, p, w)
    ensures Finish(s, p, Received, w).0 == s
  {
    var s1, pc1 := Stepped(s, p, Received, w);
    if !pc1.Ended? {
      var s2, pc2 := Stepped(s1, p, pc1, w);
      if !pc2.Ended? {
        var s3, pc3 := Stepped(s2, p, pc2, w);
      }
    }
  }
}
