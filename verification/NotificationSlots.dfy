/** The notification slot coordinator (pkg/usecase/notification_slot.go): short bursts of a channel's events share
    one rolling message. Time is in any fixed unit. */
module NotificationSlots {
  import opened Cases
  import Text

  const MAX_ENTRIES := 200

  datatype SlotEntry = SlotEntry(ts: string, title: string, permalink: string, body: string, at: int)

  datatype Slot = Slot(channel: string, messageTS: string, entries: seq<SlotEntry>, start: int, expiresAt: int,
                       updatedAt: int)

  /** What the caller hands in. */
  datatype Input = Input(ts: string, title: string, body: string)

  /** The answers of the slot store and of Slack during one call; a message may reach Slack although the call to post or
      update it reports an error. `ts` is the timestamp of a message posted. */
  datatype Env = Env(load: bool, permalink: Option<string>, post: Write, ts: string, update: Write, save: Write,
                     delete: Write)

  /** Messages that reached Slack, acknowledged or not. */
  datatype Sent =
    | Posted(channel: string, ts: string, at: int, entry: SlotEntry)
    | Updated(channel: string, ts: string, at: int, entry: SlotEntry)

  datatype State = State(slots: map<string, Slot>, sent: seq<Sent>)

  datatype Settings = Settings(slotDuration: int, wired: bool) {
    predicate Enabled() { slotDuration > 0 && wired }
  }

  // ----- One event -----

  function Active(s: State, channel: string, now: int): Option<Slot> {
    if channel in s.slots && s.slots[channel].expiresAt > now then Some(s.slots[channel]) else None
  }

  /** The first permalink already resolved for the action in this slot. */
  function KnownPermalink(entries: seq<SlotEntry>, ts: string): (r: string)
    ensures r != "" ==> exists e :: e in entries && e.ts == ts && e.permalink == r
    ensures r == "" ==> forall e :: e in entries && e.ts == ts ==> e.permalink == ""
  {
    if entries == [] then ""
    else if entries[0].ts == ts && entries[0].permalink != "" then entries[0].permalink
    else KnownPermalink(entries[1..], ts)
  }

  function EntryFor(slot: Option<Slot>, in_: Input, now: int, env: Env): SlotEntry {
    var known := if slot.None? || in_.ts == "" then "" else KnownPermalink(slot.value.entries, in_.ts);
    var permalink := if known != "" then known
                     else if in_.ts == "" || env.permalink.None? then "" else env.permalink.value;
    SlotEntry(in_.ts, Text.Trim(in_.title), permalink, in_.body, now)
  }

  function Last<T>(s: seq<T>, n: nat): seq<T> {
    if |s| <= n then s else s[|s| - n..]
  }

  function Save(s: State, slot: Slot, w: Write): State {
    if w.Lost? then s else s.(slots := s.slots[slot.channel := slot])
  }

  function Tell(s: State, m: Sent, w: Write): State {
    if w.Lost? then s else s.(sent := s.sent + [m])
  }

  function PostNew(cfg: Settings, s: State, channel: string, e: SlotEntry, now: int, env: Env): State {
    var told := Tell(s, Posted(channel, env.ts, now, e), env.post);
    if !env.post.Acked? then told
    else Save(told, Slot(channel, env.ts, [e], now, now + cfg.slotDuration, now), env.save)
  }

  function UpdateExisting(s: State, channel: string, slot: Slot, e: SlotEntry, now: int, env: Env): State {
    var told := Tell(s, Updated(channel, slot.messageTS, now, e), env.update);
    if !env.update.Acked? then (if env.delete.Lost? then told else told.(slots := told.slots - {slot.channel}))
    else Save(told, slot.(entries := Last(slot.entries + [e], MAX_ENTRIES), updatedAt := now), env.save)
  }

  function Enqueue(cfg: Settings, s: State, channel: string, in_: Input, now: int, env: Env): State {
    if !cfg.Enabled() || channel == "" || in_.body == "" || !env.load then s
    else
      var slot := Active(s, channel, now);
      var e := EntryFor(slot, in_, now, env);
      if slot.None? then PostNew(cfg, s, channel, e, now, env) else UpdateExisting(s, channel, slot.value, e, now, env)
  }

  // ----- Runs -----

  datatype Call = Call(channel: string, input: Input, now: int, env: Env)

  function Step(cfg: Settings, s: State, c: Call): State {
    Enqueue(cfg, s, c.channel, c.input, c.now, c.env)
  }

  function Run(cfg: Settings, s: State, calls: seq<Call>): State
    decreases |calls|
  {
    if calls == [] then s else Run(cfg, Step(cfg, s, calls[0]), calls[1..])
  }

  const EMPTY := State(map[], [])

  /** Slots are stored under their own channel. */
  ghost predicate Keyed(s: State) {
    forall ch :: ch in s.slots ==> s.slots[ch].channel == ch
  }

  function PostTimes(sent: seq<Sent>, channel: string): seq<int>
    decreases |sent|
  {
    if sent == [] then []
    else
      var last := sent[|sent| - 1];
      PostTimes(sent[..|sent| - 1], channel) + if last.Posted? && last.channel == channel then [last.at] else []
  }

  ghost predicate Spaced(times: seq<int>, gap: int) {
    forall i, j :: 0 <= i < j < |times| ==> times[j] - times[i] >= gap
  }

  function Ends(s: State, channel: string): Option<int> {
    if channel in s.slots then Some(s.slots[channel].expiresAt) else None
  }

  /** The store holds a slot for a channel exactly when one was posted, and it ends one slot after the latest post. */
  predicate HoldsBack(times: seq<int>, ends: Option<int>, gap: int) {
    ends == if times == [] then None else Some(times[|times| - 1] + gap)
  }

  ghost predicate Held(s: State, channel: string, gap: int) {
    var times := PostTimes(s.sent, channel);
    HoldsBack(times, Ends(s, channel), gap) && Spaced(times, gap)
  }

  predicate Goes(cfg: Settings, c: Call) {
    cfg.Enabled() && c.channel != "" && c.input.body != "" && c.env.load
  }

  predicate IsFresh(ends: Option<int>, now: int) {
    ends.None? || ends.value <= now
  }

  /** The call does not make the store forget a message that is still on screen: a fresh post that reaches Slack is
      acknowledged and saved, and a slot whose update reports a failure is not dropped. */
  predicate Remembers(cfg: Settings, s: State, c: Call) {
    Goes(cfg, c) ==>
      if IsFresh(Ends(s, c.channel), c.now) then !c.env.post.Lost? ==> c.env.post.Acked? && !c.env.save.Lost?
      else c.env.update.Acked? || c.env.delete.Lost?
  }

  ghost predicate AllRemember(cfg: Settings, s: State, calls: seq<Call>)
    decreases |calls|
  {
    calls != [] ==> Remembers(cfg, s, calls[0]) && AllRemember(cfg, Step(cfg, s, calls[0]), calls[1..])
  }

  lemma AppendOneSent(sent: seq<Sent>, m: Sent, channel: string)
    ensures PostTimes(sent + [m], channel)
            == PostTimes(sent, channel) + if m.Posted? && m.channel == channel then [m.at] else []
  {
    assert (sent + [m])[..|sent|] == sent;
  }

  lemma TellTimes(s: State, m: Sent, w: Write, channel: string)
    ensures PostTimes(Tell(s, m, w).sent, channel)
            == PostTimes(s.sent, channel) + if !w.Lost? && m.Posted? && m.channel == channel then [m.at] else []
    ensures Tell(s, m, w).slots == s.slots
  {
    if !w.Lost? {
      AppendOneSent(s.sent, m, channel);
    }
  }

  lemma PostView(cfg: Settings, s: State, own: string, e: SlotEntry, now: int, env: Env, channel: string)
    requires Keyed(s)
    ensures var s' := PostNew(cfg, s, own, e, now, env);
            var posts := !env.post.Lost? && channel == own;
            Keyed(s')
            && PostTimes(s'.sent, channel) == PostTimes(s.sent, channel) + (if posts then [now] else [])
            && Ends(s', channel)
               == (if posts && env.post.Acked? && !env.save.Lost? then Some(now + cfg.slotDuration)
                   else Ends(s, channel))
  {
    TellTimes(s, Posted(own, env.ts, now, e), env.post, channel);
    var told := Tell(s, Posted(own, env.ts, now, e), env.post);
    assert PostTimes(told.sent, channel)
           == PostTimes(s.sent, channel) + if !env.post.Lost? && own == channel then [now] else [];
    assert PostNew(cfg, s, own, e, now, env).sent == told.sent;
  }

  lemma UpdateView(s: State, own: string, e: SlotEntry, now: int, env: Env, channel: string)
    requires Keyed(s) && own in s.slots
    ensures var s' := UpdateExisting(s, own, s.slots[own], e, now, env);
            Keyed(s') && PostTimes(s'.sent, channel) == PostTimes(s.sent, channel)
            && Ends(s', channel)
               == (if !env.update.Acked? && !env.delete.Lost? && channel == own then None else Ends(s, channel))
  {
    TellTimes(s, Updated(own, s.slots[own].messageTS, now, e), env.update, channel);
    var told := Tell(s, Updated(own, s.slots[own].messageTS, now, e), env.update);
    assert PostTimes(told.sent, channel) == PostTimes(s.sent, channel);
    assert UpdateExisting(s, own, s.slots[own], e, now, env).sent == told.sent;
  }

  /** What a call does to one channel's post times and to the end of its slot. */
  ghost predicate Views(cfg: Settings, s: State, c: Call, s': State, channel: string) {
    var mine := Goes(cfg, c) && channel == c.channel;
    var opens := IsFresh(Ends(s, c.channel), c.now);
    PostTimes(s'.sent, channel)
      == PostTimes(s.sent, channel) + (if mine && opens && !c.env.post.Lost? then [c.now] else [])
    && Ends(s', channel)
       == (if mine && opens && c.env.post.Acked? && !c.env.save.Lost? then Some(c.now + cfg.slotDuration)
           else if mine && !opens && !c.env.update.Acked? && !c.env.delete.Lost? then None
           else Ends(s, channel))
  }

  lemma StepView(cfg: Settings, s: State, c: Call, channel: string)
    requires Keyed(s)
    ensures Keyed(Step(cfg, s, c)) && Views(cfg, s, c, Step(cfg, s, c), channel)
  {
    if Goes(cfg, c) {
      var slot := Active(s, c.channel, c.now);
      var e := EntryFor(slot, c.input, c.now, c.env);
      if slot.None? {
        PostView(cfg, s, c.channel, e, c.now, c.env, channel);
      } else {
        UpdateView(s, c.channel, e, c.now, c.env, channel);
      }
    }
  }

  lemma SpacedAppend(times: seq<int>, t: int, gap: int)
    requires Spaced(times, gap) && gap > 0 && (times != [] ==> t - times[|times| - 1] >= gap)
    ensures Spaced(times + [t], gap)
  {
  }

  /** Two fresh posts in one channel are always at least a slot apart, even if the clock runs backwards, as long as
      no call makes the store forget a message. */
  lemma {:induction false} FreshPostsAreSpaced(cfg: Settings, s: State, calls: seq<Call>, channel: string)
    requires Keyed(s) && Held(s, channel, cfg.slotDuration) && AllRemember(cfg, s, calls)
    ensures Keyed(Run(cfg, s, calls)) && Held(Run(cfg, s, calls), channel, cfg.slotDuration)
    decreases |calls|
  {
    if calls != [] {
      HeldStep(cfg, s, calls[0], channel);
      FreshPostsAreSpaced(cfg, Step(cfg, s, calls[0]), calls[1..], channel);
    }
  }

  lemma HeldStep(cfg: Settings, s: State, c: Call, channel: string)
    requires Keyed(s) && Held(s, channel, cfg.slotDuration) && Remembers(cfg, s, c)
    ensures Keyed(Step(cfg, s, c)) && Held(Step(cfg, s, c), channel, cfg.slotDuration)
  {
    StepView(cfg, s, c, channel);
    var posts := Opens(cfg, s, c, channel);
    ViewOfRemembered(cfg, s, c, Step(cfg, s, c), channel);
    if posts {
      StillHeld(PostTimes(s.sent, channel), Ends(s, channel), c.now, cfg.slotDuration);
    }
  }

  /** The call posts a fresh message to the channel. */
  predicate Opens(cfg: Settings, s: State, c: Call, channel: string) {
    Goes(cfg, c) && channel == c.channel && IsFresh(Ends(s, channel), c.now) && !c.env.post.Lost?
  }

  lemma ViewOfRemembered(cfg: Settings, s: State, c: Call, s': State, channel: string)
    requires Remembers(cfg, s, c) && Views(cfg, s, c, s', channel)
    ensures var posts := Opens(cfg, s, c, channel);
            PostTimes(s'.sent, channel)
            == (if posts then PostTimes(s.sent, channel) + [c.now] else PostTimes(s.sent, channel))
            && Ends(s', channel) == (if posts then Some(c.now + cfg.slotDuration) else Ends(s, channel))
  {
    assert PostTimes(s.sent, channel) + [] == PostTimes(s.sent, channel);
  }

  /** A post that waits for the slot's end leaves the times spaced and its own slot in charge. */
  lemma StillHeld(times: seq<int>, ends: Option<int>, now: int, gap: int)
    requires gap > 0 && HoldsBack(times, ends, gap) && Spaced(times, gap)
    ensures IsFresh(ends, now) ==> Spaced(times + [now], gap) && HoldsBack(times + [now], Some(now + gap), gap)
  {
    if IsFresh(ends, now) {
      SpacedAppend(times, now, gap);
    }
  }

  /** The condition is exact: after a call that forgets, an event of the same channel at the same instant posts a
      second message too early. */
  lemma ForgettingPostsEarly(cfg: Settings, s: State, c: Call, next: Call)
    requires Keyed(s) && Held(s, c.channel, cfg.slotDuration) && !Remembers(cfg, s, c)
    requires next.channel == c.channel && next.now == c.now && next.input.body != "" && next.env.load
             && !next.env.post.Lost?
    ensures !Spaced(PostTimes(Step(cfg, Step(cfg, s, c), next).sent, c.channel), cfg.slotDuration)
  {
    StepView(cfg, s, c, c.channel);
    StepView(cfg, Step(cfg, s, c), next, c.channel);
    TooEarly(PostTimes(s.sent, c.channel), Ends(s, c.channel),
             PostTimes(Step(cfg, Step(cfg, s, c), next).sent, c.channel), c.now, cfg.slotDuration);
  }

  lemma TooEarly(times: seq<int>, ends: Option<int>, after: seq<int>, now: int, gap: int)
    requires gap > 0 && HoldsBack(times, ends, gap)
    requires after == if IsFresh(ends, now) then times + [now] + [now] else times + [now]
    ensures !Spaced(after, gap)
  {
    assert after[|after| - 1] - after[|after| - 2] < gap;
  }

  // ----- How many posts a window can hold -----

  function CountIn(times: seq<int>, from: int, to: int): nat
    decreases |times|
  {
    if times == [] then 0
    else CountIn(times[..|times| - 1], from, to) + if from <= times[|times| - 1] <= to then 1 else 0
  }

  lemma {:induction false} CountUpTo(times: seq<int>, from: int, to: int, bound: int)
    requires bound <= to && forall i :: 0 <= i < |times| ==> times[i] <= bound
    ensures CountIn(times, from, to) == CountIn(times, from, bound)
    decreases |times|
  {
    if times != [] {
      CountUpTo(times[..|times| - 1], from, to, bound);
    }
  }

  lemma {:induction false} SpacedTimesSpread(times: seq<int>, gap: int, from: int, to: int)
    requires gap > 0 && Spaced(times, gap)
    ensures CountIn(times, from, to) > 0 ==> (CountIn(times, from, to) - 1) * gap <= to - from
    decreases |times|
  {
    if times != [] {
      var rest, t := times[..|times| - 1], times[|times| - 1];
      if from <= t <= to {
        CountUpTo(rest, from, to, t - gap);
        SpacedTimesSpread(rest, gap, from, t - gap);
        var n := CountIn(rest, from, t - gap);
        assert (n - 1) * gap == n * gap - gap;
      } else {
        SpacedTimesSpread(rest, gap, from, to);
      }
    }
  }

  /** A window of length t holds at most t / slotDuration + 1 fresh posts. */
  lemma WindowHoldsFewPosts(cfg: Settings, calls: seq<Call>, channel: string, from: int, length: nat)
    requires cfg.slotDuration > 0 && AllRemember(cfg, EMPTY, calls)
    ensures CountIn(PostTimes(Run(cfg, EMPTY, calls).sent, channel), from,
                    from + length) <= length / cfg.slotDuration + 1
  {
    assert Held(EMPTY, channel, cfg.slotDuration);
    FreshPostsAreSpaced(cfg, EMPTY, calls, channel);
    SpacedTimesFit(PostTimes(Run(cfg, EMPTY, calls).sent, channel), cfg.slotDuration, from, length);
  }

  lemma SpacedTimesFit(times: seq<int>, gap: int, from: int, length: nat)
    requires gap > 0 && Spaced(times, gap)
    ensures CountIn(times, from, from + length) <= length / gap + 1
  {
    SpacedTimesSpread(times, gap, from, from + length);
    var n := CountIn(times, from, from + length);
    if n > 0 {
      QuotientBound(n - 1, gap, length);
    }
  }

  lemma QuotientBound(n: nat, d: int, total: nat)
    requires d > 0 && n * d <= total
    ensures n <= total / d
  {
    var q := total / d;
    if n > q {
      Multiply(q + 1, n, d);
      assert false;
    }
  }

  lemma Multiply(a: nat, b: nat, d: int)
    requires a <= b && d > 0
    ensures a * d <= b * d
  {
  }

  // ----- Updates -----

  /** The channel's slot lives on with its message, its start and its end, or had run out and the call posted its
      successor. */
  predicate KeepsItsEnd(cfg: Settings, s: State, c: Call, s': State, channel: string) {
    channel in s'.slots ==>
      (channel in s.slots
       && s'.slots[channel].expiresAt == s.slots[channel].expiresAt
       && s'.slots[channel].start == s.slots[channel].start
       && s'.slots[channel].messageTS == s.slots[channel].messageTS)
      || (channel == c.channel && Active(s, channel, c.now).None? && |s'.sent| == |s.sent| + 1
          && s'.sent[|s.sent|].Posted? && s'.slots[channel].expiresAt == c.now + cfg.slotDuration)
  }

  /** No call moves the end of a slot. */
  lemma UpdatesNeverExtend(cfg: Settings, s: State, c: Call, channel: string)
    requires Keyed(s)
    ensures KeepsItsEnd(cfg, s, c, Step(cfg, s, c), channel)
  {
  }

  /** Once a slot holds an action's permalink, Slack is not asked for it again: its answer makes no difference. */
  lemma ResolvedPermalinkIsReused(cfg: Settings, s: State, c: Call, answer: Option<string>)
    requires Active(s, c.channel, c.now).Some? && c.input.ts != ""
    requires exists e :: e in Active(s, c.channel, c.now).value.entries && e.ts == c.input.ts && e.permalink != ""
    ensures Step(cfg, s, c) == Step(cfg, s, c.(env := c.env.(permalink := answer)))
  {
    var entries := Active(s, c.channel, c.now).value.entries;
    assert KnownPermalink(entries, c.input.ts) != "";
  }

  /** What went out for a channel since its latest fresh post. */
  function EventsOf(sent: seq<Sent>, channel: string): seq<SlotEntry>
    decreases |sent|
  {
    if sent == [] then []
    else
      var last, before := sent[|sent| - 1], sent[..|sent| - 1];
      if last.channel != channel then EventsOf(before, channel)
      else if last.Posted? then [last.entry]
      else EventsOf(before, channel) + [last.entry]
  }

  ghost predicate Recorded(s: State) {
    forall ch :: ch in s.slots ==> s.slots[ch].entries == Last(EventsOf(s.sent, ch), MAX_ENTRIES)
  }

  /** What reached Slack is saved, or its slot dropped. */
  predicate KeepsUp(env: Env) {
    !env.save.Lost? && !env.post.AppliedUnacked? && (env.update.AppliedUnacked? ==> !env.delete.Lost?)
  }

  predicate AllKeepUp(calls: seq<Call>) {
    forall c :: c in calls ==> KeepsUp(c.env)
  }

  lemma AppendOneEvent(sent: seq<Sent>, m: Sent, channel: string)
    ensures EventsOf(sent + [m], channel)
            == if m.channel != channel then EventsOf(sent, channel)
               else if m.Posted? then [m.entry] else EventsOf(sent, channel) + [m.entry]
  {
    assert (sent + [m])[..|sent|] == sent;
  }

  lemma LastOfLast<T>(s: seq<T>, x: T, n: nat)
    requires n > 0
    ensures Last(Last(s, n) + [x], n) == Last(s + [x], n)
  {
  }

  /** One message more: its slot holds the latest of its events, or is gone; the other slots are as before. */
  lemma RecordedWith(s: State, t: State, m: Sent)
    requires Recorded(s) && t.sent == s.sent + [m]
    requires forall ch :: ch in t.slots && ch != m.channel ==> ch in s.slots && t.slots[ch] == s.slots[ch]
    requires m.channel in t.slots ==>
               t.slots[m.channel].entries
               == if m.Posted? || m.channel !in s.slots then [m.entry]
                  else Last(s.slots[m.channel].entries + [m.entry], MAX_ENTRIES)
    requires m.channel in t.slots && !m.Posted? ==> m.channel in s.slots
    ensures Recorded(t)
  {
    forall ch | ch in t.slots
      ensures t.slots[ch].entries == Last(EventsOf(t.sent, ch), MAX_ENTRIES)
    {
      AppendOneEvent(s.sent, m, ch);
      LastOfLast(EventsOf(s.sent, ch), m.entry, MAX_ENTRIES);
    }
  }

  lemma RecordedPost(cfg: Settings, s: State, channel: string, e: SlotEntry, now: int, env: Env)
    requires Recorded(s) && KeepsUp(env)
    ensures Recorded(PostNew(cfg, s, channel, e, now, env))
  {
    if env.post.Acked? {
      RecordedWith(s, PostNew(cfg, s, channel, e, now, env), Posted(channel, env.ts, now, e));
    }
  }

  lemma RecordedUpdate(s: State, channel: string, e: SlotEntry, now: int, env: Env)
    requires Keyed(s) && Recorded(s) && KeepsUp(env) && channel in s.slots
    ensures Recorded(UpdateExisting(s, channel, s.slots[channel], e, now, env))
  {
    if !env.update.Lost? {
      RecordedWith(s, UpdateExisting(s, channel, s.slots[channel], e, now, env),
                   Updated(channel, s.slots[channel].messageTS, now, e));
    }
  }

  lemma RecordedStep(cfg: Settings, s: State, c: Call)
    requires Keyed(s) && Recorded(s) && KeepsUp(c.env)
    ensures Keyed(Step(cfg, s, c)) && Recorded(Step(cfg, s, c))
  {
    StepView(cfg, s, c, c.channel);
    if Goes(cfg, c) {
      var slot := Active(s, c.channel, c.now);
      var e := EntryFor(slot, c.input, c.now, c.env);
      if slot.None? {
        RecordedPost(cfg, s, c.channel, e, c.now, c.env);
      } else {
        RecordedUpdate(s, c.channel, e, c.now, c.env);
      }
    }
  }

  /** The stored entries are always the last 200 of the events sent for the slot, in order. */
  lemma {:induction false} EntriesAreTheLatest(cfg: Settings, s: State, calls: seq<Call>)
    requires Keyed(s) && Recorded(s) && AllKeepUp(calls)
    ensures Recorded(Run(cfg, s, calls)) && Keyed(Run(cfg, s, calls))
    decreases |calls|
  {
    if calls != [] {
      assert calls[0] in calls;
      RecordedStep(cfg, s, calls[0]);
      EntriesAreTheLatest(cfg, Step(cfg, s, calls[0]), calls[1..]);
    }
  }

  // ----- What a call sends -----

  /** The first resolved permalink of the action among the entries. */
  predicate IsFirstKnown(entries: seq<SlotEntry>, ts: string, permalink: string) {
    exists k :: 0 <= k < |entries| && entries[k].ts == ts && entries[k].permalink == permalink != ""
                && forall j :: 0 <= j < k && entries[j].ts == ts ==> entries[j].permalink == ""
  }

  predicate NoneKnown(entries: seq<SlotEntry>, ts: string) {
    forall k :: 0 <= k < |entries| && entries[k].ts == ts ==> entries[k].permalink == ""
  }

  /** The entry is the event handed in, with the permalink the slot already knows or Slack's answer. */
  predicate TellsTheEvent(e: SlotEntry, entries: seq<SlotEntry>, in_: Input, now: int, env: Env) {
    && e.ts == in_.ts && e.title == Text.Trim(in_.title) && e.body == in_.body && e.at == now
    && (in_.ts == "" ==> e.permalink == "")
    && (in_.ts != "" ==>
          IsFirstKnown(entries, in_.ts, e.permalink)
          || (NoneKnown(entries, in_.ts) && e.permalink == if env.permalink.Some? then env.permalink.value else ""))
  }

  /** A slot of the channel whose time has not run out. */
  predicate IsLive(s: State, channel: string, now: int) {
    channel in s.slots && now < s.slots[channel].expiresAt
  }

  /** A call sends exactly one message, for an event with a body in a channel, when the slots can be read and Slack
      takes it: an update of the live slot's message, or a new message when there is none. It tells the event handed
      in, and a new slot holds the new message from now on. */
  ghost predicate SendsTheEvent(cfg: Settings, s: State, c: Call, t: State) {
    var live := IsLive(s, c.channel, c.now);
    var entries := if live then s.slots[c.channel].entries else [];
    if cfg.slotDuration > 0 && cfg.wired && c.channel != "" && c.input.body != "" && c.env.load
       && (if live then !c.env.update.Lost? else !c.env.post.Lost?) then
      && |t.sent| == |s.sent| + 1 && s.sent == t.sent[..|s.sent|]
      && var m := t.sent[|s.sent|];
         && m.channel == c.channel && m.at == c.now && TellsTheEvent(m.entry, entries, c.input, c.now, c.env)
         && (if live then m.Updated? && m.ts == s.slots[c.channel].messageTS else m.Posted? && m.ts == c.env.ts)
         && (!live && c.env.post.Acked? && !c.env.save.Lost? ==>
               t.slots == s.slots[c.channel := Slot(c.channel, c.env.ts, [m.entry], c.now, c.now + cfg.slotDuration,
                                                    c.now)])
         && (live && c.env.update.Acked? && !c.env.save.Lost? ==>
               var all := entries + [m.entry];
               t.slots == s.slots[c.channel := s.slots[c.channel].(
                 entries := if |all| <= MAX_ENTRIES then all else all[|all| - MAX_ENTRIES..], updatedAt := c.now)])
    else
      t.sent == s.sent
  }

  lemma KnownIsFirst(entries: seq<SlotEntry>, ts: string)
    ensures KnownPermalink(entries, ts) == "" ==> NoneKnown(entries, ts)
    ensures KnownPermalink(entries, ts) != "" ==> IsFirstKnown(entries, ts, KnownPermalink(entries, ts))
  {
    if entries != [] {
      var first := entries[0];
      if first.ts == ts && first.permalink != "" {
        assert IsFirstKnown(entries, ts, first.permalink);
      } else {
        KnownIsFirst(entries[1..], ts);
        if KnownPermalink(entries, ts) != "" {
          var k :| 0 <= k < |entries[1..]| && entries[1..][k].ts == ts
                   && entries[1..][k].permalink == KnownPermalink(entries, ts)
                   && forall j :: 0 <= j < k && entries[1..][j].ts == ts ==> entries[1..][j].permalink == "";
          assert entries[k + 1] == entries[1..][k];
          assert forall j :: 0 < j < k + 1 ==> entries[j] == entries[1..][j - 1];
        }
      }
    }
  }

  lemma EntryTellsTheEvent(slot: Option<Slot>, in_: Input, now: int, env: Env)
    ensures TellsTheEvent(EntryFor(slot, in_, now, env), if slot.Some? then slot.value.entries else [], in_, now, env)
  {
    if slot.Some? {
      KnownIsFirst(slot.value.entries, in_.ts);
    }
  }

  lemma NewPostSends(cfg: Settings, s: State, c: Call, e: SlotEntry)
    requires Goes(cfg, c) && !IsLive(s, c.channel, c.now) && TellsTheEvent(e, [], c.input, c.now, c.env)
    ensures SendsTheEvent(cfg, s, c, PostNew(cfg, s, c.channel, e, c.now, c.env))
  {
  }

  lemma UpdateSends(cfg: Settings, s: State, c: Call, e: SlotEntry)
    requires Keyed(s) && Goes(cfg, c) && IsLive(s, c.channel, c.now)
    requires TellsTheEvent(e, s.slots[c.channel].entries, c.input, c.now, c.env)
    ensures SendsTheEvent(cfg, s, c, UpdateExisting(s, c.channel, s.slots[c.channel], e, c.now, c.env))
  {
  }

  lemma CallSendsTheEvent(cfg: Settings, s: State, c: Call)
    requires Keyed(s)
    ensures SendsTheEvent(cfg, s, c, Step(cfg, s, c))
  {
    if Goes(cfg, c) {
      var slot := Active(s, c.channel, c.now);
      var e := EntryFor(slot, c.input, c.now, c.env);
      EntryTellsTheEvent(slot, c.input, c.now, c.env);
      if slot.None? {
        NewPostSends(cfg, s, c, e);
      } else {
        UpdateSends(cfg, s, c, e);
      }
    }
  }

  // ----- The coordinator -----

  /** What a call keeps, put together for the coordinator. */
  lemma CallKeepsValid(cfg: Settings, s: State, c: Call, remembers: bool, saves: bool)
    requires Keyed(s)
    requires remembers ==> forall channel :: Held(s, channel, cfg.slotDuration)
    requires saves ==> Recorded(s)
    ensures var s' := Step(cfg, s, c);
            Keyed(s')
            && (remembers && Remembers(cfg, s, c) ==> forall channel :: Held(s', channel, cfg.slotDuration))
            && (saves && KeepsUp(c.env) ==> Recorded(s'))
            && SendsTheEvent(cfg, s, c, s') && forall channel :: KeepsItsEnd(cfg, s, c, s', channel)
  {
    CallSendsTheEvent(cfg, s, c);
    StepView(cfg, s, c, c.channel);
    if remembers && Remembers(cfg, s, c) {
      forall channel
        ensures Held(Step(cfg, s, c), channel, cfg.slotDuration)
      {
        HeldStep(cfg, s, c, channel);
      }
    }
    if saves && KeepsUp(c.env) {
      RecordedStep(cfg, s, c);
    }
    forall channel
      ensures KeepsItsEnd(cfg, s, c, Step(cfg, s, c), channel)
    {
      UpdatesNeverExtend(cfg, s, c, channel);
    }
  }

  class Coordinator {
    const cfg: Settings
    var slots: map<string, Slot>
    var sent: seq<Sent>
    /** No call so far made the store forget a message, or left what it sent unsaved. */
    ghost var remembers: bool
    ghost var saves: bool

    constructor (cfg: Settings)
      ensures this.cfg == cfg && Contents() == EMPTY && Valid() && remembers && saves
    {
      this.cfg := cfg;
      slots, sent := map[], [];
      remembers, saves := true, true;
    }

    /** Fresh posts of a channel are a slot apart and the stored slot holds back the next one; the stored entries are
        the latest of the slot's events. */
    ghost predicate Valid()
      reads this
    {
      Keyed(Contents())
      && (remembers ==> forall channel :: Held(Contents(), channel, cfg.slotDuration))
      && (saves ==> Recorded(Contents()))
    }

    ghost function Contents(): State
      reads this
    {
      State(slots, sent)
    }

    method EnqueueChannelLine(channel: string, in_: Input, now: int, env: Env)
      requires Valid()
      modifies this
      ensures Valid()
      ensures remembers == (old(remembers) && Remembers(cfg, old(Contents()), Call(channel, in_, now, env)))
      ensures saves == (old(saves) && KeepsUp(env))
      ensures SendsTheEvent(cfg, old(Contents()), Call(channel, in_, now, env), Contents())
      ensures forall ch :: KeepsItsEnd(cfg, old(Contents()), Call(channel, in_, now, env), Contents(), ch)
      ensures Contents() == Enqueue(cfg, old(Contents()), channel, in_, now, env)
    {
      ghost var before, call := Contents(), Call(channel, in_, now, env);
      CallKeepsValid(cfg, before, call, remembers, saves);
      remembers, saves := remembers && Remembers(cfg, before, call), saves && KeepsUp(env);
      Send(channel, in_, now, env);
    }

    method Send(channel: string, in_: Input, now: int, env: Env)
      modifies this`slots, this`sent
      ensures Contents() == Enqueue(cfg, old(Contents()), channel, in_, now, env)
    {
      if !cfg.Enabled() {
        return;
      }
      if channel == "" || in_.body == "" {
        return;
      }
      if !env.load {
        return;
      }
      var slot := if channel in slots && slots[channel].expiresAt > now then Some(slots[channel]) else None;
      var permalink := LookupExistingPermalink(slot, in_.ts);
      if permalink == "" && in_.ts != "" && env.permalink.Some? {
        permalink := env.permalink.value;
      }
      var e := SlotEntry(in_.ts, Text.Trim(in_.title), permalink, in_.body, now);
      if slot.None? {
        PostNewSlot(channel, e, now, env);
        return;
      }
      UpdateExistingSlot(channel, slot.value, e, now, env);
    }

    method LookupExistingPermalink(slot: Option<Slot>, ts: string) returns (r: string)
      ensures r == if slot.None? || ts == "" then "" else KnownPermalink(slot.value.entries, ts)
    {
      if slot.None? || ts == "" {
        return "";
      }
      var entries := slot.value.entries;
      for i := 0 to |entries|
        invariant KnownPermalink(entries, ts) == KnownPermalink(entries[i..], ts)
      {
        if entries[i].ts == ts && entries[i].permalink != "" {
          return entries[i].permalink;
        }
        assert entries[i..][1..] == entries[i + 1..];
      }
      return "";
    }

    method PostNewSlot(channel: string, e: SlotEntry, now: int, env: Env)
      modifies this`slots, this`sent
      ensures Contents() == PostNew(cfg, old(Contents()), channel, e, now, env)
    {
      TellSlack(Posted(channel, env.ts, now, e), env.post);
      if !env.post.Acked? {
        return;
      }
      SaveSlot(Slot(channel, env.ts, [e], now, now + cfg.slotDuration, now), env.save);
    }

    method TellSlack(m: Sent, w: Write)
      modifies this`sent
      ensures Contents() == Tell(old(Contents()), m, w)
    {
      if !w.Lost? {
        sent := sent + [m];
      }
    }

    method UpdateExistingSlot(channel: string, slot0: Slot, e: SlotEntry, now: int, env: Env)
      modifies this`slots, this`sent
      ensures Contents() == UpdateExisting(old(Contents()), channel, slot0, e, now, env)
    {
      var slot := slot0;
      slot := slot.(entries := slot.entries + [e]);
      if |slot.entries| > MAX_ENTRIES {
        slot := slot.(entries := slot.entries[|slot.entries| - MAX_ENTRIES..]);
      }
      TellSlack(Updated(channel, slot.messageTS, now, e), env.update);
      if !env.update.Acked? {
        if !env.delete.Lost? {
          slots := slots - {slot.channel};
        }
        return;
      }
      slot := slot.(updatedAt := now);
      SaveSlot(slot, env.save);
    }

    method SaveSlot(slot: Slot, w: Write)
      modifies this`slots
      ensures Contents() == Save(old(Contents()), slot, w)
    {
      if !w.Lost? {
        slots := slots[slot.channel := slot];
      }
    }
  }
}
