/** Rendering a notification slot (pkg/usecase/notification_slot.go): one block per action, within Slack's limits.
    Characters stand for bytes. */
module SlotRendering {
  import opened Cases
  import opened NotificationSlots

  const MAX_BLOCKS := 50
  const MAX_BLOCK_TEXT := 2900

  // ----- Grouping -----

  function Key(e: SlotEntry): string {
    if e.ts == "" then "_anonymous_" else e.ts
  }

  /** Two events share a bucket exactly when they are of the same message, or of none. */
  lemma BucketsAreByMessage(a: SlotEntry, b: SlotEntry)
    requires a.ts != "_anonymous_" && b.ts != "_anonymous_"
    ensures Key(a) == Key(b) <==> a.ts == b.ts
  {
  }

  datatype Group = Group(title: string, permalink: string, lines: seq<string>)

  /** The bodies under one key, oldest first. */
  function Lines(entries: seq<SlotEntry>, key: string): seq<string>
    decreases |entries|
  {
    if entries == [] then []
    else
      var last := entries[|entries| - 1];
      Lines(entries[..|entries| - 1], key) + if Key(last) == key then [last.body] else []
  }

  /** The latest title that is not empty. */
  function Title(entries: seq<SlotEntry>, key: string): string
    decreases |entries|
  {
    if entries == [] then ""
    else
      var last := entries[|entries| - 1];
      if Key(last) == key && last.title != "" then last.title else Title(entries[..|entries| - 1], key)
  }

  function Permalink(entries: seq<SlotEntry>, key: string): string
    decreases |entries|
  {
    if entries == [] then ""
    else
      var last := entries[|entries| - 1];
      if Key(last) == key && last.permalink != "" then last.permalink else Permalink(entries[..|entries| - 1], key)
  }

  /** Where a key first appears; the length of the list when it does not. */
  function FirstAt(entries: seq<SlotEntry>, key: string): (i: nat)
    ensures i <= |entries|
    ensures i < |entries| ==> Key(entries[i]) == key
    ensures forall k :: 0 <= k < i ==> Key(entries[k]) != key
    decreases |entries|
  {
    if entries == [] then 0
    else
      var i := FirstAt(entries[..|entries| - 1], key);
      if i < |entries| - 1 || Key(entries[|entries| - 1]) == key then i else |entries|
  }

  predicate Appears(entries: seq<SlotEntry>, key: string) {
    FirstAt(entries, key) < |entries|
  }

  /** The keys, each where it is new. */
  function Order(entries: seq<SlotEntry>): seq<string>
    decreases |entries|
  {
    if entries == [] then []
    else
      var before, key := Order(entries[..|entries| - 1]), Key(entries[|entries| - 1]);
      if key in before then before else before + [key]
  }

  function GroupOf(entries: seq<SlotEntry>, key: string): Group {
    Group(Title(entries, key), Permalink(entries, key), Lines(entries, key))
  }

  /** Groups follow the first appearance of their keys. */
  lemma {:induction false} OrderFollowsFirstAppearance(entries: seq<SlotEntry>)
    ensures forall key :: key in Order(entries) <==> Appears(entries, key)
    ensures forall i, j :: 0 <= i < j < |Order(entries)| ==>
              FirstAt(entries, Order(entries)[i]) < FirstAt(entries, Order(entries)[j])
    decreases |entries|
  {
    if entries != [] {
      var before, e := entries[..|entries| - 1], entries[|entries| - 1];
      assert entries == before + [e];
      OrderFollowsFirstAppearance(before);
      forall key: string
        ensures key in Order(entries) <==> Appears(entries, key)
      {
        AppendOneEntry(before, e, key);
      }
      forall i, j | 0 <= i < j < |Order(entries)|
        ensures FirstAt(entries, Order(entries)[i]) < FirstAt(entries, Order(entries)[j])
      {
        AppendOneEntry(before, e, Order(entries)[i]);
        AppendOneEntry(before, e, Order(entries)[j]);
        assert Order(entries)[i] == Order(before)[i] && Order(before)[i] in Order(before);
        assert j < |Order(before)| ==> Order(before)[j] in Order(before);
      }
    }
  }

  lemma {:induction false} AbsentKeyIsEmpty(entries: seq<SlotEntry>, key: string)
    requires !Appears(entries, key)
    ensures Lines(entries, key) == [] && Title(entries, key) == "" && Permalink(entries, key) == ""
    decreases |entries|
  {
    if entries != [] {
      AbsentKeyIsEmpty(entries[..|entries| - 1], key);
    }
  }

  lemma AppendOneEntry(entries: seq<SlotEntry>, e: SlotEntry, key: string)
    ensures var more := entries + [e];
            Lines(more, key) == Lines(entries, key) + (if Key(e) == key then [e.body] else [])
            && Title(more, key) == (if Key(e) == key && e.title != "" then e.title else Title(entries, key))
            && Permalink(more, key)
               == (if Key(e) == key && e.permalink != "" then e.permalink else Permalink(entries, key))
            && (Appears(entries, key) ==> FirstAt(more, key) == FirstAt(entries, key))
            && (!Appears(entries, key) && Key(e) == key ==> FirstAt(more, key) == |entries|)
            && (Appears(more, key) <==> Appears(entries, key) || Key(e) == key)
  {
    assert (entries + [e])[..|entries|] == entries;
  }

  function GroupMap(entries: seq<SlotEntry>): map<string, Group> {
    map key | key in Order(entries) :: GroupOf(entries, key)
  }

  /** groupSlotEntries: one bucket a key, holding its lines in order and its latest title and permalink. */
  method GroupSlotEntries(entries: seq<SlotEntry>) returns (order: seq<string>, groups: map<string, Group>)
    ensures order == Order(entries) && groups == GroupMap(entries)
  {
    order, groups := [], map[];
    for i := 0 to |entries|
      invariant order == Order(entries[..i])
      invariant forall key :: key in groups <==> key in order
      invariant forall key :: key in groups ==> groups[key] == GroupOf(entries[..i], key)
    {
      var e := entries[i];
      var key := Key(e);
      var bucket := if key in groups then groups[key] else Group("", "", []);
      GroupsAfter(entries[..i], e);
      assert entries[..i + 1] == entries[..i] + [e];
      if key !in groups {
        order := order + [key];
      }
      bucket := AddEntry(bucket, e);
      groups := groups[key := bucket];
    }
    assert entries[..|entries|] == entries;
  }

  function WithEntry(g: Group, e: SlotEntry): Group {
    Group(if e.title != "" then e.title else g.title, if e.permalink != "" then e.permalink else g.permalink,
          g.lines + [e.body])
  }

  method AddEntry(bucket0: Group, e: SlotEntry) returns (bucket: Group)
    ensures bucket == WithEntry(bucket0, e)
  {
    bucket := bucket0;
    if e.title != "" {
      bucket := bucket.(title := e.title);
    }
    if e.permalink != "" {
      bucket := bucket.(permalink := e.permalink);
    }
    bucket := bucket.(lines := bucket.lines + [e.body]);
  }

  /** The bucket an entry goes to, before and after, and the buckets it leaves alone. */
  lemma GroupsAfter(before: seq<SlotEntry>, e: SlotEntry)
    ensures Order(before + [e]) == if Key(e) in Order(before) then Order(before) else Order(before) + [Key(e)]
    ensures Key(e) !in Order(before) ==> GroupOf(before, Key(e)) == Group("", "", [])
    ensures forall key :: key != Key(e) ==> GroupOf(before + [e], key) == GroupOf(before, key)
    ensures GroupOf(before + [e], Key(e)) == WithEntry(GroupOf(before, Key(e)), e)
  {
    assert (before + [e])[..|before|] == before;
    OrderFollowsFirstAppearance(before);
    if Key(e) !in Order(before) {
      AbsentKeyIsEmpty(before, Key(e));
    }
    AppendOneEntry(before, e, Key(e));
    forall key | key != Key(e)
      ensures GroupOf(before + [e], key) == GroupOf(before, key)
    {
      AppendOneEntry(before, e, key);
    }
  }

  // ----- Conservation -----

  function Total(entries: seq<SlotEntry>, order: seq<string>): nat
    decreases |order|
  {
    if order == [] then 0 else |Lines(entries, order[0])| + Total(entries, order[1..])
  }

  predicate Distinct(order: seq<string>) {
    forall i, j :: 0 <= i < j < |order| ==> order[i] != order[j]
  }

  lemma {:induction false} TotalGrowsByOne(entries: seq<SlotEntry>, e: SlotEntry, order: seq<string>)
    requires Distinct(order)
    ensures Total(entries + [e], order) == Total(entries, order) + if Key(e) in order then 1 else 0
    decreases |order|
  {
    if order != [] {
      AppendOneEntry(entries, e, order[0]);
      TotalGrowsByOne(entries, e, order[1..]);
    }
  }

  lemma {:induction false} TotalIsAll(entries: seq<SlotEntry>, order: seq<string>)
    requires Distinct(order) && forall e :: e in entries ==> Key(e) in order
    ensures Total(entries, order) == |entries|
    decreases |entries|
  {
    if entries == [] {
      NothingTotals(order);
    } else {
      var rest, e := entries[..|entries| - 1], entries[|entries| - 1];
      assert entries == rest + [e];
      TotalIsAll(rest, order);
      TotalGrowsByOne(rest, e, order);
    }
  }

  lemma {:induction false} NothingTotals(order: seq<string>)
    ensures Total([], order) == 0
    decreases |order|
  {
    if order != [] {
      NothingTotals(order[1..]);
    }
  }

  /** Grouping is a partition: no body is lost and none is shown twice. */
  lemma GroupingLosesNothing(entries: seq<SlotEntry>)
    ensures Total(entries, Order(entries)) == |entries|
  {
    OrderFollowsFirstAppearance(entries);
    forall e | e in entries
      ensures Key(e) in Order(entries)
    {
      var i :| 0 <= i < |entries| && entries[i] == e;
      assert Appears(entries, Key(e));
    }
    TotalIsAll(entries, Order(entries));
  }

  // ----- Text -----

  /** The bytes of U+FF5C, which stands in for the separator of a link's label. */
  const FULL_WIDTH_PIPE := "\U{EF}\U{BD}\U{9C}"

  /** slackTextEscaper */
  function EscapeChar(c: char): string {
    if c == '&' then "&amp;" else if c == '<' then "&lt;" else if c == '>' then "&gt;"
    else if c == '|' then FULL_WIDTH_PIPE else [c]
  }

  function Escape(s: string): string {
    if s == "" then "" else EscapeChar(s[0]) + Escape(s[1..])
  }

  function Join(lines: seq<string>): string {
    if lines == [] then "" else if |lines| == 1 then lines[0] else lines[0] + "\n" + Join(lines[1..])
  }

  function Rendered(g: Group): string {
    var body := Join(g.lines);
    if g.title == "" then body
    else if g.permalink != "" then "*<" + g.permalink + "|" + Escape(g.title) + ">*" + "\n" + body
    else "*" + Escape(g.title) + "*" + "\n" + body
  }

  predicate Plain(s: string) {
    '<' !in s && '>' !in s && '|' !in s
  }

  lemma EscapedCharIsPlain(c: char)
    ensures Plain(EscapeChar(c))
  {
  }

  lemma PlainJoins(a: string, b: string)
    requires Plain(a) && Plain(b)
    ensures Plain(a + b)
  {
  }

  /** Whatever the title, an escaped one opens, splits and closes no link: its markup characters are gone. */
  lemma {:induction false} EscapedTitleHasNoMarkup(s: string)
    ensures '<' !in Escape(s) && '>' !in Escape(s) && '|' !in Escape(s)
    decreases |s|
  {
    if s != "" {
      EscapedTitleHasNoMarkup(s[1..]);
      EscapedCharIsPlain(s[0]);
      PlainJoins(EscapeChar(s[0]), Escape(s[1..]));
    }
  }

  /** Lines stay in order, with a break between each two and nowhere else. */
  lemma {:induction false} JoinKeepsOrder(a: seq<string>, b: seq<string>)
    ensures Join([]) == "" && forall line: string :: Join([line]) == line
    ensures a != [] && b != [] ==> Join(a + b) == Join(a) + "\n" + Join(b)
    decreases |a|
  {
    if a != [] && b != [] {
      if |a| == 1 {
        assert (a + b)[1..] == b;
      } else {
        JoinKeepsOrder(a[1..], b);
        assert (a + b)[1..] == a[1..] + b;
        assert Join(a + b) == a[0] + "\n" + (Join(a[1..]) + "\n" + Join(b));
        assert Join(a) == a[0] + "\n" + Join(a[1..]);
      }
    }
  }

  /** The title line of a group's text: its escaped title in bold, linked to its message when that is known. */
  lemma TitleLineIs(g: Group)
    ensures g.title == "" ==> Rendered(g) == Join(g.lines)
    ensures g.title != "" && g.permalink == "" ==> Rendered(g) == "*" + Escape(g.title) + "*" + ("\n" + Join(g.lines))
    ensures g.title != "" && g.permalink != "" ==>
              Rendered(g) == "*<" + g.permalink + "|" + Escape(g.title) + ">*" + ("\n" + Join(g.lines))
  {
  }

  /** The reading of an escaped title. */
  function Unescape(s: string): string
    decreases |s|
  {
    if s == "" then ""
    else if "&amp;" <= s then "&" + Unescape(s[5..])
    else if "&lt;" <= s then "<" + Unescape(s[4..])
    else if "&gt;" <= s then ">" + Unescape(s[4..])
    else if FULL_WIDTH_PIPE <= s then "|" + Unescape(s[3..])
    else [s[0]] + Unescape(s[1..])
  }

  /** A full-width pipe of the title's own. */
  predicate HasPipe(s: string) {
    s != "" && (FULL_WIDTH_PIPE <= s || HasPipe(s[1..]))
  }

  predicate NeedsEscape(c: char) {
    c == '&' || c == '<' || c == '>' || c == '|'
  }

  lemma EscapeStarts(s: string)
    requires s != ""
    ensures Escape(s) == EscapeChar(s[0]) + Escape(s[1..])
    ensures !NeedsEscape(s[0]) ==> Escape(s)[0] == s[0] && Escape(s)[1..] == Escape(s[1..])
    ensures NeedsEscape(s[0]) ==> Escape(s)[0] == '&' || Escape(s)[0] == FULL_WIDTH_PIPE[0]
  {
    if !NeedsEscape(s[0]) {
      assert ([s[0]] + Escape(s[1..]))[1..] == Escape(s[1..]);
    }
  }

  /** A character that needs no escaping starts a full-width pipe after escaping only where it did before. */
  lemma PlainHeadStays(s: string)
    requires s != "" && !NeedsEscape(s[0])
    ensures FULL_WIDTH_PIPE <= Escape(s) ==> FULL_WIDTH_PIPE <= s
  {
    EscapeStarts(s);
    if FULL_WIDTH_PIPE <= Escape(s) {
      var e := Escape(s);
      assert e[0] == s[0] && e[1..] == Escape(s[1..]) && e[1] == FULL_WIDTH_PIPE[1] && e[2] == FULL_WIDTH_PIPE[2];
      assert Escape(s[1..]) != "";
      var s1 := s[1..];
      EscapeStarts(s1);
      assert e[1] == Escape(s1)[0] && !NeedsEscape(s1[0]);
      assert Escape(s1)[1..] == Escape(s1[1..]) && Escape(s1)[1] == e[2];
      var s2 := s1[1..];
      EscapeStarts(s2);
      assert e[2] == Escape(s2)[0] && !NeedsEscape(s2[0]);
      assert s[1] == s1[0] && s[2] == s2[0];
    }
  }

  lemma EntitiesRead(rest: string)
    ensures Unescape("&amp;" + rest) == "&" + Unescape(rest)
    ensures Unescape("&lt;" + rest) == "<" + Unescape(rest)
    ensures Unescape("&gt;" + rest) == ">" + Unescape(rest)
  {
    assert ("&amp;" + rest)[5..] == rest;
    assert ("&lt;" + rest)[4..] == rest && ("&lt;" + rest)[1] == 'l';
    assert ("&gt;" + rest)[4..] == rest && ("&gt;" + rest)[1] == 'g';
  }

  lemma PipeReads(rest: string)
    ensures Unescape(FULL_WIDTH_PIPE + rest) == "|" + Unescape(rest)
  {
    var s := FULL_WIDTH_PIPE + rest;
    assert s[0] != '&' && s[3..] == rest;
  }

  lemma UnescapeOne(s: string)
    requires s != "" && !HasPipe(s)
    ensures Unescape(Escape(s)) == [s[0]] + Unescape(Escape(s[1..]))
  {
    EscapeStarts(s);
    if NeedsEscape(s[0]) {
      EntitiesRead(Escape(s[1..]));
      PipeReads(Escape(s[1..]));
    } else {
      PlainHeadStays(s);
      PlainReads(Escape(s));
    }
  }

  lemma PlainReads(e: string)
    requires e != "" && e[0] != '&' && !(FULL_WIDTH_PIPE <= e)
    ensures Unescape(e) == [e[0]] + Unescape(e[1..])
  {
  }

  /** Escaping loses nothing: a title reads back, unless it holds a full-width pipe of its own, which would read back as
      a plain one. */
  lemma {:induction false} TitleReadsBack(s: string)
    requires !HasPipe(s)
    ensures Unescape(Escape(s)) == s
    decreases |s|
  {
    if s != "" {
      UnescapeOne(s);
      TitleReadsBack(s[1..]);
    }
  }

  /** The lines of a group end its text, newest last, under a title line when there is a title. */
  lemma LinesEndTheText(g: Group)
    ensures |Join(g.lines)| <= |Rendered(g)| && Rendered(g)[|Rendered(g)| - |Join(g.lines)|..] == Join(g.lines)
    ensures g.title != "" ==>
              |Rendered(g)| > |Join(g.lines)| && Rendered(g)[|Rendered(g)| - |Join(g.lines)| - 1] == '\n'
  {
    var body := Join(g.lines);
    if g.title != "" {
      var head := if g.permalink != "" then "*<" + g.permalink + "|" + Escape(g.title) + ">*"
        else "*" + Escape(g.title) + "*";
      assert Rendered(g) == head + "\n" + body;
    }
  }

  function FirstNewline(text: string, from: nat): (i: nat)
    requires from <= |text|
    ensures from <= i <= |text| && (i < |text| ==> text[i] == '\n')
    ensures forall p :: from <= p < i ==> text[p] != '\n'
    decreases |text| - from
  {
    if from == |text| || text[from] == '\n' then from else FirstNewline(text, from + 1)
  }

  /** Where the text a block shows begins. */
  function CutAt(text: string): (cut: nat)
    ensures cut <= |text|
  {
    if |text| <= MAX_BLOCK_TEXT then 0
    else
      var over := |text| - MAX_BLOCK_TEXT;
      if FirstNewline(text, over) < |text| - 1 then FirstNewline(text, over) + 1 else over
  }

  /** clampSlotGroupText */
  method ClampSlotGroupText(text: string) returns (r: string)
    ensures r == text[CutAt(text)..]
  {
    if |text| <= MAX_BLOCK_TEXT {
      return text;
    }
    var cut := |text| - MAX_BLOCK_TEXT;
    var newline := FirstNewline(text, cut);
    if newline < |text| {
      cut := newline + 1;
    }
    if cut >= |text| {
      return text[|text| - MAX_BLOCK_TEXT..];
    }
    return text[cut..];
  }

  /** A newline of the last 2900 bytes that is not the last byte. */
  predicate BreaksAt(text: string, p: int) {
    |text| - MAX_BLOCK_TEXT <= p < |text| - 1 && p >= 0 && text[p] == '\n'
  }

  /** A block shows the end of its text: at most 2900 bytes, and something whenever there is something. What it
      shows of a long text starts a line exactly when the last 2900 bytes break before their end or themselves
      start a line, and nothing after the first of those breaks is dropped. */
  lemma BlockIsBoundedWholeLines(text: string)
    ensures |text| - CutAt(text) <= MAX_BLOCK_TEXT
    ensures text != "" ==> CutAt(text) < |text|
    ensures CutAt(text) == 0 <==> |text| <= MAX_BLOCK_TEXT
    ensures CutAt(text) > 0 ==>
              (text[CutAt(text) - 1] == '\n' <==>
                 (exists p :: BreaksAt(text, p)) || text[|text| - MAX_BLOCK_TEXT - 1] == '\n')
    ensures forall p :: CutAt(text) > 0 && BreaksAt(text, p) ==> CutAt(text) <= p + 1
  {
    if |text| > MAX_BLOCK_TEXT {
      var newline := FirstNewline(text, |text| - MAX_BLOCK_TEXT);
      if newline < |text| - 1 {
        assert BreaksAt(text, newline);
      }
    }
  }

  // ----- Blocks -----

  /** The groups a message shows. */
  function Kept(entries: seq<SlotEntry>): seq<string> {
    Last(Order(entries), MAX_BLOCKS)
  }

  function Block(g: Group): string {
    var text := Rendered(g);
    text[CutAt(text)..]
  }

  function Blocks(groups: map<string, Group>, keys: seq<string>): (r: seq<string>)
    requires forall key :: key in keys ==> key in groups
    ensures |r| == |keys|
    decreases |keys|
  {
    if keys == [] then []
    else Blocks(groups, keys[..|keys| - 1]) + [Block(groups[keys[|keys| - 1]])]
  }

  lemma {:induction false} BlockOfEachGroup(groups: map<string, Group>, keys: seq<string>, i: nat)
    requires i < |keys| && forall key :: key in keys ==> key in groups
    ensures Blocks(groups, keys)[i] == Block(groups[keys[i]])
    decreases |keys|
  {
    if i < |keys| - 1 {
      BlockOfEachGroup(groups, keys[..|keys| - 1], i);
    }
  }

  /** What a block may show of a text: a piece of its end, at most 2900 bytes, and something when there is something. */
  predicate IsEnd(text: string, shown: string) {
    |shown| <= MAX_BLOCK_TEXT && |shown| <= |text| && shown == text[|text| - |shown|..] && (text != "" ==> shown != "")
  }

  /** The block of each group shown: the end of the group's text, and not empty when the events have bodies. */
  ghost predicate ShowsItsGroups(entries: seq<SlotEntry>, keys: seq<string>, blocks: seq<string>) {
    && |blocks| == |keys|
    && (forall k :: 0 <= k < |keys| ==> IsEnd(Rendered(GroupOf(entries, keys[k])), blocks[k]))
    && ((forall e :: e in entries ==> e.body != "") ==> forall block :: block in blocks ==> block != "")
  }

  lemma BlocksShowTheirGroups(entries: seq<SlotEntry>, keys: seq<string>)
    requires forall key :: key in keys ==> key in Order(entries)
    ensures ShowsItsGroups(entries, keys, Blocks(GroupMap(entries), keys))
  {
    var blocks := Blocks(GroupMap(entries), keys);
    forall k | 0 <= k < |keys|
      ensures IsEnd(Rendered(GroupOf(entries, keys[k])), blocks[k])
    {
      assert keys[k] in keys;
      BlockOfEachGroup(GroupMap(entries), keys, k);
      BlockIsEnd(GroupOf(entries, keys[k]));
    }
    if forall e :: e in entries ==> e.body != "" {
      OrderFollowsFirstAppearance(entries);
      forall k | 0 <= k < |keys|
        ensures blocks[k] != ""
      {
        assert keys[k] in keys;
        GroupsHaveText(entries, keys[k]);
      }
    }
  }

  lemma BlockIsEnd(g: Group)
    ensures IsEnd(Rendered(g), Block(g))
  {
    BlockIsBoundedWholeLines(Rendered(g));
  }

  /** buildSlotBlocks: one block for each group shown, at most 50, each the end of its group's text; none is empty
      when every event has a body. */
  method BuildSlotBlocks(entries: seq<SlotEntry>) returns (blocks: seq<string>)
    ensures |blocks| <= MAX_BLOCKS && ShowsItsGroups(entries, Kept(entries), blocks)
    ensures blocks == Blocks(GroupMap(entries), Kept(entries))
  {
    var order, groups := GroupSlotEntries(entries);
    if |order| > MAX_BLOCKS {
      order := order[|order| - MAX_BLOCKS..];
    }
    assert order == Kept(entries);
    blocks := RenderBlocks(order, groups);
    BlocksShowTheirGroups(entries, order);
  }

  method RenderBlocks(order: seq<string>, groups: map<string, Group>) returns (blocks: seq<string>)
    requires forall key :: key in order ==> key in groups
    ensures blocks == Blocks(groups, order)
  {
    blocks := [];
    for i := 0 to |order|
      invariant blocks == Blocks(groups, order[..i])
    {
      assert order[i] in order && order[..i + 1][..i] == order[..i];
      var text := ClampSlotGroupText(Rendered(groups[order[i]]));
      blocks := blocks + [text];
    }
    assert order[..|order|] == order;
  }

  /** The groups shown are those that first appeared last; when fewer than 50 are shown, all are. */
  lemma LatestGroupsAreShown(entries: seq<SlotEntry>)
    ensures |Kept(entries)| < MAX_BLOCKS ==> forall key :: Appears(entries, key) ==> key in Kept(entries)
    ensures forall key, k :: Appears(entries, key) && key !in Kept(entries) && k in Kept(entries) ==>
                               FirstAt(entries, key) < FirstAt(entries, k)
  {
    OrderFollowsFirstAppearance(entries);
    var all, kept := Order(entries), Kept(entries);
    forall key, k | Appears(entries, key) && key !in kept && k in kept
      ensures FirstAt(entries, key) < FirstAt(entries, k)
    {
      var i, j := TailComesLater(all, |all| - |kept|, key, k);
    }
  }

  lemma TailComesLater(all: seq<string>, from: nat, a: string, b: string) returns (i: nat, j: nat)
    requires from <= |all| && a in all && a !in all[from..] && b in all[from..]
    ensures i < j < |all| && all[i] == a && all[j] == b
  {
    i :| 0 <= i < |all| && all[i] == a;
    var k :| 0 <= k < |all[from..]| && all[from..][k] == b;
    j := from + k;
    NotInTail(all, from, i);
  }

  lemma NotInTail(s: seq<string>, from: nat, i: nat)
    requires from <= |s| && i < |s| && s[i] !in s[from..]
    ensures i < from
  {
    assert forall k :: from <= k < |s| ==> s[k] in s[from..];
  }

  /** Every block of a message whose events have bodies holds text. */
  lemma {:induction false} GroupsHaveText(entries: seq<SlotEntry>, key: string)
    requires Appears(entries, key) && forall e :: e in entries ==> e.body != ""
    ensures Rendered(GroupOf(entries, key)) != ""
  {
    LinesHaveText(entries, key);
  }

  lemma {:induction false} LinesHaveText(entries: seq<SlotEntry>, key: string)
    requires Appears(entries, key) && forall e :: e in entries ==> e.body != ""
    ensures Lines(entries, key) != [] && Lines(entries, key)[0] != "" && Join(Lines(entries, key)) != ""
    decreases |entries|
  {
    var rest, last := entries[..|entries| - 1], entries[|entries| - 1];
    if Appears(rest, key) {
      LinesHaveText(rest, key);
    } else {
      AbsentKeyIsEmpty(rest, key);
    }
    assert last in entries;
  }
}
