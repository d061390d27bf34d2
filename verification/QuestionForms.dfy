/** The planner's question form: the block ids the builders of slack_mention_proposal_question.go and
    slack_thread_create_question.go (pkg/usecase) give it, and the parser that reads the submission back. */
module QuestionForms {
  import opened Cases
  import Text

  const ITEM_PREFIX := "mention_draft_question_item:"
  const OTHER_SUFFIX := ":other"
  const ACTIONS_BLOCK := "mention_draft_question_actions"
  const CHOICE := "mention_draft_question_choice"
  const OTHER := "mention_draft_question_other"
  const FREE_TEXT := "mention_draft_question_free_text"

  datatype ItemKind = Select | MultiSelect | FreeText

  datatype Item = Item(id: string, kind: ItemKind, options: seq<string>)

  // ----- The form -----

  datatype Block = Input(blockId: string, actionId: string, options: seq<string>)
    | SubmitButton(blockId: string, actionId: string, value: string)

  function ItemBlock(id: string): string { ITEM_PREFIX + id }

  function OtherBlock(id: string): string { ITEM_PREFIX + id + OTHER_SUFFIX }

  function BlocksOf(item: Item): seq<Block> {
    if item.kind.FreeText? then [Input(ItemBlock(item.id), FREE_TEXT, [])]
    else [Input(ItemBlock(item.id), CHOICE, item.options), Input(OtherBlock(item.id), OTHER, [])]
  }

  function Inputs(items: seq<Item>): seq<Block>
    decreases |items|
  {
    if items == [] then [] else Inputs(items[..|items| - 1]) + BlocksOf(items[|items| - 1])
  }

  /** buildProposalQuestionBlocks and buildThreadCreateQuestionBlocks differ in the Submit button only. */
  method BuildQuestionBlocks(items: seq<Item>, submitAction: string, submitValue: string) returns (blocks: seq<Block>)
    ensures blocks == Inputs(items) + [SubmitButton(ACTIONS_BLOCK, submitAction, submitValue)]
  {
    blocks := [];
    for i := 0 to |items|
      invariant blocks == Inputs(items[..i])
    {
      var item := items[i];
      assert items[..i + 1][..i] == items[..i];
      if item.kind.FreeText? {
        blocks := blocks + [Input(ITEM_PREFIX + item.id, FREE_TEXT, [])];
        continue;
      }
      blocks := blocks + [Input(ITEM_PREFIX + item.id, CHOICE, item.options)];
      blocks := blocks + [Input(ITEM_PREFIX + item.id + OTHER_SUFFIX, OTHER, [])];
    }
    assert items[..|items|] == items;
    blocks := blocks + [SubmitButton(ACTIONS_BLOCK, submitAction, submitValue)];
  }

  // ----- Block ids -----

  predicate Clashes(a: Item, b: Item) {
    a.id == b.id || (!b.kind.FreeText? && a.id == b.id + OTHER_SUFFIX)
      || (!a.kind.FreeText? && b.id == a.id + OTHER_SUFFIX)
  }

  /** Distinct item ids, none of which is another closed-list item's id followed by ":other". */
  predicate Unambiguous(items: seq<Item>) {
    forall i, j :: 0 <= i < j < |items| ==> !Clashes(items[i], items[j])
  }

  function Ids(blocks: seq<Block>): set<string> {
    set b | b in blocks :: b.blockId
  }

  predicate DistinctIds(blocks: seq<Block>) {
    forall i, j :: 0 <= i < j < |blocks| ==> blocks[i].blockId != blocks[j].blockId
  }

  lemma ItemBlockIds(x: string, y: string)
    ensures ItemBlock(x) == ItemBlock(y) <==> x == y
    ensures OtherBlock(x) == OtherBlock(y) <==> x == y
    ensures ItemBlock(x) == OtherBlock(y) <==> x == y + OTHER_SUFFIX
    ensures ItemBlock(x) != ACTIONS_BLOCK && OtherBlock(x) != ACTIONS_BLOCK
  {
    CancelPrefix(ITEM_PREFIX, x, y);
    CancelPrefix(ITEM_PREFIX, x, y + OTHER_SUFFIX);
    CancelPrefix(ITEM_PREFIX, x + OTHER_SUFFIX, y + OTHER_SUFFIX);
    CancelSuffix(x, y, OTHER_SUFFIX);
    assert ITEM_PREFIX + (x + OTHER_SUFFIX) == OtherBlock(x) && ITEM_PREFIX + (y + OTHER_SUFFIX) == OtherBlock(y);
    assert ItemBlock(x)[23] == 'i' && OtherBlock(x)[23] == 'i' && ACTIONS_BLOCK[23] == 'a';
  }

  lemma CancelPrefix(p: string, x: string, y: string)
    ensures p + x == p + y <==> x == y
  {
    assert (p + x)[|p|..] == x && (p + y)[|p|..] == y;
  }

  lemma CancelSuffix(x: string, y: string, t: string)
    ensures x + t == y + t <==> x == y
  {
    if x + t == y + t {
      assert (x + t)[..|x|] == x && (y + t)[..|y|] == y;
    }
  }

  lemma BlocksOfTwoItems(a: Item, b: Item)
    ensures Ids(BlocksOf(a)) !! Ids(BlocksOf(b)) <==> !Clashes(a, b)
    ensures ItemBlock(a.id) in Ids(BlocksOf(a)) && (!a.kind.FreeText? ==> OtherBlock(a.id) in Ids(BlocksOf(a)))
    ensures DistinctIds(BlocksOf(a)) && ACTIONS_BLOCK !in Ids(BlocksOf(a))
  {
    ItemBlockIds(a.id, b.id);
    ItemBlockIds(b.id, a.id);
    ItemBlockIds(a.id, a.id);
    SuffixIsLonger(a.id);
    IdsOfBlocks(a);
    IdsOfBlocks(b);
    if Clashes(a, b) {
      if a.id == b.id || (!b.kind.FreeText? && a.id == b.id + OTHER_SUFFIX) {
        assert ItemBlock(a.id) in Ids(BlocksOf(a)) * Ids(BlocksOf(b));
      } else {
        assert ItemBlock(b.id) in Ids(BlocksOf(a)) * Ids(BlocksOf(b));
      }
    }
  }

  lemma SuffixIsLonger(x: string)
    ensures x != x + OTHER_SUFFIX
  {
    assert |x + OTHER_SUFFIX| == |x| + 6;
  }

  lemma IdsOfBlocks(a: Item)
    ensures Ids(BlocksOf(a)) == if a.kind.FreeText? then {ItemBlock(a.id)} else {ItemBlock(a.id), OtherBlock(a.id)}
  {
    var blocks := BlocksOf(a);
    assert forall b :: b in blocks ==> b == blocks[0] || b == blocks[|blocks| - 1];
    assert blocks[0] in blocks && blocks[|blocks| - 1] in blocks;
  }

  lemma DistinctJoin(a: seq<Block>, b: seq<Block>)
    ensures DistinctIds(a + b) <==> DistinctIds(a) && DistinctIds(b) && Ids(a) !! Ids(b)
  {
    var all := a + b;
    assert forall i :: 0 <= i < |a| ==> all[i] == a[i];
    assert forall j :: 0 <= j < |b| ==> all[|a| + j] == b[j];
    if DistinctIds(all) {
      forall x | x in Ids(a)
        ensures x !in Ids(b)
      {
        var i :| 0 <= i < |a| && a[i].blockId == x;
        forall y | y in b
          ensures y.blockId != x
        {
          var j :| 0 <= j < |b| && b[j] == y;
          assert all[i].blockId != all[|a| + j].blockId;
        }
      }
    }
    if DistinctIds(a) && DistinctIds(b) && Ids(a) !! Ids(b) {
      forall i, j | 0 <= i < j < |all|
        ensures all[i].blockId != all[j].blockId
      {
        if i < |a| <= j {
          assert a[i] in a && b[j - |a|] in b;
          assert a[i].blockId in Ids(a) && b[j - |a|].blockId in Ids(b);
        }
      }
    }
  }

  lemma IdsJoin(a: seq<Block>, b: seq<Block>)
    ensures Ids(a + b) == Ids(a) + Ids(b)
  {
    assert forall x :: x in a + b <==> x in a || x in b;
  }

  lemma {:induction false} ApartExactlyWhen(rest: seq<Item>, last: Item)
    ensures Ids(Inputs(rest)) !! Ids(BlocksOf(last)) <==> forall i :: 0 <= i < |rest| ==> !Clashes(rest[i], last)
    decreases |rest|
  {
    if rest != [] {
      var before, r := rest[..|rest| - 1], rest[|rest| - 1];
      ApartExactlyWhen(before, last);
      BlocksOfTwoItems(r, last);
      IdsJoin(Inputs(before), BlocksOf(r));
      assert forall i :: 0 <= i < |before| ==> before[i] == rest[i];
    }
  }

  lemma {:induction false} ActionsBlockIsApart(items: seq<Item>)
    ensures ACTIONS_BLOCK !in Ids(Inputs(items))
    decreases |items|
  {
    if items != [] {
      var rest, last := items[..|items| - 1], items[|items| - 1];
      ActionsBlockIsApart(rest);
      BlocksOfTwoItems(last, last);
      IdsJoin(Inputs(rest), BlocksOf(last));
    }
  }

  lemma {:induction false} InputIdsDistinctExactlyWhen(items: seq<Item>)
    ensures DistinctIds(Inputs(items)) <==> Unambiguous(items)
    decreases |items|
  {
    if items != [] {
      var rest, last := items[..|items| - 1], items[|items| - 1];
      InputIdsDistinctExactlyWhen(rest);
      DistinctJoin(Inputs(rest), BlocksOf(last));
      BlocksOfTwoItems(last, last);
      ApartExactlyWhen(rest, last);
      OneMoreItem(rest, last);
      assert items == rest + [last];
    }
  }

  lemma OneMoreItem(rest: seq<Item>, last: Item)
    ensures Unambiguous(rest + [last]) <==> Unambiguous(rest) && forall i :: 0 <= i < |rest| ==> !Clashes(rest[i], last)
  {
    var all := rest + [last];
    assert forall i :: 0 <= i < |rest| ==> all[i] == rest[i];
    assert all[|rest|] == last;
  }

  /** Slack takes a message only when its block ids are distinct; the form meets that exactly when the item ids are
      distinct and none is another closed-list item's id followed by ":other". */
  lemma FormIsAcceptableExactlyWhen(items: seq<Item>, submitAction: string, submitValue: string)
    ensures DistinctIds(Inputs(items) + [SubmitButton(ACTIONS_BLOCK, submitAction, submitValue)])
            <==> Unambiguous(items)
  {
    InputIdsDistinctExactlyWhen(items);
    ActionsBlockIsApart(items);
    var submit := [SubmitButton(ACTIONS_BLOCK, submitAction, submitValue)];
    DistinctJoin(Inputs(items), submit);
    assert Ids(submit) == {ACTIONS_BLOCK} by {
      assert submit[0] in submit;
    }
  }

  // ----- Filling it in -----

  /** What a person does with one item; a radio group uses `pick`, checkboxes `picks`. */
  datatype Given = Given(pick: string, picks: seq<string>, text: string)

  /** One control's state in a submission. */
  datatype Act = Act(selected: string, selectedMany: seq<string>, value: string)

  type States = map<string, map<string, Act>>

  function FillItem(item: Item, g: Given): States {
    match item.kind
    case FreeText => map[ItemBlock(item.id) := map[FREE_TEXT := Act("", [], g.text)]]
    case MultiSelect =>
      map[ItemBlock(item.id) := map[CHOICE := Act("", g.picks, "")],
          OtherBlock(item.id) := map[OTHER := Act("", [], g.text)]]
    case Select =>
      map[ItemBlock(item.id) := map[CHOICE := Act(g.pick, [], "")],
          OtherBlock(item.id) := map[OTHER := Act("", [], g.text)]]
  }

  function Fill(items: seq<Item>, given: seq<Given>): States
    requires |given| == |items|
    decreases |items|
  {
    if items == [] then map[]
    else
      var n := |items| - 1;
      Fill(items[..n], given[..n]) + FillItem(items[n], given[n])
  }

  // ----- Reading it back -----

  datatype Answer = Answer(selections: seq<string>, otherText: string) {
    predicate IsEmpty() { selections == [] && Text.Trim(otherText) == "" }
  }

  function NotBlank(picks: seq<string>): (r: seq<string>)
    ensures forall p :: p in r <==> p in picks && p != ""
    decreases |picks|
  {
    if picks == [] then []
    else
      var n := |picks| - 1;
      assert picks == picks[..n] + [picks[n]];
      NotBlank(picks[..n]) + if picks[n] == "" then [] else [picks[n]]
  }

  function Find(state: States, blockId: string, actionId: string): Option<Act> {
    if blockId in state && actionId in state[blockId] then Some(state[blockId][actionId]) else None
  }

  function ReadItem(state: States, item: Item): Answer {
    var choice := Find(state, ItemBlock(item.id), CHOICE);
    var other := Find(state, OtherBlock(item.id), OTHER);
    match item.kind
    case FreeText =>
      var text := Find(state, ItemBlock(item.id), FREE_TEXT);
      Answer([], if text.Some? then text.value.value else "")
    case MultiSelect => Answer(if choice.Some? then NotBlank(choice.value.selectedMany) else [],
                               if other.Some? then other.value.value else "")
    case Select =>
      Answer(if choice.Some? && choice.value.selected != "" then [choice.value.selected] else [],
             if other.Some? then other.value.value else "")
  }

  function Answers(state: States, items: seq<Item>): map<string, Answer>
    decreases |items|
  {
    if items == [] then map[]
    else
      var n := |items| - 1;
      var a := ReadItem(state, items[n]);
      if a.IsEmpty() then Answers(state, items[..n]) else Answers(state, items[..n])[items[n].id := a]
  }

  /** parseDraftQuestionAnswers */
  method ParseDraftQuestionAnswers(items: seq<Item>, state: Option<States>) returns (out: map<string, Answer>)
    ensures out == if state.None? then map[] else Answers(state.value, items)
  {
    out := map[];
    if state.None? {
      return;
    }
    for i := 0 to |items|
      invariant out == Answers(state.value, items[..i])
    {
      var item := items[i];
      assert items[..i + 1][..i] == items[..i];
      var a := ReadAnswer(state.value, item);
      if !a.IsEmpty() {
        out := out[item.id := a];
      }
    }
    assert items[..|items|] == items;
  }

  method ReadAnswer(values: States, item: Item) returns (ans: Answer)
    ensures ans == ReadItem(values, item)
  {
    ans := Answer([], "");
    var choiceBlock := ITEM_PREFIX + item.id;
    if choiceBlock in values {
      var blk := values[choiceBlock];
      match item.kind
      case FreeText =>
        if FREE_TEXT in blk {
          ans := ans.(otherText := blk[FREE_TEXT].value);
        }
      case MultiSelect =>
        if CHOICE in blk {
          var picked := blk[CHOICE].selectedMany;
          for k := 0 to |picked|
            invariant ans == Answer(NotBlank(picked[..k]), "")
          {
            assert picked[..k + 1][..k] == picked[..k];
            if picked[k] == "" {
              continue;
            }
            ans := ans.(selections := ans.selections + [picked[k]]);
          }
          assert picked[..|picked|] == picked;
        }
      case Select =>
        if CHOICE in blk && blk[CHOICE].selected != "" {
          ans := ans.(selections := [blk[CHOICE].selected]);
        }
    }
    if !item.kind.FreeText? {
      var otherBlock := ITEM_PREFIX + item.id + OTHER_SUFFIX;
      if otherBlock in values && OTHER in values[otherBlock] {
        ans := ans.(otherText := values[otherBlock][OTHER].value);
      }
    }
  }

  function Missing(items: seq<Item>, answers: map<string, Answer>): seq<string>
    decreases |items|
  {
    if items == [] then []
    else
      var n := |items| - 1;
      Missing(items[..n], answers)
      + if items[n].id !in answers || answers[items[n].id].IsEmpty() then [items[n].id] else []
  }

  /** missingDraftQuestionItems */
  method MissingDraftQuestionItems(items: seq<Item>, answers: map<string, Answer>) returns (missing: seq<string>)
    ensures missing == Missing(items, answers)
  {
    missing := [];
    for i := 0 to |items|
      invariant missing == Missing(items[..i], answers)
    {
      assert items[..i + 1][..i] == items[..i];
      if items[i].id !in answers || answers[items[i].id].IsEmpty() {
        missing := missing + [items[i].id];
      }
    }
    assert items[..|items|] == items;
  }

  // ----- The round trip -----

  /** The answer a person gave to an item, blanks left out. */
  function Meant(item: Item, g: Given): Answer {
    match item.kind
    case FreeText => Answer([], g.text)
    case MultiSelect => Answer(NotBlank(g.picks), g.text)
    case Select => Answer(if g.pick == "" then [] else [g.pick], g.text)
  }

  /** Text with something in it besides spaces. */
  predicate HasInk(text: string) {
    exists c :: c in text && !Text.IsSpace(c)
  }

  /** The person picked something or wrote something. */
  predicate Answered(item: Item, g: Given) {
    HasInk(g.text)
    || match item.kind
       case FreeText => false
       case MultiSelect => exists p :: p in g.picks && p != ""
       case Select => g.pick != ""
  }

  lemma MeantIsEmptyExactlyWhen(item: Item, g: Given)
    ensures Meant(item, g).IsEmpty() <==> !Answered(item, g)
  {
    Text.TrimIsEmptyExactlyWhen(g.text);
    if item.kind.MultiSelect? && NotBlank(g.picks) != [] {
      assert NotBlank(g.picks)[0] in NotBlank(g.picks);
    }
  }

  lemma FillItemKeys(item: Item, g: Given)
    ensures FillItem(item, g).Keys == Ids(BlocksOf(item))
  {
    IdsOfBlocks(item);
  }

  lemma {:induction false} FillKeepsEachItem(items: seq<Item>, given: seq<Given>, i: nat, blockId: string)
    requires |given| == |items| && i < |items| && Unambiguous(items)
    requires blockId in FillItem(items[i], given[i])
    ensures blockId in Fill(items, given) && Fill(items, given)[blockId] == FillItem(items[i], given[i])[blockId]
    decreases |items|
  {
    var n := |items| - 1;
    if i < n {
      BlocksOfTwoItems(items[i], items[n]);
      FillItemKeys(items[i], given[i]);
      FillItemKeys(items[n], given[n]);
      FillKeepsEachItem(items[..n], given[..n], i, blockId);
    }
  }

  /** Each item is read back as it was meant, whatever the others hold. */
  lemma NoCrossTalk(items: seq<Item>, given: seq<Given>, i: nat)
    requires |given| == |items| && i < |items| && Unambiguous(items)
    ensures ReadItem(Fill(items, given), items[i]) == Meant(items[i], given[i])
  {
    var item := items[i];
    ItemBlockIds(item.id, item.id);
    SuffixIsLonger(item.id);
    FillKeepsEachItem(items, given, i, ItemBlock(item.id));
    if !item.kind.FreeText? {
      FillKeepsEachItem(items, given, i, OtherBlock(item.id));
    }
  }

  lemma {:induction false} AnswersAreByItem(state: States, items: seq<Item>, i: nat)
    requires Unambiguous(items) && i < |items|
    ensures items[i].id in Answers(state, items) <==> !ReadItem(state, items[i]).IsEmpty()
    ensures items[i].id in Answers(state, items) ==> Answers(state, items)[items[i].id] == ReadItem(state, items[i])
    decreases |items|
  {
    var n := |items| - 1;
    if i < n {
      assert !Clashes(items[i], items[n]);
      AnswersAreByItem(state, items[..n], i);
    } else {
      NoAnswerWithoutItem(state, items[..n], items[n].id);
    }
  }

  lemma {:induction false} NoAnswerWithoutItem(state: States, items: seq<Item>, id: string)
    requires forall i :: 0 <= i < |items| ==> items[i].id != id
    ensures id !in Answers(state, items)
    decreases |items|
  {
    if items != [] {
      NoAnswerWithoutItem(state, items[..|items| - 1], id);
    }
  }

  /** Filling in the form and parsing the submission gives back each item's own answer and nothing else; an item left
      blank is absent. */
  lemma FormReadsBack(items: seq<Item>, given: seq<Given>)
    requires |given| == |items| && Unambiguous(items)
    ensures var answers := Answers(Fill(items, given), items);
            (forall i :: 0 <= i < |items| ==>
               (items[i].id in answers <==> !Meant(items[i], given[i]).IsEmpty())
               && (items[i].id in answers ==> answers[items[i].id] == Meant(items[i], given[i])))
            && forall id :: id in answers ==> exists i :: 0 <= i < |items| && items[i].id == id
  {
    var answers := Answers(Fill(items, given), items);
    forall i | 0 <= i < |items|
      ensures items[i].id in answers <==> !Meant(items[i], given[i]).IsEmpty()
      ensures items[i].id in answers ==> answers[items[i].id] == Meant(items[i], given[i])
    {
      NoCrossTalk(items, given, i);
      AnswersAreByItem(Fill(items, given), items, i);
    }
    forall id | id in answers
      ensures exists i :: 0 <= i < |items| && items[i].id == id
    {
      if forall i :: 0 <= i < |items| ==> items[i].id != id {
        NoAnswerWithoutItem(Fill(items, given), items, id);
      }
    }
  }

  lemma {:induction false} MissingIsEmptyExactlyWhen(items: seq<Item>, answers: map<string, Answer>)
    ensures Missing(items, answers) == [] <==>
            forall i :: 0 <= i < |items| ==> items[i].id in answers && !answers[items[i].id].IsEmpty()
    decreases |items|
  {
    if items != [] {
      MissingIsEmptyExactlyWhen(items[..|items| - 1], answers);
      assert forall i :: 0 <= i < |items| - 1 ==> items[..|items| - 1][i] == items[i];
    }
  }

  /** The form is complete exactly when every item was answered with a choice or with text that is not blank. */
  lemma NothingMissingExactlyWhen(items: seq<Item>, given: seq<Given>)
    requires |given| == |items| && Unambiguous(items)
    ensures Missing(items, Answers(Fill(items, given), items)) == []
            <==> forall i :: 0 <= i < |items| ==> Answered(items[i], given[i])
  {
    FormReadsBack(items, given);
    MissingIsEmptyExactlyWhen(items, Answers(Fill(items, given), items));
    forall i | 0 <= i < |items|
      ensures Meant(items[i], given[i]).IsEmpty() <==> !Answered(items[i], given[i])
    {
      MeantIsEmptyExactlyWhen(items[i], given[i]);
    }
  }
}
