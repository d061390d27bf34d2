/** Identifiers carried through Slack and parsed back: the assignee block id and the status value of an action
    card (pkg/usecase/action.go), and the case thread in the question form's button
    (pkg/usecase/slack_thread_create_question.go). */
module WireIds {
  import opened Cases
  import opened Text

  const ASSIGNEE_BLOCK := "hc_action_assignee_block"

  // ----- Assignee block id -----

  function AssigneeBlockId(workspace: string, action: int): string {
    ASSIGNEE_BLOCK + ":" + workspace + ":" + Print(action)
  }

  function ParseAssigneeBlockId(block: string): Option<(string, int)> {
    var prefix := ASSIGNEE_BLOCK + ":";
    if !(prefix <= block) then None
    else
      var rest := block[|prefix|..];
      var colon := LastIndexOf(rest, ':');
      if colon < 0 then None
      else
        match ScanInt(rest[colon + 1..])
        case None => None
        case Some(action) => Some((rest[..colon], action))
  }

  /** Every workspace id, colons included, and every int64 action id comes back. */
  lemma AssigneeBlockIdReadsBack(workspace: string, action: int)
    requires IsInt64(action)
    ensures ParseAssigneeBlockId(AssigneeBlockId(workspace, action)) == Some((workspace, action))
  {
    var prefix := ASSIGNEE_BLOCK + ":";
    var number := Print(action);
    var rest := workspace + [':'] + number;
    assert prefix + workspace + ":" + number == prefix + rest;
    PrefixStrips(prefix, rest);
    PrintHasNoColon(action);
    PrintedNumberReadsBack(action);
    TailSplits(workspace, number, ':');
  }

  /** Block ids never collide. */
  lemma AssigneeBlockIdIsInjective(w1: string, a1: int, w2: string, a2: int)
    requires IsInt64(a1) && IsInt64(a2) && AssigneeBlockId(w1, a1) == AssigneeBlockId(w2, a2)
    ensures w1 == w2 && a1 == a2
  {
    AssigneeBlockIdReadsBack(w1, a1);
    AssigneeBlockIdReadsBack(w2, a2);
  }

  // ----- Status value -----

  function StatusValue(workspace: string, action: int, status: string): string {
    workspace + ":" + Print(action) + ":" + status
  }

  function ParseStatusValue(value: string): Option<(string, int, string)> {
    var last := LastIndexOf(value, ':');
    if last < 0 then None
    else
      var status, rest := value[last + 1..], value[..last];
      var mid := LastIndexOf(rest, ':');
      if mid < 0 then None
      else
        match ScanInt(rest[mid + 1..])
        case None => None
        case Some(action) => if status == "" then None else Some((rest[..mid], action, status))
  }

  /** The status value comes back exactly when the status is not empty and holds no colon. */
  lemma StatusValueReadsBackExactlyWhen(workspace: string, action: int, status: string)
    requires IsInt64(action)
    ensures ParseStatusValue(StatusValue(workspace, action, status)) == Some((workspace, action, status))
            <==> status != "" && ':' !in status
  {
    var value := StatusValue(workspace, action, status);
    var head := workspace + [':'] + Print(action);
    assert value == head + [':'] + status;
    if ':' !in status {
      TailSplits(head, status, ':');
      PrintHasNoColon(action);
      TailSplits(workspace, Print(action), ':');
      PrintedNumberReadsBack(action);
    } else {
      var last := LastIndexOf(value, ':');
      assert ':' !in value[last + 1..];
    }
  }

  // ----- Case thread value -----

  function CaseThreadValue(channel: string, ts: string): string {
    channel + ":" + ts
  }

  function ParseCaseThreadValue(v: string): Option<(string, string)> {
    var i := IndexOf(v, ':');
    if i <= 0 || i >= |v| - 1 then None else Some((v[..i], v[i + 1..]))
  }

  /** The case thread comes back exactly when the channel is not empty and holds no colon and the thread
      timestamp is not empty. */
  lemma CaseThreadReadsBackExactlyWhen(channel: string, ts: string)
    ensures ParseCaseThreadValue(CaseThreadValue(channel, ts)) == Some((channel, ts))
            <==> channel != "" && ':' !in channel && ts != ""
  {
    var v := CaseThreadValue(channel, ts);
    var i := IndexOf(v, ':');
    assert v[|channel|] == ':' && v[..|channel|] == channel && v[|channel| + 1..] == ts;
    FirstIndexStops(channel, ts, ':');
  }

  /** Whatever parses was printed from its parts. */
  lemma ParsedThreadPrintsBack(v: string)
    requires ParseCaseThreadValue(v).Some?
    ensures var (channel, ts) := ParseCaseThreadValue(v).value; CaseThreadValue(channel, ts) == v
  {
    var i := IndexOf(v, ':');
    assert v == v[..i] + [v[i]] + v[i + 1..];
  }
}
