/** The Case record with its domain rules (pkg/domain/model/case.go), the facts a workspace registry
    supplies, and the access gates of pkg/usecase/case_access.go and GetCase. */
module Cases {

  datatype Option<+T> = None | Some(value: T)

  /** A repository write may be acknowledged, lost, or applied although an error is reported. */
  datatype Write = Acked | Lost | AppliedUnacked

  datatype CaseStatus = Unset | Draft | Open | Closed {
    /** Documents written before the status existed hold no status and read as Open. */
    function Normalize(): CaseStatus {
      if Unset? then Open else this
    }
  }

  datatype FieldType = Text | User | MultiUser | CaseRef | MultiCaseRef | OtherType

  /** A decoded field value: Strs is a typed list, Anys a raw list whose non-string items are None. */
  datatype Value = Nil | Str(text: string) | Strs(list: seq<string>) | Anys(items: seq<Option<string>>) | Opaque

  datatype FieldValue = FieldValue(fieldId: string, kind: FieldType, value: Value)

  datatype StatusSet = StatusSet(initial: string, closed: set<string>, ids: set<string>)

  datatype Case = Case(
    id: int,
    title: string,
    description: string,
    status: CaseStatus,
    reporter: string,
    assignees: seq<string>,
    channel: string,
    threadTS: string,
    board: string,
    isPrivate: bool,
    isTest: bool,
    channelUsers: seq<string>,
    fields: map<string, FieldValue>,
    requestKey: string,
    updatedAt: int)
  {
    predicate IsDraft() { status == Draft }

    predicate IsThreadBound() { threadTS != "" }

    predicate IsClosed() { status == Closed }

    /** SyncLifecycleFromBoardStatus: a closed column closes the case, any other opens it; drafts are left alone. */
    function SyncLifecycle(columns: StatusSet): Case {
      if board == "" || IsDraft() then this
      else if board in columns.closed then this.(status := Closed)
      else this.(status := Open)
    }
  }

  // ----- Registry -----

  datatype Registry =
    | NoRegistry
    | UnknownWorkspace
    | Entry(threadMode: bool, monitor: string, columns: Option<StatusSet>, required: set<string>)

  datatype Config = Config(registry: Registry, slack: bool) {
    predicate ThreadMode() { registry.Entry? && registry.threadMode }

    function Columns(): Option<StatusSet> {
      if registry.Entry? then registry.columns else None
    }

    function Required(): set<string> {
      if registry.Entry? then registry.required else {}
    }
  }

  // ----- Access gates -----

  /** Who calls: no token (system or agent context), or the Slack user of the auth token. */
  datatype Actor = System | Member(sub: string)

  predicate IsCaseAccessible(c: Case, user: string) {
    !c.isPrivate || user in c.channelUsers
  }

  /** assertCaseWriteAccess */
  predicate MayWrite(c: Case, who: Actor) {
    match who
    case System => true
    case Member(sub) =>
      if c.IsDraft() then !(c.isPrivate && c.reporter != sub) else IsCaseAccessible(c, sub)
  }

  /** Who may write a case, from its fields alone: anybody a public one, the reporter a private draft, and the members
      of its channel any other private case. */
  predicate Admits(c: Case, sub: string) {
    c.isPrivate ==> if c.status == Draft then c.reporter == sub else sub in c.channelUsers
  }

  lemma WriteGateIs(c: Case, who: Actor)
    ensures MayWrite(c, who) <==> who.System? || Admits(c, who.sub)
  {
  }

  datatype CaseView = Hidden | Restricted(record: Case) | Full(record: Case)

  /** RestrictCase keeps the id, the status, the privacy flag and the timestamps only. */
  function Restrict(c: Case): Case {
    Case(c.id, "", "", c.status, "", [], "", "", "", c.isPrivate, false, [], map[], "", c.updatedAt)
  }

  /** What GetCase shows of a stored case. */
  function View(c: Case, who: Actor): CaseView {
    if c.IsDraft() && c.isPrivate && who.Member? && c.reporter != who.sub then Hidden
    else if who.Member? && !c.IsDraft() && !IsCaseAccessible(c, who.sub) then Restricted(Restrict(c))
    else Full(c)
  }

  /** The read gate and the write gate agree: a caller sees the whole record exactly when it may write it,
      and what it sees otherwise names nobody and no channel. */
  lemma ReadAndWriteGatesAgree(c: Case, who: Actor)
    ensures View(c, who) == Full(c) <==> MayWrite(c, who)
    ensures !MayWrite(c, who) && !View(c, who).Hidden? ==>
              View(c, who).Restricted? && c.isPrivate && !c.IsDraft()
              && View(c, who).record.assignees == [] && View(c, who).record.channel == ""
              && View(c, who).record.channelUsers == [] && View(c, who).record.title == ""
              && View(c, who).record == Case(c.id, "", "", c.status, "", [], "", "", "", true, false, [], map[], "",
                                             c.updatedAt)
  {
  }

  datatype Err =
    | NotFound
    | AccessDenied
    | TitleRequired
    | Validation
    | PrivateThreadUnsupported
    | SlackUnconfigured
    | WorkspaceUnknown
    | ChannelOnThreadWorkspace
    | SlackFailed
    | LookupFailed
    | WriteFailed
    | NotDraft
    | IsADraft
    | MissingRequired
    | ActivationFailed(cause: Err)
    | UseBoardStatus
    | AlreadyClosed
    | AlreadyOpen
    | NoColumns
    | UnknownColumn
    | NoChannel
}
