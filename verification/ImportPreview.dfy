/** The user check of an import preview (pkg/usecase/import.go): every user id in the file is looked up in one
    batch, and each case is checked against the answer. */
module ImportPreview {
  import opened Cases
  import CaseReads

  datatype FieldDef = FieldDef(id: string, kind: FieldType)

  datatype YamlCase = YamlCase(assignees: seq<string>, fields: map<string, Value>)

  /** Where in a case a user id stands. */
  datatype Place = Assignee(index: int) | Field(id: string) | FieldItem(id: string, index: int)

  /** "unknown Slack user" at one place of one case. */
  datatype Issue = Issue(index: int, place: Place, user: string)

  // ----- The pointwise reading -----

  /** A field definition that makes the file's value a user reference. */
  predicate Mentions(fields: seq<FieldDef>, c: YamlCase, place: Place, user: string) {
    user != ""
    && match place
       case Assignee(k) => 0 <= k < |c.assignees| && c.assignees[k] == user
       case Field(id) => FieldDef(id, User) in fields && id in c.fields && c.fields[id] == Str(user)
       case FieldItem(id, k) =>
         FieldDef(id, MultiUser) in fields && id in c.fields && CaseReads.StandsAt(c.fields[id], k, user)
  }

  /** The user store; None when the lookup fails. */
  predicate Absent(store: Option<set<string>>, user: string) {
    store.Some? && user !in store.value
  }

  // ----- Collecting -----

  /** The type the batch reads a field by: the last user or multi-user definition of its id. */
  function UserType(fields: seq<FieldDef>, id: string): Option<FieldType>
    decreases |fields|
  {
    if fields == [] then None
    else
      var last := fields[|fields| - 1];
      if last.id == id && (last.kind.User? || last.kind.MultiUser?) then Some(last.kind)
      else UserType(fields[..|fields| - 1], id)
  }

  predicate InField(kind: FieldType, v: Value, user: string) {
    (kind.User? && v == Str(user)) || (kind.MultiUser? && CaseReads.Holds(v, user))
  }

  predicate InCase(fields: seq<FieldDef>, c: YamlCase, user: string) {
    user != ""
    && (user in c.assignees
        || exists id :: id in c.fields && UserType(fields, id).Some?
                        && InField(UserType(fields, id).value, c.fields[id], user))
  }

  predicate Collected(fields: seq<FieldDef>, doc: seq<YamlCase>, user: string) {
    exists i :: 0 <= i < |doc| && InCase(fields, doc[i], user)
  }

  method UserFieldTypes(fields: seq<FieldDef>) returns (types: map<string, FieldType>)
    ensures forall id :: id in types <==> UserType(fields, id).Some?
    ensures forall id :: id in types ==> UserType(fields, id) == Some(types[id])
  {
    types := map[];
    for i := 0 to |fields|
      invariant forall id :: id in types <==> UserType(fields[..i], id).Some?
      invariant forall id :: id in types ==> UserType(fields[..i], id) == Some(types[id])
    {
      assert fields[..i + 1][..i] == fields[..i];
      if fields[i].kind.User? || fields[i].kind.MultiUser? {
        types := types[fields[i].id := fields[i].kind];
      }
    }
    assert fields[..|fields|] == fields;
  }

  method CollectCase(fields: seq<FieldDef>, types: map<string, FieldType>, c: YamlCase) returns (seen: set<string>)
    requires forall id :: id in types <==> UserType(fields, id).Some?
    requires forall id :: id in types ==> UserType(fields, id) == Some(types[id])
    ensures forall user :: user in seen <==> InCase(fields, c, user)
  {
    seen := set u | u in c.assignees && u != "";
    var pending := c.fields.Keys;
    while pending != {}
      invariant pending <= c.fields.Keys
      invariant forall user :: user in seen <==>
                  user != "" && (user in c.assignees
                                 || exists id :: id in c.fields && id !in pending && UserType(fields, id).Some?
                                                 && InField(UserType(fields, id).value, c.fields[id], user))
    {
      var id :| id in pending;
      var ids := if id in types then Users(types[id], c.fields[id]) else {};
      ghost var before := pending;
      pending := pending - {id};
      assert forall k :: k in c.fields && k !in pending <==> k in c.fields && (k !in before || k == id);
      seen := seen + ids;
    }
  }

  function Users(kind: FieldType, v: Value): (r: set<string>)
    ensures forall user :: user in r <==> user != "" && InField(kind, v, user)
  {
    if kind.User? then (if v.Str? && v.text != "" then {v.text} else {})
    else if kind.MultiUser? then
      CaseReads.CoerceHolds(v);
      set u | u in CaseReads.Coerce(v) && u != ""
    else {}
  }

  /** collectSlackUserIDs */
  method CollectSlackUserIds(doc: seq<YamlCase>, fields: seq<FieldDef>) returns (seen: set<string>)
    ensures forall user :: user in seen <==> Collected(fields, doc, user)
  {
    var types := UserFieldTypes(fields);
    seen := {};
    for i := 0 to |doc|
      invariant forall user :: user in seen <==> exists k :: 0 <= k < i && InCase(fields, doc[k], user)
    {
      var more := CollectCase(fields, types, doc[i]);
      seen := seen + more;
    }
  }

  /** resolveSlackUsers: a failed lookup counts every id as known. */
  method ResolveSlackUsers(ids: set<string>, store: Option<set<string>>) returns (known: set<string>)
    ensures forall user :: user in known <==> user in ids && !Absent(store, user)
  {
    if ids == {} {
      return {};
    }
    if store.None? {
      return ids;
    }
    known := ids * store.value;
  }

  // ----- Checking -----

  predicate Flagged(fields: seq<FieldDef>, doc: seq<YamlCase>, known: set<string>, issue: Issue) {
    0 <= issue.index < |doc| && Mentions(fields, doc[issue.index], issue.place, issue.user) && issue.user !in known
  }

  method CheckAssignees(index: int, c: YamlCase, known: set<string>) returns (issues: seq<Issue>)
    ensures forall issue :: issue in issues <==>
              issue.index == index && issue.place.Assignee? && 0 <= issue.place.index < |c.assignees|
              && c.assignees[issue.place.index] == issue.user != "" && issue.user !in known
  {
    issues := [];
    for k := 0 to |c.assignees|
      invariant forall issue :: issue in issues <==>
                  issue.index == index && issue.place.Assignee? && 0 <= issue.place.index < k
                  && c.assignees[issue.place.index] == issue.user != "" && issue.user !in known
    {
      if c.assignees[k] != "" && c.assignees[k] !in known {
        issues := issues + [Issue(index, Assignee(k), c.assignees[k])];
      }
    }
  }

  /** The unknown users of one field under one definition. */
  predicate InDef(fd: FieldDef, index: int, c: YamlCase, known: set<string>, issue: Issue) {
    issue.index == index && issue.user != "" && issue.user !in known && fd.id in c.fields
    && ((fd.kind.User? && issue.place == Field(fd.id) && c.fields[fd.id] == Str(issue.user))
        || (fd.kind.MultiUser? && issue.place.FieldItem? && issue.place.id == fd.id
            && CaseReads.StandsAt(c.fields[fd.id], issue.place.index, issue.user)))
  }

  method CheckField(fd: FieldDef, index: int, c: YamlCase, known: set<string>) returns (issues: seq<Issue>)
    ensures forall issue :: issue in issues <==> InDef(fd, index, c, known, issue)
  {
    issues := [];
    if fd.id !in c.fields {
      return;
    }
    var v := c.fields[fd.id];
    match fd.kind
    case User =>
      if v.Str? && v.text != "" && v.text !in known {
        issues := [Issue(index, Field(fd.id), v.text)];
      }
    case MultiUser =>
      var users := CaseReads.Coerce(v);
      CaseReads.CoerceHolds(v);
      for k := 0 to |users|
        invariant forall issue :: issue in issues <==>
                    issue.index == index && issue.place.FieldItem? && issue.place.id == fd.id
                    && 0 <= issue.place.index < k && users[issue.place.index] == issue.user != ""
                    && issue.user !in known
      {
        if users[k] != "" && users[k] !in known {
          issues := issues + [Issue(index, FieldItem(fd.id, k), users[k])];
        }
      }
    case _ =>
  }

  /** The user check of normalizeCase. */
  method NormalizeCase(index: int, c: YamlCase, fields: seq<FieldDef>, known: set<string>) returns (issues: seq<Issue>)
    ensures forall issue :: issue in issues <==>
              issue.index == index && Mentions(fields, c, issue.place, issue.user) && issue.user !in known
  {
    issues := CheckAssignees(index, c, known);
    ghost var first := issues;
    for j := 0 to |fields|
      invariant forall issue :: issue in issues <==>
                  issue in first || exists i :: 0 <= i < j && InDef(fields[i], index, c, known, issue)
    {
      var more := CheckField(fields[j], index, c, known);
      issues := issues + more;
    }
    forall issue: Issue
      ensures issue in issues <==>
              issue.index == index && Mentions(fields, c, issue.place, issue.user) && issue.user !in known
    {
      if issue.index == index {
        MentionsByDefinition(fields, index, c, known, issue);
      }
    }
  }

  lemma MentionsByDefinition(fields: seq<FieldDef>, index: int, c: YamlCase, known: set<string>, issue: Issue)
    requires issue.index == index
    ensures !issue.place.Assignee? ==>
              (Mentions(fields, c, issue.place, issue.user) && issue.user !in known
               <==> exists i :: 0 <= i < |fields| && InDef(fields[i], index, c, known, issue))
  {
    if Mentions(fields, c, issue.place, issue.user) && issue.user !in known && !issue.place.Assignee? {
      var fd := if issue.place.Field? then FieldDef(issue.place.id, User) else FieldDef(issue.place.id, MultiUser);
      var i :| 0 <= i < |fields| && fields[i] == fd;
      assert InDef(fields[i], index, c, known, issue);
    }
  }

  /** The user part of parseAndNormalize. With a schema the loader admits, an id is reported at exactly the places where
      it stands and is absent from the user store. */
  method Preview(doc: seq<YamlCase>, fields: seq<FieldDef>, store: Option<set<string>>) returns (issues: seq<Issue>)
    ensures forall issue :: issue in issues <==> Reported(fields, doc, store, issue)
    ensures UniqueIds(fields) ==> forall issue :: issue in issues <==> Unknown(fields, doc, store, issue)
  {
    var ids := CollectSlackUserIds(doc, fields);
    var known := ResolveSlackUsers(ids, store);
    issues := [];
    for i := 0 to |doc|
      invariant forall issue :: issue in issues <==> issue.index < i && Flagged(fields, doc, known, issue)
    {
      var more := NormalizeCase(i, doc[i], fields, known);
      issues := issues + more;
    }
    assert forall issue :: issue in issues <==> Reported(fields, doc, store, issue);
    if UniqueIds(fields) {
      LoadedSchemaIsPointwise(fields, doc, store);
    }
  }

  /** What the preview reports: a mention of an id the batch did not find, or did not ask for. */
  predicate Reported(fields: seq<FieldDef>, doc: seq<YamlCase>, store: Option<set<string>>, issue: Issue) {
    0 <= issue.index < |doc| && Mentions(fields, doc[issue.index], issue.place, issue.user)
    && !(Collected(fields, doc, issue.user) && !Absent(store, issue.user))
  }

  /** The pointwise reading: the id stands there, and the store answers without it. */
  predicate Unknown(fields: seq<FieldDef>, doc: seq<YamlCase>, store: Option<set<string>>, issue: Issue) {
    0 <= issue.index < |doc| && Mentions(fields, doc[issue.index], issue.place, issue.user) && Absent(store, issue.user)
  }

  // ----- Batch and pointwise agree -----

  predicate UniqueIds(fields: seq<FieldDef>) {
    forall i, j :: 0 <= i < j < |fields| ==> fields[i].id != fields[j].id
  }

  /** The field part of AppConfig.Validate: a schema that repeats a field id is refused at load. */
  method ValidateFieldIds(fields: seq<FieldDef>) returns (ok: bool)
    ensures ok <==> UniqueIds(fields)
  {
    var seen: set<string> := {};
    for i := 0 to |fields|
      invariant UniqueIds(fields[..i])
      invariant forall id :: id in seen <==> exists k :: 0 <= k < i && fields[k].id == id
    {
      if fields[i].id in seen {
        return false;
      }
      seen := seen + {fields[i].id};
    }
    assert fields[..|fields|] == fields;
    return true;
  }

  /** No field id is defined both as a user and as a multi-user field. */
  predicate OneUserType(fields: seq<FieldDef>) {
    forall fd, gd :: fd in fields && gd in fields && fd.id == gd.id && fd.kind.User? ==> !gd.kind.MultiUser?
  }

  lemma {:induction false} UserTypeIsDefined(fields: seq<FieldDef>, id: string)
    ensures UserType(fields, id).Some? ==>
              FieldDef(id, UserType(fields, id).value) in fields
              && (UserType(fields, id).value.User? || UserType(fields, id).value.MultiUser?)
    ensures FieldDef(id, User) in fields || FieldDef(id, MultiUser) in fields ==> UserType(fields, id).Some?
    decreases |fields|
  {
    if fields != [] {
      var rest, last := fields[..|fields| - 1], fields[|fields| - 1];
      assert fields == rest + [last];
      UserTypeIsDefined(rest, id);
    }
  }

  /** The batch asks for every id the per-case check reads. */
  lemma MentionedIsCollected(fields: seq<FieldDef>, doc: seq<YamlCase>, i: nat, place: Place, user: string)
    requires OneUserType(fields) && i < |doc| && Mentions(fields, doc[i], place, user)
    ensures Collected(fields, doc, user)
  {
    var c := doc[i];
    if !place.Assignee? {
      UserTypeIsDefined(fields, place.id);
      assert UserType(fields, place.id) == Some(if place.Field? then User else MultiUser);
      assert InField(UserType(fields, place.id).value, c.fields[place.id], user);
    }
    assert InCase(fields, c, user);
  }

  /** A file whose one value the batch reads by the other definition. */
  lemma MisreadField(fields: seq<FieldDef>, id: string) returns (doc: seq<YamlCase>, issue: Issue)
    requires FieldDef(id, User) in fields && FieldDef(id, MultiUser) in fields
    ensures issue.user == "U" && issue.index == 0 && |doc| == 1
    ensures Mentions(fields, doc[0], issue.place, "U") && !Collected(fields, doc, "U")
  {
    UserTypeIsDefined(fields, id);
    var v := if UserType(fields, id).value.User? then Strs(["U"]) else Str("U");
    issue := Issue(0, if UserType(fields, id).value.User? then FieldItem(id, 0) else Field(id), "U");
    doc := [YamlCase([], map[id := v])];
    assert CaseReads.StandsAt(Strs(["U"]), 0, "U");
  }

  /** As a function of any field list, the preview reports an id at exactly the places where it stands and is absent
      from the user store, and nothing at all when the lookup fails, exactly when no field id carries both user
      types. */
  lemma PreviewIsPointwiseExactlyWhen(fields: seq<FieldDef>)
    ensures (forall doc: seq<YamlCase>, store: Option<set<string>>, issue: Issue ::
               Reported(fields, doc, store, issue) <==> Unknown(fields, doc, store, issue))
            <==> OneUserType(fields)
  {
    if OneUserType(fields) {
      forall doc: seq<YamlCase>, issue: Issue | 0 <= issue.index < |doc|
        && Mentions(fields, doc[issue.index], issue.place, issue.user)
        ensures Collected(fields, doc, issue.user)
      {
        MentionedIsCollected(fields, doc, issue.index, issue.place, issue.user);
      }
    } else {
      var fd, gd :| fd in fields && gd in fields && fd.id == gd.id && fd.kind.User? && gd.kind.MultiUser?;
      var doc, issue := MisreadField(fields, fd.id);
      assert Reported(fields, doc, Some({"U"}), issue) && !Unknown(fields, doc, Some({"U"}), issue);
    }
  }

  /** The loader sees to that: with unique field ids the batch and the pointwise reading report the same. */
  lemma LoadedSchemaIsPointwise(fields: seq<FieldDef>, doc: seq<YamlCase>, store: Option<set<string>>)
    requires UniqueIds(fields)
    ensures forall issue :: Reported(fields, doc, store, issue) <==> Unknown(fields, doc, store, issue)
  {
    forall fd, gd | fd in fields && gd in fields && fd.id == gd.id
      ensures fd == gd
    {
      var i :| 0 <= i < |fields| && fields[i] == fd;
      var j :| 0 <= j < |fields| && fields[j] == gd;
    }
    PreviewIsPointwiseExactlyWhen(fields);
  }
}
