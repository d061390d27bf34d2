/** Reads that batch their lookups, against the one-at-a-time form each must agree with: the existence check of
    case references and GetCases (pkg/usecase/case.go), and the parent filter of action listings
    (pkg/usecase/action.go). */
module CaseReads {
  import opened Cases
  import opened Text

  /** Every workspace's cases; a lookup in a workspace listed in `down` fails. */
  datatype Repo = Repo(cases: map<string, map<int, Case>>, down: set<string>)

  /** GetByIDs: the documents that exist among the ids asked for. */
  function Fetch(repo: Repo, ws: string, ids: set<int>): (found: map<int, Case>)
    ensures forall id :: id in found <==> id in ids && ws in repo.cases && id in repo.cases[ws]
    ensures forall id :: id in found ==> found[id] == repo.cases[ws][id]
  {
    if ws !in repo.cases then map[]
    else map id | id in ids && id in repo.cases[ws] :: repo.cases[ws][id]
  }

  // ----- The ids one value refers to -----

  /** coerceUserIDSlice: the strings of a list value. */
  function Coerce(v: Value): seq<string> {
    match v
    case Strs(list) => list
    case Anys(items) => StringsOf(items)
    case _ => []
  }

  function StringsOf(items: seq<Option<string>>): (r: seq<string>)
    ensures forall s :: s in r <==> Some(s) in items
    decreases |items|
  {
    if items == [] then []
    else (if items[0].Some? then [items[0].value] else []) + StringsOf(items[1..])
  }

  /** The texts of a list value: all of a typed list, and of a raw list those of its items that are strings. */
  predicate Holds(v: Value, text: string) {
    (v.Strs? && text in v.list) || (v.Anys? && Some(text) in v.items)
  }

  /** The k-th text of a list value; in a raw list only strings count. */
  predicate StandsAt(v: Value, k: int, text: string) {
    (v.Strs? && 0 <= k < |v.list| && v.list[k] == text)
    || (v.Anys? && exists i :: 0 <= i < |v.items| && v.items[i] == Some(text) && k == |StringsBefore(v.items, i)|)
  }

  /** Where the strings before the i-th item stand. */
  function StringsBefore(items: seq<Option<string>>, i: int): set<int> {
    set j | 0 <= j < i && j < |items| && items[j].Some?
  }

  lemma StandsGrows(front: seq<Option<string>>, x: Option<string>, k: int, text: string)
    ensures StandsAt(Anys(front + [x]), k, text)
            <==> StandsAt(Anys(front), k, text) || (x == Some(text) && k == |StringsBefore(front, |front|)|)
    ensures StringsBefore(front + [x], |front| + 1)
            == StringsBefore(front, |front|) + if x.Some? then {|front|} else {}
  {
    var items := front + [x];
    assert forall i :: 0 <= i <= |front| ==> StringsBefore(items, i) == StringsBefore(front, i);
    assert forall i :: 0 <= i < |front| ==> items[i] == front[i];
    assert items[|front|] == x;
  }

  lemma OneMoreString(front: seq<Option<string>>, x: Option<string>)
    ensures StringsOf(front + [x]) == StringsOf(front) + if x.Some? then [x.value] else []
  {
    StringsJoin(front, [x]);
    assert [x][1..] == [];
  }

  /** The texts a raw list is read as are those that stand in it, each at its place. */
  lemma {:induction false} StringsStand(items: seq<Option<string>>, k: int, text: string)
    ensures |StringsOf(items)| == |StringsBefore(items, |items|)|
    ensures 0 <= k < |StringsOf(items)| && StringsOf(items)[k] == text <==> StandsAt(Anys(items), k, text)
    decreases |items|
  {
    if items == [] {
      assert StringsBefore(items, 0) == {};
    } else {
      var front, x := items[..|items| - 1], items[|items| - 1];
      assert items == front + [x];
      StringsStand(front, k, text);
      StandOnceMore(front, x, k, text);
    }
  }

  lemma StandOnceMore(front: seq<Option<string>>, x: Option<string>, k: int, text: string)
    requires |StringsOf(front)| == |StringsBefore(front, |front|)|
    requires 0 <= k < |StringsOf(front)| && StringsOf(front)[k] == text <==> StandsAt(Anys(front), k, text)
    ensures |StringsOf(front + [x])| == |StringsBefore(front + [x], |front| + 1)|
    ensures 0 <= k < |StringsOf(front + [x])| && StringsOf(front + [x])[k] == text
            <==> StandsAt(Anys(front + [x]), k, text)
  {
    OneMoreString(front, x);
    StandsGrows(front, x, k, text);
  }

  lemma {:induction false} StringsJoin(a: seq<Option<string>>, b: seq<Option<string>>)
    ensures StringsOf(a + b) == StringsOf(a) + StringsOf(b)
    decreases |a|
  {
    if a == [] {
      assert a + b == b;
    } else {
      StringsJoin(a[1..], b);
      assert (a + b)[1..] == a[1..] + b;
    }
  }

  /** What coerceUserIDSlice keeps, from the value alone: a typed list as it is; of a raw list the strings, in order and
      with repeats; and nothing of any other value. */
  lemma CoerceHolds(v: Value)
    ensures v.Strs? ==> Coerce(v) == v.list
    ensures v.Anys? && (forall k :: 0 <= k < |v.items| ==> v.items[k].Some?) ==>
              |Coerce(v)| == |v.items| && forall k :: 0 <= k < |v.items| ==> v.items[k] == Some(Coerce(v)[k])
    ensures !v.Strs? && !v.Anys? ==> Coerce(v) == []
    ensures forall text :: text in Coerce(v) <==> Holds(v, text)
    ensures forall k: int, text :: 0 <= k < |Coerce(v)| && Coerce(v)[k] == text <==> StandsAt(v, k, text)
  {
    if v.Anys? {
      forall k: int, text
        ensures 0 <= k < |Coerce(v)| && Coerce(v)[k] == text <==> StandsAt(v, k, text)
      {
        StringsStand(v.items, k, text);
      }
      if forall k :: 0 <= k < |v.items| ==> v.items[k].Some? {
        AllStrings(v.items);
      }
    }
  }

  lemma {:induction false} AllStrings(items: seq<Option<string>>)
    requires forall k :: 0 <= k < |items| ==> items[k].Some?
    ensures |StringsOf(items)| == |items| && forall k :: 0 <= k < |items| ==> items[k] == Some(StringsOf(items)[k])
    decreases |items|
  {
    if items != [] {
      AllStrings(items[1..]);
      assert forall k :: 0 < k < |items| ==> items[k] == items[1..][k - 1];
    }
  }

  /** A text the value of a reference field names its cases by. */
  predicate Names(fv: FieldValue, text: string) {
    text != "" && ((fv.kind.CaseRef? && fv.value == Str(text)) || (fv.kind.MultiCaseRef? && Holds(fv.value, text)))
  }

  /** The value has the right type and every text that is not empty is a case number. */
  ghost predicate Readable(fv: FieldValue) {
    (fv.kind.CaseRef? ==> fv.value.Nil? || fv.value.Str?) && forall t :: Names(fv, t) ==> ParseInt(t).Some?
  }

  ghost predicate RefersTo(fv: FieldValue, id: int) {
    exists t :: Names(fv, t) && ParseInt(t) == Some(id)
  }

  method CaseRefIds(fv: FieldValue) returns (r: Option<seq<int>>)
    ensures r.Some? <==> Readable(fv)
    ensures r.Some? ==> forall id :: id in r.value <==> RefersTo(fv, id)
  {
    if fv.value.Nil? {
      return Some([]);
    }
    match fv.kind
    case CaseRef =>
      if !fv.value.Str? {
        return None;
      }
      var text := fv.value.text;
      if text == "" {
        return Some([]);
      }
      var n := ParseInt(text);
      assert Names(fv, text);
      return if n.Some? then Some([n.value]) else None;
    case MultiCaseRef =>
      var texts := Coerce(fv.value);
      CoerceHolds(fv.value);
      var out := [];
      for i := 0 to |texts|
        invariant forall t :: t in texts[..i] && t != "" ==> ParseInt(t).Some?
        invariant forall id :: id in out <==> exists t :: t in texts[..i] && t != "" && ParseInt(t) == Some(id)
      {
        assert texts[..i + 1] == texts[..i] + [texts[i]];
        if texts[i] != "" {
          var n := ParseInt(texts[i]);
          if n.None? {
            assert Names(fv, texts[i]);
            return None;
          }
          out := out + [n.value];
        }
      }
      assert texts[..|texts|] == texts;
      return Some(out);
    case _ =>
      return Some([]);
  }

  // ----- Existence of references -----

  datatype FieldDef = FieldDef(id: string, referenceWorkspace: string)

  /** The workspace a field refers into; the last definition of an id wins. */
  function Target(fields: seq<FieldDef>, id: string): string
    decreases |fields|
  {
    if fields == [] then ""
    else if fields[|fields| - 1].id == id then fields[|fields| - 1].referenceWorkspace
    else Target(fields[..|fields| - 1], id)
  }

  /** A field refers into the workspace of its own definition, the last one if there are several. */
  lemma {:induction false} LastDefinitionIsTarget(fields: seq<FieldDef>, id: string, k: nat)
    requires k < |fields| && fields[k].id == id && forall j :: k < j < |fields| ==> fields[j].id != id
    ensures Target(fields, id) == fields[k].referenceWorkspace
    decreases |fields|
  {
    if k < |fields| - 1 {
      LastDefinitionIsTarget(fields[..|fields| - 1], id, k);
    }
  }

  lemma {:induction false} UndefinedHasNoTarget(fields: seq<FieldDef>, id: string)
    requires forall k :: 0 <= k < |fields| ==> fields[k].id != id
    ensures Target(fields, id) == ""
    decreases |fields|
  {
    if fields != [] {
      UndefinedHasNoTarget(fields[..|fields| - 1], id);
    }
  }

  predicate Checked(fields: seq<FieldDef>, fv: FieldValue) {
    (fv.kind.CaseRef? || fv.kind.MultiCaseRef?) && Target(fields, fv.fieldId) != ""
  }

  /** A case that exists, is not private and is not a draft. */
  predicate Referenceable(repo: Repo, ws: string, id: int) {
    ws in repo.cases && id in repo.cases[ws] && !repo.cases[ws][id].isPrivate && repo.cases[ws][id].status != Draft
  }

  datatype Violation = Violation(fieldId: string, ws: string, id: int)

  /** Some checked field refers to the case. */
  ghost predicate Asked(fields: seq<FieldDef>, values: seq<FieldValue>, v: Violation) {
    exists fv :: fv in values && Checked(fields, fv) && v.fieldId == fv.fieldId && v.ws == Target(fields, fv.fieldId)
                 && RefersTo(fv, v.id)
  }

  ghost predicate IsViolation(fields: seq<FieldDef>, repo: Repo, values: seq<FieldValue>, v: Violation) {
    Asked(fields, values, v) && !Referenceable(repo, v.ws, v.id)
  }

  /** Some field refers into the workspace. */
  ghost predicate Needed(fields: seq<FieldDef>, values: seq<FieldValue>, ws: string) {
    exists fv, id :: fv in values && Checked(fields, fv) && Target(fields, fv.fieldId) == ws && RefersTo(fv, id)
  }

  datatype Check = AllExist | Malformed | LookupFailed | Violated(list: seq<Violation>)

  datatype FieldRefs = FieldRefs(fieldId: string, ws: string, ids: seq<int>)

  ghost predicate Listed(work: seq<FieldRefs>, v: Violation) {
    exists fr :: fr in work && fr.fieldId == v.fieldId && fr.ws == v.ws && v.id in fr.ids
  }

  /** The work list the first loop builds. */
  ghost predicate Collects(fields: seq<FieldDef>, values: seq<FieldValue>, work: seq<FieldRefs>) {
    (forall v: Violation :: Listed(work, v) <==> Asked(fields, values, v))
    && (forall fr :: fr in work ==> fr.ids != [] && Needed(fields, values, fr.ws))
  }

  lemma CollectsOneMore(fields: seq<FieldDef>, values: seq<FieldValue>, fv: FieldValue, work: seq<FieldRefs>,
                        ids: seq<int>)
    requires Collects(fields, values, work) && Checked(fields, fv)
    requires forall id :: id in ids <==> RefersTo(fv, id)
    ensures Collects(fields, values + [fv],
                     if ids == [] then work else work + [FieldRefs(fv.fieldId, Target(fields, fv.fieldId), ids)])
  {
    var ws := Target(fields, fv.fieldId);
    var all, more := values + [fv], if ids == [] then work else work + [FieldRefs(fv.fieldId, ws, ids)];
    assert fv in all;
    if ids != [] {
      assert RefersTo(fv, ids[0]);
      assert FieldRefs(fv.fieldId, ws, ids) in more;
    }
    forall v: Violation
      ensures Listed(more, v) <==> Asked(fields, all, v)
    {
      if Asked(fields, values, v) {
        assert Asked(fields, all, v);
      }
    }
    forall fr | fr in more
      ensures fr.ids != [] && Needed(fields, all, fr.ws)
    {
      if fr in work {
        assert Needed(fields, values, fr.ws);
      }
    }
  }

  lemma CollectsSkip(fields: seq<FieldDef>, values: seq<FieldValue>, fv: FieldValue, work: seq<FieldRefs>)
    requires Collects(fields, values, work) && !Checked(fields, fv)
    ensures Collects(fields, values + [fv], work)
  {
    forall v: Violation
      ensures Asked(fields, values, v) <==> Asked(fields, values + [fv], v)
    {
    }
    forall ws | Needed(fields, values, ws)
      ensures Needed(fields, values + [fv], ws)
    {
      var g, id :| g in values && Checked(fields, g) && Target(fields, g.fieldId) == ws && RefersTo(g, id);
      assert g in values + [fv];
    }
  }

  /** verifyCaseRefsExist. Every reference workspace is fetched at most once; the outcome is the pointwise one:
      a malformed value wins, then a failed lookup, then the references that are not referenceable. */
  method VerifyCaseRefsExist(schema: Option<seq<FieldDef>>, values: seq<FieldValue>, repo: Repo)
    returns (r: Check, fetches: seq<string>)
    ensures schema.None? ==> r.AllExist? && fetches == []
    ensures forall i, j :: 0 <= i < j < |fetches| ==> fetches[i] != fetches[j]
    ensures schema.Some? ==>
              (r.Malformed? <==> exists fv :: fv in values && Checked(schema.value, fv) && !Readable(fv))
    ensures schema.Some? && !r.Malformed? ==>
              (r.LookupFailed? <==> exists ws :: ws in repo.down && Needed(schema.value, values, ws))
    ensures schema.Some? && r.Violated? ==>
              r.list != [] && forall v :: v in r.list <==> IsViolation(schema.value, repo, values, v)
    ensures schema.Some? && r.AllExist? ==> forall v :: !IsViolation(schema.value, repo, values, v)
  {
    fetches := [];
    if schema.None? {
      return AllExist, fetches;
    }
    var fields := schema.value;
    var idsByWs: map<string, set<int>> := map[];
    var work: seq<FieldRefs> := [];
    for i := 0 to |values|
      invariant forall fv :: fv in values[..i] && Checked(fields, fv) ==> Readable(fv)
      invariant Collects(fields, values[..i], work)
      invariant Grouped(work, idsByWs)
    {
      var fv := values[i];
      assert values[..i + 1] == values[..i] + [fv];
      if !Checked(fields, fv) {
        CollectsSkip(fields, values[..i], fv, work);
        continue;
      }
      var ids := CaseRefIds(fv);
      if ids.None? {
        assert fv in values;
        return Malformed, fetches;
      }
      CollectsOneMore(fields, values[..i], fv, work, ids.value);
      if ids.value != [] {
        var ws := Target(fields, fv.fieldId);
        idsByWs := AddIds(work, idsByWs, fv.fieldId, ws, ids.value);
        work := work + [FieldRefs(fv.fieldId, ws, ids.value)];
      }
    }
    assert values[..|values|] == values;
    var failed;
    var fetched;
    failed, fetched, fetches := FetchEach(idsByWs, repo);
    if failed {
      var ws :| ws in idsByWs && ws in repo.down;
      GroupedMeansNeeded(fields, values, work, idsByWs, ws);
      return Check.LookupFailed, fetches;
    }
    forall ws | Needed(fields, values, ws)
      ensures ws in idsByWs
    {
      NeededMeansGrouped(fields, values, work, idsByWs, ws);
    }
    var list := Inspect(work, repo, idsByWs, fetched);
    forall v: Violation
      ensures v in list <==> IsViolation(fields, repo, values, v)
    {
      assert Listed(work, v) <==> Asked(fields, values, v);
    }
    if list != [] {
      return Violated(list), fetches;
    }
    return AllExist, fetches;
  }

  /** idsByWs holds exactly the ids of the work list, workspace by workspace. */
  ghost predicate Grouped(work: seq<FieldRefs>, idsByWs: map<string, set<int>>) {
    (forall fr, id :: fr in work && id in fr.ids ==> fr.ws in idsByWs && id in idsByWs[fr.ws])
    && (forall fr :: fr in work ==> fr.ws in idsByWs)
    && (forall ws :: ws in idsByWs ==> exists fr :: fr in work && fr.ws == ws)
  }

  method AddIds(ghost work: seq<FieldRefs>, idsByWs: map<string, set<int>>, ghost fieldId: string, ws: string,
                ids: seq<int>)
    returns (r: map<string, set<int>>)
    requires Grouped(work, idsByWs)
    ensures Grouped(work + [FieldRefs(fieldId, ws, ids)], r)
  {
    var known := if ws in idsByWs then idsByWs[ws] else {};
    r := idsByWs[ws := known + set id | id in ids];
    ghost var more := work + [FieldRefs(fieldId, ws, ids)];
    assert FieldRefs(fieldId, ws, ids) in more;
    forall w | w in r
      ensures exists fr :: fr in more && fr.ws == w
    {
      if w in idsByWs {
        var fr :| fr in work && fr.ws == w;
        assert fr in more;
      }
    }
  }

  lemma GroupedMeansNeeded(fields: seq<FieldDef>, values: seq<FieldValue>, work: seq<FieldRefs>,
                           idsByWs: map<string, set<int>>, ws: string)
    requires Collects(fields, values, work) && Grouped(work, idsByWs) && ws in idsByWs
    ensures Needed(fields, values, ws)
  {
    var fr :| fr in work && fr.ws == ws;
  }

  lemma NeededMeansGrouped(fields: seq<FieldDef>, values: seq<FieldValue>, work: seq<FieldRefs>,
                           idsByWs: map<string, set<int>>, ws: string)
    requires Collects(fields, values, work) && Grouped(work, idsByWs) && Needed(fields, values, ws)
    ensures ws in idsByWs
  {
    var fv, id :| fv in values && Checked(fields, fv) && Target(fields, fv.fieldId) == ws && RefersTo(fv, id);
    assert Listed(work, Violation(fv.fieldId, ws, id)) by {
      assert Asked(fields, values, Violation(fv.fieldId, ws, id));
    }
  }

  /** One GetByIDs call a workspace, in whatever order the map yields them. */
  method FetchEach(idsByWs: map<string, set<int>>, repo: Repo)
    returns (failed: bool, fetched: map<string, map<int, Case>>, fetches: seq<string>)
    ensures failed <==> exists ws :: ws in idsByWs && ws in repo.down
    ensures !failed ==> forall ws :: ws in idsByWs ==> ws in fetched && fetched[ws] == Fetch(repo, ws, idsByWs[ws])
    ensures forall i, j :: 0 <= i < j < |fetches| ==> fetches[i] != fetches[j]
  {
    fetched, fetches := map[], [];
    var pending := idsByWs.Keys;
    while pending != {}
      invariant pending <= idsByWs.Keys
      invariant forall ws :: ws in idsByWs && ws !in pending ==>
                               ws in fetched && fetched[ws] == Fetch(repo, ws, idsByWs[ws]) && ws !in repo.down
      invariant forall ws :: ws in fetches ==> ws !in pending
      invariant forall i, j :: 0 <= i < j < |fetches| ==> fetches[i] != fetches[j]
    {
      var ws :| ws in pending;
      pending := pending - {ws};
      fetches := fetches + [ws];
      if ws in repo.down {
        return true, fetched, fetches;
      }
      fetched := fetched[ws := Fetch(repo, ws, idsByWs[ws])];
    }
    failed := false;
  }

  /** The last loops: one violation for each reference that is missing, private or a draft. */
  method Inspect(work: seq<FieldRefs>, repo: Repo, ghost idsByWs: map<string, set<int>>,
                 fetched: map<string, map<int, Case>>)
    returns (list: seq<Violation>)
    requires Grouped(work, idsByWs)
    requires forall ws :: ws in idsByWs ==> ws in fetched && fetched[ws] == Fetch(repo, ws, idsByWs[ws])
    ensures forall v :: v in list <==> !Referenceable(repo, v.ws, v.id) && Listed(work, v)
  {
    list := [];
    for i := 0 to |work|
      invariant forall v :: v in list <==> !Referenceable(repo, v.ws, v.id) && Listed(work[..i], v)
    {
      var fr := work[i];
      assert fr in work;
      var bad := InspectField(fr, repo, idsByWs[fr.ws], fetched[fr.ws]);
      assert work[..i + 1] == work[..i] + [fr];
      list := list + bad;
      forall v: Violation
        ensures Listed(work[..i + 1], v)
                <==> Listed(work[..i], v) || (v.fieldId == fr.fieldId && v.ws == fr.ws && v.id in fr.ids)
      {
        assert fr in work[..i + 1];
      }
    }
    assert work[..|work|] == work;
  }

  method InspectField(fr: FieldRefs, repo: Repo, ghost asked: set<int>, found: map<int, Case>)
    returns (bad: seq<Violation>)
    requires forall id :: id in fr.ids ==> id in asked
    requires found == Fetch(repo, fr.ws, asked)
    ensures forall v :: v in bad <==>
                          v.fieldId == fr.fieldId && v.ws == fr.ws && v.id in fr.ids
                            && !Referenceable(repo, fr.ws, v.id)
  {
    bad := [];
    for j := 0 to |fr.ids|
      invariant forall v :: v in bad <==> v.fieldId == fr.fieldId && v.ws == fr.ws && v.id in fr.ids[..j]
                                          && !Referenceable(repo, fr.ws, v.id)
    {
      var id := fr.ids[j];
      assert fr.ids[..j + 1] == fr.ids[..j] + [id];
      if id !in found || found[id].isPrivate || found[id].status == Draft {
        bad := bad + [Violation(fr.fieldId, fr.ws, id)];
      }
    }
    assert fr.ids[..|fr.ids|] == fr.ids;
  }

  // ----- GetCase and GetCases -----

  /** What GetCase returns: nothing for a missing case or another member's private draft. */
  function GetCase(cases: map<int, Case>, id: int, who: Actor): Option<Case> {
    if id !in cases || View(cases[id], who).Hidden? then None else Some(View(cases[id], who).record)
  }

  /** GetCase mapped over the ids, not-found answers dropped. */
  function Listing(cases: map<int, Case>, ids: seq<int>, who: Actor): seq<Case>
    decreases |ids|
  {
    if ids == [] then []
    else
      var last := GetCase(cases, ids[|ids| - 1], who);
      Listing(cases, ids[..|ids| - 1], who) + if last.Some? then [last.value] else []
  }

  /** The single batch lookup answers what id-by-id reads would, order and duplicates kept. */
  method GetCases(repo: Repo, ws: string, ids: seq<int>, who: Actor) returns (r: Option<seq<Case>>)
    ensures r.None? <==> ids != [] && ws in repo.down
    ensures r.Some? ==> r.value == Listing(if ws in repo.cases then repo.cases[ws] else map[], ids, who)
  {
    if ids == [] {
      return Some([]);
    }
    if ws in repo.down {
      return None;
    }
    var found := Fetch(repo, ws, set id | id in ids);
    ghost var cases := if ws in repo.cases then repo.cases[ws] else map[];
    var out := [];
    for i := 0 to |ids|
      invariant out == Listing(cases, ids[..i], who)
    {
      assert ids[..i + 1][..i] == ids[..i];
      if ids[i] !in found {
        continue;
      }
      var c := found[ids[i]];
      if c.IsDraft() && c.isPrivate && who.Member? && c.reporter != who.sub {
        continue;
      }
      if who.Member? && !c.IsDraft() && !IsCaseAccessible(c, who.sub) {
        out := out + [Restrict(c)];
        continue;
      }
      out := out + [c];
    }
    assert ids[..|ids|] == ids;
    return Some(out);
  }

  /** Asking in two batches or one makes no difference. */
  lemma {:induction false} ListingSplits(cases: map<int, Case>, a: seq<int>, b: seq<int>, who: Actor)
    ensures Listing(cases, a + b, who) == Listing(cases, a, who) + Listing(cases, b, who)
    decreases |b|
  {
    if b == [] {
      assert a + b == a;
    } else {
      assert (a + b)[..|a + b| - 1] == a + b[..|b| - 1];
      ListingSplits(cases, a, b[..|b| - 1], who);
    }
  }

  /** Nobody but its reporter learns that a private draft exists, and nobody outside a private case's channel
      reads its content. */
  lemma {:induction false} ListingKeepsSecrets(cases: map<int, Case>, ids: seq<int>, sub: string, shown: Case)
    requires forall id :: id in cases ==> cases[id].id == id
    requires shown in Listing(cases, ids, Member(sub))
    ensures shown.id in ids && shown.id in cases
    ensures var c := cases[shown.id];
            (c.isPrivate && c.IsDraft() ==> c.reporter == sub)
            && (shown == c || (shown == Restrict(c) && c.isPrivate && sub !in c.channelUsers))
    decreases |ids|
  {
    var n := |ids| - 1;
    if shown in Listing(cases, ids[..n], Member(sub)) {
      ListingKeepsSecrets(cases, ids[..n], sub, shown);
    } else {
      assert GetCase(cases, ids[n], Member(sub)) == Some(shown);
    }
  }

  // ----- Action listings -----

  datatype ActionRow = ActionRow(id: int, caseId: int)

  /** The parent shows its actions to the caller. */
  predicate ParentAdmits(parents: map<int, Case>, caseId: int, who: Actor, excludePrivate: bool) {
    caseId in parents && !(excludePrivate && parents[caseId].isPrivate)
    && (who.Member? ==> IsCaseAccessible(parents[caseId], who.sub))
  }

  function Admitted(rows: seq<ActionRow>, parents: map<int, Case>, who: Actor,
                    excludePrivate: bool): (r: seq<ActionRow>)
    decreases |rows|
  {
    if rows == [] then []
    else
      var last := rows[|rows| - 1];
      Admitted(rows[..|rows| - 1], parents, who, excludePrivate)
      + if ParentAdmits(parents, last.caseId, who, excludePrivate) then [last] else []
  }

  /** filterActionsByParentAccess */
  method FilterByParentAccess(rows: seq<ActionRow>, repo: Repo, ws: string, who: Actor, excludePrivate: bool)
    returns (r: Option<seq<ActionRow>>)
    ensures r == Filtered(rows, repo, ws, who, excludePrivate)
  {
    if who.System? && !excludePrivate {
      return Some(rows);
    }
    var ids := set a | a in rows :: a.caseId;
    if rows != [] {
      assert rows[0] in rows && rows[0].caseId in ids;
    }
    if ids != {} && ws in repo.down {
      return None;
    }
    var found := Fetch(repo, ws, ids);
    ghost var parents := if ws in repo.cases then repo.cases[ws] else map[];
    var out := [];
    for i := 0 to |rows|
      invariant out == Admitted(rows[..i], parents, who, excludePrivate)
    {
      assert rows[..i + 1][..i] == rows[..i];
      var a := rows[i];
      assert a.caseId in ids;
      if a.caseId !in found {
        continue;
      }
      if excludePrivate && found[a.caseId].isPrivate {
        continue;
      }
      if who.Member? && !IsCaseAccessible(found[a.caseId], who.sub) {
        continue;
      }
      out := out + [a];
    }
    assert rows[..|rows|] == rows;
    return Some(out);
  }

  /** A batch lookup without ids asks the store nothing, so it cannot fail. */
  function Filtered(rows: seq<ActionRow>, repo: Repo, ws: string, who: Actor,
                    excludePrivate: bool): Option<seq<ActionRow>>
  {
    if who.System? && !excludePrivate then Some(rows)
    else if rows != [] && ws in repo.down then None
    else Some(Admitted(rows, if ws in repo.cases then repo.cases[ws] else map[], who, excludePrivate))
  }

  /** ListActions, where `listed` is what the action store answers. */
  function ListActions(listed: Option<seq<ActionRow>>, repo: Repo, ws: string, who: Actor,
                       excludePrivate: bool): Option<seq<ActionRow>>
  {
    if listed.None? then None else Filtered(listed.value, repo, ws, who, excludePrivate)
  }

  /** GetActionsByCase: a parent that cannot be read, or does not admit the caller, hides the actions before the
      action store is asked. */
  function GetActionsByCase(listed: Option<seq<ActionRow>>, repo: Repo, ws: string, caseId: int, who: Actor,
                            excludePrivate: bool)
    : Option<seq<ActionRow>>
  {
    if ws in repo.down || ws !in repo.cases || caseId !in repo.cases[ws] then Some([])
    else if excludePrivate && repo.cases[ws][caseId].isPrivate then Some([])
    else if who.Member? && !IsCaseAccessible(repo.cases[ws][caseId], who.sub) then Some([])
    else listed
  }

  lemma {:induction false} OneParentDecides(rows: seq<ActionRow>, parents: map<int, Case>, caseId: int, who: Actor,
                                            excludePrivate: bool)
    requires forall a :: a in rows ==> a.caseId == caseId
    ensures Admitted(rows, parents, who, excludePrivate)
            == if ParentAdmits(parents, caseId, who, excludePrivate) then rows else []
    decreases |rows|
  {
    if rows != [] {
      var rest := rows[..|rows| - 1];
      assert rows == rest + [rows[|rows| - 1]];
      OneParentDecides(rest, parents, caseId, who, excludePrivate);
    }
  }

  /** The two listings of one case's actions agree exactly when: with the action store failing, the parent can be
      read and admits the caller, so that both fail; with nothing to show, always; otherwise, for a system caller that
      is not filtered, the parent can be read; and for every other caller, the parent lookup does not fail. */
  lemma ListingsAgreeExactlyWhen(listed: Option<seq<ActionRow>>, repo: Repo, ws: string, caseId: int, who: Actor,
                                 excludePrivate: bool)
    requires listed.Some? ==> forall a :: a in listed.value ==> a.caseId == caseId
    ensures var parents := if ws in repo.cases then repo.cases[ws] else map[];
            ListActions(listed, repo, ws, who, excludePrivate)
              == GetActionsByCase(listed, repo, ws, caseId, who, excludePrivate)
            <==> if listed.None? then ws !in repo.down && ParentAdmits(parents, caseId, who, excludePrivate)
                 else if listed.value == [] then true
                 else if who.System? && !excludePrivate then ws !in repo.down && caseId in parents
                 else ws !in repo.down
  {
    if listed.Some? {
      OneParentDecides(listed.value, if ws in repo.cases then repo.cases[ws] else map[], caseId, who, excludePrivate);
    }
  }
}
