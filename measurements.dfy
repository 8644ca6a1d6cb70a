/** The measurement record lifecycle of the `proportal-measurements`
    serverless handler: the SiteMeasure gate, creation with its validation
    and defaults, the draft-only partial update, the draft-to-archived soft
    delete and the cart and history listings.

    The measurements collection is the map `MeasurementStore.docs` from id
    to record; the id the database assigns to a new record and the clock
    are parameters. */
module Measurements {
  import opened Common
  import Auth
  import Text

  /** A record's lifecycle status. Only `draft` and `archived` are ever
      written here; any other stored value is kept as `Other`. */
  datatype MeasureStatus = Draft | Archived | Other(name: string)

  datatype Creator = Creator(userId: string, name: string)

  /** A stored measurement, which is also what `formatMeasurement` sends. */
  datatype Measurement = Measurement(
    id: string,
    contractorId: string,
    projectId: string,
    labelText: string,
    createdBy: Creator,
    mode: string,
    coordinates: seq<GeoPoint>,
    areaSqFt: real,
    areaSqM: real,
    depthInches: real,
    materialId: string,
    materialName: string,
    calculatedQty: Qty,
    adjustedQty: Option<Qty>,
    notes: string,
    status: MeasureStatus,
    orderId: Option<string>,
    mapSnapshot: Option<string>,
    createdAt: int,
    updatedAt: int)

  /** A JSON request body; `None` is an absent (`undefined`) field. The two
      fields a client may set to `null` carry an inner option. */
  datatype Body = Body(
    action: Option<string>,
    id: Option<string>,
    labelText: Option<string>,
    projectId: Option<string>,
    mode: Option<string>,
    coordinates: Option<seq<GeoPoint>>,
    areaSqFt: Option<real>,
    areaSqM: Option<real>,
    depthInches: Option<real>,
    materialId: Option<string>,
    materialName: Option<string>,
    calculatedQty: Option<Qty>,
    adjustedQty: Option<Option<Qty>>,
    notes: Option<string>,
    mapSnapshot: Option<Option<string>>)

  datatype QueryParams = QueryParams(id: Option<string>, list: Option<string>, projectId: Option<string>)

  datatype Request = Request(httpMethod: string, header: string, query: QueryParams, body: Body)

  /** What a successful reply carries. */
  datatype Payload =
    | Done                        // `{ success: true }`, or the empty OPTIONS reply
    | Single(measurement: Measurement)
    | Listed(ids: set<string>)
    | Created(newId: string)

  const NotEnabled := "SiteMeasure not enabled for this contractor"
  const NotFound := "Measurement not found"
  const IdRequired := "id is required"

  // ---------------------------------------------------------------------------
  // Gate

  /** Foremen and supervisors of contractors with SiteMeasure enabled pass;
      everyone else gets 401 or 403. */
  function Gate(header: string, decode: string -> Option<Auth.Claims>): (r: Auth.AuthResult)
    ensures r.Authorized? ==> r.user.siteMeasureEnabled && r.user.role in ["foreman", "supervisor"]
    ensures r.Authorized? <==> Auth.VerifyToken(header, Some(["foreman", "supervisor"]), decode).Authorized?
                               && Auth.VerifyToken(header, Some(["foreman", "supervisor"]), decode).user.siteMeasureEnabled
    ensures r.Authorized? ==> r == Auth.VerifyToken(header, Some(["foreman", "supervisor"]), decode)
  {
    var auth := Auth.VerifyToken(header, Some(["foreman", "supervisor"]), decode);
    if auth.Authorized? && !auth.user.siteMeasureEnabled then Auth.Denied(NotEnabled) else auth
  }

  /** The status code of a refused gate. */
  function GateStatus(r: Auth.AuthResult): int {
    if r == Auth.Denied(NotEnabled) then 403 else 401
  }

  // ---------------------------------------------------------------------------
  // Listings

  predicate InCart(m: Measurement, contractorId: string, projectId: string) {
    m.contractorId == contractorId && m.projectId == projectId && m.status == Draft
  }

  predicate InHistory(m: Measurement, contractorId: string, projectId: string) {
    m.contractorId == contractorId && m.projectId == projectId && m.status != Archived
  }

  /** `?list=cart`: the project's drafts. */
  function CartIds(docs: map<string, Measurement>, contractorId: string, projectId: string): (ids: set<string>)
    ensures ids <= docs.Keys
    ensures forall id :: id in docs ==>
              (id in ids <==> docs[id].contractorId == contractorId && docs[id].projectId == projectId
                              && docs[id].status == Draft)
  {
    set id | id in docs && InCart(docs[id], contractorId, projectId)
  }

  /** `?list=history`: the project's records that are not archived. */
  function HistoryIds(docs: map<string, Measurement>, contractorId: string, projectId: string): (ids: set<string>)
    ensures ids <= docs.Keys
    ensures forall id :: id in docs ==>
              (id in ids <==> docs[id].contractorId == contractorId && docs[id].projectId == projectId
                              && docs[id].status != Archived)
  {
    set id | id in docs && InHistory(docs[id], contractorId, projectId)
  }

  /** Every cart entry also shows in the history. */
  lemma CartWithinHistory(docs: map<string, Measurement>, contractorId: string, projectId: string)
    ensures CartIds(docs, contractorId, projectId) <= HistoryIds(docs, contractorId, projectId)
  {
  }

  // ---------------------------------------------------------------------------
  // Create

  /** The 400 checks of a create, in the handler's order: the required
      fields (`areaSqFt` and `depthInches` only need to be present, so 0
      passes), then the mode whitelist. */
  function CreateError(b: Body): (e: Option<string>)
    ensures e == Some("Missing required fields") <==>
              || !Truthy(b.labelText) || !Truthy(b.projectId) || !Truthy(b.mode) || b.coordinates.None?
              || b.areaSqFt.None? || b.depthInches.None?
              || !Truthy(b.materialId) || !Truthy(b.materialName) || b.calculatedQty.None?
    ensures e.None? <==> MissingNothing(b) && b.mode.value in {"gps_walk", "aerial_trace"}
  {
    if !MissingNothing(b) then Some("Missing required fields")
    else if b.mode.value !in {"gps_walk", "aerial_trace"} then Some("mode must be gps_walk or aerial_trace")
    else None
  }

  predicate MissingNothing(b: Body) {
    && Truthy(b.labelText) && Truthy(b.projectId) && Truthy(b.mode) && b.coordinates.Some?
    && b.areaSqFt.Some? && b.depthInches.Some?
    && Truthy(b.materialId) && Truthy(b.materialName) && b.calculatedQty.Some?
  }

  /** The record a valid create inserts. */
  function NewRecord(user: Auth.Claims, b: Body, id: string, now: int): (m: Measurement)
    requires CreateError(b).None?
    ensures m.id == id && m.status == Draft && m.adjustedQty.None? && m.orderId.None?
    ensures m.contractorId == user.contractorId && m.createdBy == Creator(user.userId, user.name)
    ensures m.projectId == b.projectId.value && m.mode == b.mode.value && m.mode in {"gps_walk", "aerial_trace"}
    ensures m.coordinates == b.coordinates.value && m.areaSqFt == b.areaSqFt.value && m.depthInches == b.depthInches.value
    ensures m.materialId == b.materialId.value && m.materialName == b.materialName.value
    ensures m.calculatedQty == b.calculatedQty.value
    ensures m.labelText == Text.Trim(b.labelText.value)
    ensures m.notes == b.notes.GetOr("")
    ensures m.areaSqM == b.areaSqM.GetOr(0.0)
    ensures m.mapSnapshot.Some? <==> b.mapSnapshot.Some? && Truthy(b.mapSnapshot.value)
    ensures m.mapSnapshot.Some? ==> m.mapSnapshot == b.mapSnapshot.value
    ensures m.createdAt == now && m.updatedAt == now
  {
    Measurement(
      id, user.contractorId, b.projectId.value, Text.Trim(b.labelText.value),
      Creator(user.userId, user.name), b.mode.value, b.coordinates.value,
      b.areaSqFt.value, b.areaSqM.GetOr(0.0), b.depthInches.value,
      b.materialId.value, b.materialName.value, b.calculatedQty.value,
      None, OrElse(b.notes.GetOr(""), ""), Draft, None,
      if b.mapSnapshot.Some? && Truthy(b.mapSnapshot.value) then b.mapSnapshot.value else None,
      now, now)
  }

  /** The label is checked before it is trimmed: a label of spaces passes
      validation and is stored empty. */
  lemma BlankLabelStoredEmpty(user: Auth.Claims, b: Body, id: string, now: int)
    requires CreateError(b).None? && b.labelText == Some("  ")
    ensures NewRecord(user, b, id, now).labelText == ""
  {
    assert Text.IsJsSpace(' ');
    assert Text.SkipSpaces("  ", 2) == 2;
    assert Text.SkipSpaces("  ", 1) == 2;
    assert Text.SkipSpaces("  ", 0) == 2;
    assert Text.DropTrailingSpaces("  ", 2, 2) == 2;
  }

  /** A new draft joins its project's cart and history at once (a created
      record is one: `NewRecord` is a draft). */
  lemma InsertDraftJoinsLists(docs: map<string, Measurement>, id: string, m: Measurement)
    requires id !in docs && m.status == Draft
    ensures CartIds(docs[id := m], m.contractorId, m.projectId) == CartIds(docs, m.contractorId, m.projectId) + {id}
    ensures HistoryIds(docs[id := m], m.contractorId, m.projectId) == HistoryIds(docs, m.contractorId, m.projectId) + {id}
  {
    assert InCart(m, m.contractorId, m.projectId) && InHistory(m, m.contractorId, m.projectId);
  }

  // ---------------------------------------------------------------------------
  // Partial update

  /** The keys of a record's document, named as in the collection. */
  datatype Field =
    | UpdatedAt | Label | DepthInches | MaterialId | MaterialName
    | CalculatedQty | AdjustedQty | Notes | MapSnapshot
    | Status | AreaSqFt | AreaSqM | Coordinates | Mode
    | ContractorId | ProjectId | CreatedBy | OrderId | CreatedAt

  /** The fields a PUT may change. */
  const Editable: set<Field> :=
    {Label, DepthInches, MaterialId, MaterialName, CalculatedQty, AdjustedQty, Notes, MapSnapshot}

  /** The fields no PUT touches. */
  const Frozen: set<Field> :=
    {Status, AreaSqFt, AreaSqM, Coordinates, Mode, ContractorId, ProjectId, CreatedBy, OrderId, CreatedAt}

  /** The body defines field `f` (`body[f] !== undefined`). */
  predicate IsDefined(b: Body, f: Field) {
    match f
    case Label => b.labelText.Some?
    case DepthInches => b.depthInches.Some?
    case MaterialId => b.materialId.Some?
    case MaterialName => b.materialName.Some?
    case CalculatedQty => b.calculatedQty.Some?
    case AdjustedQty => b.adjustedQty.Some?
    case Notes => b.notes.Some?
    case MapSnapshot => b.mapSnapshot.Some?
    case _ => false
  }

  /** The editable fields the body defines. */
  function DefinedFields(b: Body): (fields: set<Field>)
    ensures fields <= Editable
    ensures forall f :: f in fields <==> f in Editable && IsDefined(b, f)
  {
    set f | f in Editable && IsDefined(b, f)
  }

  /** A `$set` object: `updatedAt` is always present, every other key
      exactly when its option is `Some`. */
  datatype Patch = Patch(
    updatedAt: int,
    labelText: Option<string>,
    depthInches: Option<real>,
    materialId: Option<string>,
    materialName: Option<string>,
    calculatedQty: Option<Qty>,
    adjustedQty: Option<Option<Qty>>,
    notes: Option<string>,
    mapSnapshot: Option<Option<string>>)

  /** The patch has key `f`. */
  predicate Has(p: Patch, f: Field) {
    match f
    case UpdatedAt => true
    case Label => p.labelText.Some?
    case DepthInches => p.depthInches.Some?
    case MaterialId => p.materialId.Some?
    case MaterialName => p.materialName.Some?
    case CalculatedQty => p.calculatedQty.Some?
    case AdjustedQty => p.adjustedQty.Some?
    case Notes => p.notes.Some?
    case MapSnapshot => p.mapSnapshot.Some?
    case _ => false
  }

  /** `Object.keys($set)`. */
  function Keys(p: Patch): (keys: set<Field>)
    ensures UpdatedAt in keys && keys <= {UpdatedAt} + Editable
  {
    {UpdatedAt} + set f | f in Editable && Has(p, f)
  }

  /** The `$set` a body asks for: the clock, and each defined editable
      field with the body's value, the label trimmed. */
  function SetOf(b: Body, now: int): (p: Patch)
    ensures Keys(p) == {UpdatedAt} + DefinedFields(b)
  {
    var p := Patch(now, if b.labelText.Some? then Some(Text.Trim(b.labelText.value)) else None,
                   b.depthInches, b.materialId, b.materialName, b.calculatedQty, b.adjustedQty,
                   b.notes, b.mapSnapshot);
    assert forall f :: Has(p, f) <==> f == UpdatedAt || IsDefined(b, f);
    p
  }

  /** The `$set` object, built one defined field at a time. */
  method BuildSet(b: Body, now: int) returns (p: Patch)
    ensures p == SetOf(b, now)
    ensures Keys(p) == {UpdatedAt} + DefinedFields(b)
  {
    p := Patch(now, None, None, None, None, None, None, None, None);
    if b.labelText.Some? { p := p.(labelText := Some(Text.Trim(b.labelText.value))); }
    if b.depthInches.Some? { p := p.(depthInches := b.depthInches); }
    if b.materialId.Some? { p := p.(materialId := b.materialId); }
    if b.materialName.Some? { p := p.(materialName := b.materialName); }
    if b.calculatedQty.Some? { p := p.(calculatedQty := b.calculatedQty); }
    if b.adjustedQty.Some? { p := p.(adjustedQty := b.adjustedQty); }
    if b.notes.Some? { p := p.(notes := b.notes); }
    if b.mapSnapshot.Some? { p := p.(mapSnapshot := b.mapSnapshot); }
  }

  /** The `$set` holds only `updatedAt` exactly when the body defines no
      editable field: the case answered 400 "No fields to update". */
  lemma EmptySet(b: Body, now: int)
    ensures |Keys(SetOf(b, now))| == 1 <==> DefinedFields(b) == {}
  {
    var keys := Keys(SetOf(b, now));
    if DefinedFields(b) != {} {
      var f :| f in DefinedFields(b);
      assert {UpdatedAt, f} <= keys;
      assert |{UpdatedAt, f}| == 2;
    } else {
      assert keys == {UpdatedAt};
    }
  }

  /** A `$set` never names the status, the area, the outline, the mode or
      the ownership of a record. */
  lemma SetLeavesFrozenFields(b: Body, now: int)
    ensures Keys(SetOf(b, now)) !! Frozen
  {
    assert ({UpdatedAt} + Editable) !! Frozen;
  }

  /** `updateOne(..., { $set })` on one record: each key the patch has is
      overwritten, every other field is kept. */
  function ApplySet(m: Measurement, p: Patch): (r: Measurement)
    ensures r.id == m.id && r.contractorId == m.contractorId && r.projectId == m.projectId
    ensures r.status == m.status && r.mode == m.mode && r.coordinates == m.coordinates
    ensures r.areaSqFt == m.areaSqFt && r.areaSqM == m.areaSqM
    ensures r.createdBy == m.createdBy && r.orderId == m.orderId && r.createdAt == m.createdAt
    ensures r.updatedAt == p.updatedAt
    ensures p.labelText.Some? ==> r.labelText == p.labelText.value
    ensures p.labelText.None? ==> r.labelText == m.labelText
    ensures p.depthInches.Some? ==> r.depthInches == p.depthInches.value
    ensures p.depthInches.None? ==> r.depthInches == m.depthInches
    ensures p.materialId.Some? ==> r.materialId == p.materialId.value
    ensures p.materialId.None? ==> r.materialId == m.materialId
    ensures p.materialName.Some? ==> r.materialName == p.materialName.value
    ensures p.materialName.None? ==> r.materialName == m.materialName
    ensures p.calculatedQty.Some? ==> r.calculatedQty == p.calculatedQty.value
    ensures p.calculatedQty.None? ==> r.calculatedQty == m.calculatedQty
    ensures p.adjustedQty.Some? ==> r.adjustedQty == p.adjustedQty.value
    ensures p.adjustedQty.None? ==> r.adjustedQty == m.adjustedQty
    ensures p.notes.Some? ==> r.notes == p.notes.value
    ensures p.notes.None? ==> r.notes == m.notes
    ensures p.mapSnapshot.Some? ==> r.mapSnapshot == p.mapSnapshot.value
    ensures p.mapSnapshot.None? ==> r.mapSnapshot == m.mapSnapshot
  {
    m.(labelText := p.labelText.GetOr(m.labelText),
       depthInches := p.depthInches.GetOr(m.depthInches),
       materialId := p.materialId.GetOr(m.materialId),
       materialName := p.materialName.GetOr(m.materialName),
       calculatedQty := p.calculatedQty.GetOr(m.calculatedQty),
       adjustedQty := p.adjustedQty.GetOr(m.adjustedQty),
       notes := p.notes.GetOr(m.notes),
       mapSnapshot := p.mapSnapshot.GetOr(m.mapSnapshot),
       updatedAt := p.updatedAt)
  }

  /** An applied update sets each defined field to the body's value and
      keeps every other one. */
  lemma UpdateWritesBody(m: Measurement, b: Body, now: int)
    ensures var r := ApplySet(m, SetOf(b, now));
            && r.updatedAt == now
            && r.labelText == (if b.labelText.Some? then Text.Trim(b.labelText.value) else m.labelText)
            && r.depthInches == b.depthInches.GetOr(m.depthInches)
            && r.materialId == b.materialId.GetOr(m.materialId)
            && r.materialName == b.materialName.GetOr(m.materialName)
            && r.calculatedQty == b.calculatedQty.GetOr(m.calculatedQty)
            && r.adjustedQty == b.adjustedQty.GetOr(m.adjustedQty)
            && r.notes == b.notes.GetOr(m.notes)
            && r.mapSnapshot == b.mapSnapshot.GetOr(m.mapSnapshot)
            && r.status == m.status && r.coordinates == m.coordinates && r.mode == m.mode
            && r.areaSqFt == m.areaSqFt && r.areaSqM == m.areaSqM
  {
  }

  /** An update moves no record into or out of any cart or history. */
  lemma UpdateKeepsLists(docs: map<string, Measurement>, id: string, p: Patch,
                         contractorId: string, projectId: string)
    requires id in docs
    ensures CartIds(docs[id := ApplySet(docs[id], p)], contractorId, projectId) == CartIds(docs, contractorId, projectId)
    ensures HistoryIds(docs[id := ApplySet(docs[id], p)], contractorId, projectId) == HistoryIds(docs, contractorId, projectId)
  {
  }

  // ---------------------------------------------------------------------------
  // Archive

  /** The soft delete of one record. */
  function ArchiveRecord(m: Measurement, now: int): (r: Measurement)
    ensures r.status == Archived && r.updatedAt == now
    ensures r.(status := m.status, updatedAt := m.updatedAt) == m
  {
    m.(status := Archived, updatedAt := now)
  }

  /** Archiving takes a record out of its cart and its history and leaves
      every other entry where it was. */
  lemma ArchiveLeavesLists(docs: map<string, Measurement>, id: string, now: int, contractorId: string, projectId: string)
    requires id in docs
    ensures CartIds(docs[id := ArchiveRecord(docs[id], now)], contractorId, projectId) == CartIds(docs, contractorId, projectId) - {id}
    ensures HistoryIds(docs[id := ArchiveRecord(docs[id], now)], contractorId, projectId) == HistoryIds(docs, contractorId, projectId) - {id}
  {
  }

  // ---------------------------------------------------------------------------
  // The collection and the handler

  /** Record `id` exists and belongs to `contractorId`. */
  predicate Owned(docs: map<string, Measurement>, id: string, contractorId: string) {
    id in docs && docs[id].contractorId == contractorId
  }

  /** A status change the handler can make: none, or draft to archived. */
  predicate StatusStep(before: MeasureStatus, after: MeasureStatus) {
    before == after || (before == Draft && after == Archived)
  }

  /** A handler branch's reply together with the collection it leaves. */
  datatype Outcome = Outcome(resp: Reply<Payload>, docs: map<string, Measurement>)

  /** POST `{ action: 'create', ... }` on the collection `docs`. */
  function CreateOutcome(docs: map<string, Measurement>, user: Auth.Claims, b: Body, newId: string, now: int): (o: Outcome)
    requires newId !in docs
    ensures o.resp.Ok? <==> b.action == Some("create") && CreateError(b).None?
    ensures o.resp.Error? ==> o.resp.status == 400 && o.docs == docs
    ensures o.resp.Ok? ==> o.docs.Keys == docs.Keys + {newId} && o.docs[newId].status == Draft
                           && o.docs[newId].contractorId == user.contractorId
    ensures forall id :: id in docs ==> id in o.docs && o.docs[id] == docs[id]
  {
    if b.action != Some("create") then Outcome(Error(400, "Unknown action"), docs)
    else if CreateError(b).Some? then Outcome(Error(400, CreateError(b).value), docs)
    else Outcome(Ok(201, Created(newId)), docs[newId := NewRecord(user, b, newId, now)])
  }

  /** PUT on the collection `docs`. */
  function UpdateOutcome(docs: map<string, Measurement>, user: Auth.Claims, b: Body, now: int): (o: Outcome)
    ensures o.docs.Keys == docs.Keys
    ensures o.resp.Ok? <==> Truthy(b.id) && Owned(docs, b.id.value, user.contractorId)
                            && docs[b.id.value].status == Draft && DefinedFields(b) != {}
    ensures o.resp.Error? ==> o.docs == docs
    ensures forall id :: id in docs && !(Truthy(b.id) && id == b.id.value) ==> o.docs[id] == docs[id]
    ensures forall id :: id in docs ==> o.docs[id].status == docs[id].status
  {
    if !Truthy(b.id) then Outcome(Error(400, IdRequired), docs)
    else if !Owned(docs, b.id.value, user.contractorId) then Outcome(Error(404, NotFound), docs)
    else if docs[b.id.value].status != Draft then Outcome(Error(409, "Only draft measurements can be edited"), docs)
    else if DefinedFields(b) == {} then Outcome(Error(400, "No fields to update"), docs)
    else Outcome(Ok(200, Done), docs[b.id.value := ApplySet(docs[b.id.value], SetOf(b, now))])
  }

  /** DELETE `?id=X` on the collection `docs`. */
  function ArchiveOutcome(docs: map<string, Measurement>, user: Auth.Claims, q: QueryParams, now: int): (o: Outcome)
    ensures o.docs.Keys == docs.Keys
    ensures o.resp.Ok? <==> Truthy(q.id) && Owned(docs, q.id.value, user.contractorId) && docs[q.id.value].status == Draft
    ensures o.resp.Error? ==> o.docs == docs
    ensures o.resp.Ok? ==> o.docs[q.id.value].status == Archived
    ensures forall id :: id in docs && !(Truthy(q.id) && id == q.id.value) ==> o.docs[id] == docs[id]
  {
    if !Truthy(q.id) then Outcome(Error(400, IdRequired), docs)
    else if !(Owned(docs, q.id.value, user.contractorId) && docs[q.id.value].status == Draft) then
      Outcome(Error(404, "Measurement not found or not archiveable"), docs)
    else Outcome(Ok(200, Done), docs[q.id.value := ArchiveRecord(docs[q.id.value], now)])
  }

  class MeasurementStore {
    var docs: map<string, Measurement>

    predicate Valid()
      reads this
    {
      forall id :: id in docs ==> docs[id].id == id
    }

    constructor ()
      ensures Valid() && docs == map[]
    {
      docs := map[];
    }

    /** GET: one record by id, the cart or the history of a project. */
    function Get(user: Auth.Claims, q: QueryParams): (r: Reply<Payload>)
      reads this
      ensures Truthy(q.id) ==>
                if Owned(docs, q.id.value, user.contractorId) then r == Ok(200, Single(docs[q.id.value]))
                else r == Error(404, NotFound)
      ensures !Truthy(q.id) && q.list == Some("cart") && Truthy(q.projectId) ==>
                r == Ok(200, Listed(CartIds(docs, user.contractorId, q.projectId.value)))
      ensures !Truthy(q.id) && q.list == Some("history") && Truthy(q.projectId) ==>
                r == Ok(200, Listed(HistoryIds(docs, user.contractorId, q.projectId.value)))
      ensures r.Error? && r.status == 400 <==>
                !Truthy(q.id) && !((q.list == Some("cart") || q.list == Some("history")) && Truthy(q.projectId))
    {
      if Truthy(q.id) then
        if Owned(docs, q.id.value, user.contractorId) then Ok(200, Single(docs[q.id.value]))
        else Error(404, NotFound)
      else if q.list == Some("cart") && Truthy(q.projectId) then
        Ok(200, Listed(CartIds(docs, user.contractorId, q.projectId.value)))
      else if q.list == Some("history") && Truthy(q.projectId) then
        Ok(200, Listed(HistoryIds(docs, user.contractorId, q.projectId.value)))
      else Error(400, "Missing query params")
    }

    /** POST `{ action: 'create', ... }`. */
    method Create(user: Auth.Claims, b: Body, newId: string, now: int) returns (resp: Reply<Payload>)
      requires Valid() && newId !in docs
      modifies this
      ensures Valid()
      ensures b.action != Some("create") ==> resp == Error(400, "Unknown action") && docs == old(docs)
      ensures b.action == Some("create") && CreateError(b).Some? ==>
                resp == Error(400, CreateError(b).value) && docs == old(docs)
      ensures b.action == Some("create") && CreateError(b).None? ==>
                resp == Ok(201, Created(newId)) && docs == old(docs)[newId := NewRecord(user, b, newId, now)]
      ensures Outcome(resp, docs) == CreateOutcome(old(docs), user, b, newId, now)
    {
      if b.action != Some("create") {
        return Error(400, "Unknown action");
      }
      var err := CreateError(b);
      if err.Some? {
        return Error(400, err.value);
      }
      docs := docs[newId := NewRecord(user, b, newId, now)];
      resp := Ok(201, Created(newId));
    }

    /** PUT: a partial update of one of the caller's drafts. */
    method Update(user: Auth.Claims, b: Body, now: int) returns (resp: Reply<Payload>)
      requires Valid()
      modifies this
      ensures Valid()
      ensures !Truthy(b.id) ==> resp == Error(400, IdRequired) && docs == old(docs)
      ensures Truthy(b.id) && !Owned(old(docs), b.id.value, user.contractorId) ==>
                resp == Error(404, NotFound) && docs == old(docs)
      ensures Truthy(b.id) && Owned(old(docs), b.id.value, user.contractorId) && old(docs)[b.id.value].status != Draft ==>
                resp == Error(409, "Only draft measurements can be edited") && docs == old(docs)
      ensures Truthy(b.id) && Owned(old(docs), b.id.value, user.contractorId) && old(docs)[b.id.value].status == Draft ==>
                if DefinedFields(b) == {} then resp == Error(400, "No fields to update") && docs == old(docs)
                else resp == Ok(200, Done)
                     && docs == old(docs)[b.id.value := ApplySet(old(docs)[b.id.value], SetOf(b, now))]
      ensures Outcome(resp, docs) == UpdateOutcome(old(docs), user, b, now)
    {
      if !Truthy(b.id) {
        return Error(400, IdRequired);
      }
      var id := b.id.value;
      if !Owned(docs, id, user.contractorId) {
        return Error(404, NotFound);
      }
      if docs[id].status != Draft {
        return Error(409, "Only draft measurements can be edited");
      }
      var patch := BuildSet(b, now);
      EmptySet(b, now);
      if |Keys(patch)| == 1 {
        return Error(400, "No fields to update");
      }
      docs := docs[id := ApplySet(docs[id], patch)];
      resp := Ok(200, Done);
    }

    /** DELETE `?id=X`: archive one of the caller's drafts. */
    method Archive(user: Auth.Claims, q: QueryParams, now: int) returns (resp: Reply<Payload>)
      requires Valid()
      modifies this
      ensures Valid()
      ensures !Truthy(q.id) ==> resp == Error(400, IdRequired) && docs == old(docs)
      ensures Truthy(q.id) && !(Owned(old(docs), q.id.value, user.contractorId) && old(docs)[q.id.value].status == Draft) ==>
                resp == Error(404, "Measurement not found or not archiveable") && docs == old(docs)
      ensures Truthy(q.id) && Owned(old(docs), q.id.value, user.contractorId) && old(docs)[q.id.value].status == Draft ==>
                resp == Ok(200, Done) && docs == old(docs)[q.id.value := ArchiveRecord(old(docs)[q.id.value], now)]
      ensures Outcome(resp, docs) == ArchiveOutcome(old(docs), user, q, now)
    {
      if !Truthy(q.id) {
        return Error(400, IdRequired);
      }
      var id := q.id.value;
      if !(Owned(docs, id, user.contractorId) && docs[id].status == Draft) {
        return Error(404, "Measurement not found or not archiveable");
      }
      docs := docs[id := ArchiveRecord(docs[id], now)];
      resp := Ok(200, Done);
    }

    /** The whole handler: OPTIONS, the gate, then one branch per method.
        No record is ever removed, a record that is not a draft never
        changes, and the only status change is draft to archived. */
    method Handle(req: Request, decode: string -> Option<Auth.Claims>, newId: string, now: int)
      returns (resp: Reply<Payload>)
      requires Valid() && newId !in docs
      modifies this
      ensures Valid()
      ensures old(docs).Keys <= docs.Keys
      ensures forall id :: id in old(docs) ==> StatusStep(old(docs)[id].status, docs[id].status)
      ensures forall id :: id in old(docs) && old(docs)[id].status != Draft ==> docs[id] == old(docs)[id]
      ensures req.httpMethod == "OPTIONS" ==> resp == Ok(200, Done) && docs == old(docs)
      ensures req.httpMethod != "OPTIONS" && Gate(req.header, decode).Denied? ==>
                resp == Error(GateStatus(Gate(req.header, decode)), Gate(req.header, decode).error)
                && docs == old(docs)
      ensures req.httpMethod != "OPTIONS" && Auth.VerifyToken(req.header, Some(["foreman", "supervisor"]), decode).Authorized?
              && !Auth.VerifyToken(req.header, Some(["foreman", "supervisor"]), decode).user.siteMeasureEnabled ==>
                resp == Error(403, NotEnabled) && docs == old(docs)
      ensures req.httpMethod !in {"OPTIONS", "GET", "POST", "PUT", "DELETE"} && Gate(req.header, decode).Authorized? ==>
                resp == Error(405, "Method not allowed") && docs == old(docs)
      ensures req.httpMethod == "GET" && Gate(req.header, decode).Authorized? ==>
                resp == Get(Gate(req.header, decode).user, req.query) && docs == old(docs)
      ensures req.httpMethod == "POST" && Gate(req.header, decode).Authorized? ==>
                Outcome(resp, docs) == CreateOutcome(old(docs), Gate(req.header, decode).user, req.body, newId, now)
      ensures req.httpMethod == "PUT" && Gate(req.header, decode).Authorized? ==>
                Outcome(resp, docs) == UpdateOutcome(old(docs), Gate(req.header, decode).user, req.body, now)
      ensures req.httpMethod == "DELETE" && Gate(req.header, decode).Authorized? ==>
                Outcome(resp, docs) == ArchiveOutcome(old(docs), Gate(req.header, decode).user, req.query, now)
    {
      if req.httpMethod == "OPTIONS" {
        return Ok(200, Done);
      }
      var gate := Gate(req.header, decode);
      if gate.Denied? {
        return Error(GateStatus(gate), gate.error);
      }
      var user := gate.user;
      if req.httpMethod == "GET" {
        resp := Get(user, req.query);
      } else if req.httpMethod == "POST" {
        resp := Create(user, req.body, newId, now);
      } else if req.httpMethod == "PUT" {
        resp := Update(user, req.body, now);
      } else if req.httpMethod == "DELETE" {
        resp := Archive(user, req.query, now);
      } else {
        resp := Error(405, "Method not allowed");
      }
    }
  }
}
