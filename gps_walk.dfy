/** The site-measurement session of the GPS walk screen: accuracy bands,
    polygon area, quantity estimation, density matching, and the session
    state that the location callback and the screen's buttons update.

    The geodesic polygon area (the `@turf/area` library) and the rounding to
    one decimal (`parseFloat(x.toFixed(1))`) are parameters of the session:
    `turf` maps a closed (longitude, latitude) ring to its area in square
    meters, or to `None` where the library throws. */
module GpsWalk {
  import opened Common
  import Text

  // ---------------------------------------------------------------------------
  // Accuracy classifier

  const Grey := "#6B7280"
  const Green := "#10B981"
  const Amber := "#F59E0B"
  const Red := "#EF4444"

  /** `getAccuracyColor(m)`: grey without a fix, then green up to 5 m,
      amber up to 15 m and red beyond. */
  function AccuracyColor(m: Option<real>): (color: string)
    ensures color == Grey <==> m.None?
    ensures color == Green <==> m.Some? && m.value <= 5.0
    ensures color == Amber <==> m.Some? && 5.0 < m.value <= 15.0
    ensures color == Red <==> m.Some? && 15.0 < m.value
  {
    if m.None? then Grey
    else if m.value <= 5.0 then Green
    else if m.value <= 15.0 then Amber
    else Red
  }

  /** `getAccuracyLabel(m, t)`: the dictionary key of the label; the screen
      shows its translation `t(key)`. */
  function AccuracyLabel(m: Option<real>): (key: string)
    ensures key == "gpsSearching" <==> m.None?
    ensures key == "gpsExcellent" <==> m.Some? && m.value <= 5.0
    ensures key == "gpsFair" <==> m.Some? && 5.0 < m.value <= 15.0
    ensures key == "gpsPoor" <==> m.Some? && 15.0 < m.value
  {
    if m.None? then "gpsSearching"
    else if m.value <= 5.0 then "gpsExcellent"
    else if m.value <= 15.0 then "gpsFair"
    else "gpsPoor"
  }

  /** The colour that belongs to each label's band. */
  function BandColor(key: string): string {
    match key
    case "gpsSearching" => Grey
    case "gpsExcellent" => Green
    case "gpsFair" => Amber
    case _ => Red
  }

  /** Colour and label always come from the same band. */
  lemma ColorMatchesLabel(m: Option<real>)
    ensures AccuracyColor(m) == BandColor(AccuracyLabel(m))
  {
  }

  // ---------------------------------------------------------------------------
  // Polygon area

  type NonNegReal = x: real | 0.0 <= x witness 0.0

  /** The area library: a closed (longitude, latitude) ring to square meters,
      or `None` where it throws. */
  type AreaFunction = seq<(real, real)> -> Option<NonNegReal>

  datatype AreaResult = AreaResult(sqFt: real, sqM: real)

  const SqFtPerSqM := 10.7639

  /** The ring handed to the area library: every vertex as (lng, lat), and
      the first vertex again at the end to close it. */
  function Ring(coords: seq<GeoPoint>): (ring: seq<(real, real)>)
    requires |coords| >= 1
    ensures |ring| == |coords| + 1 && ring[|coords|] == ring[0]
    ensures forall i :: 0 <= i < |coords| ==> ring[i] == (coords[i].lng, coords[i].lat)
  {
    seq(|coords|, i requires 0 <= i < |coords| => (coords[i].lng, coords[i].lat))
      + [(coords[0].lng, coords[0].lat)]
  }

  /** `calcArea(coords)`: zero below three vertices and when the library
      throws, otherwise the library's square meters and their square feet. */
  function CalcArea(coords: seq<GeoPoint>, turf: AreaFunction): (r: AreaResult)
    ensures |coords| < 3 ==> r == AreaResult(0.0, 0.0)
    ensures |coords| >= 3 && turf(Ring(coords)).None? ==> r == AreaResult(0.0, 0.0)
    ensures |coords| >= 3 && turf(Ring(coords)).Some? ==>
              r.sqM == turf(Ring(coords)).value && r.sqFt == r.sqM * SqFtPerSqM
    ensures 0.0 <= r.sqM && 0.0 <= r.sqFt
  {
    if |coords| < 3 then AreaResult(0.0, 0.0)
    else
      match turf(Ring(coords))
      case None => AreaResult(0.0, 0.0)
      case Some(sqM) => AreaResult(sqM * SqFtPerSqM, sqM)
  }

  // ---------------------------------------------------------------------------
  // Quantity estimation

  /** 12 inches per foot times 27 cubic feet per cubic yard: dividing
      square feet times inches of depth by 324 gives cubic yards. */
  const InchFeetPerCubicYard := 324.0

  /** A quantity fits an area, a depth and a density: its cubic yards hold
      the area times the depth, and its tons are those yards at the density. */
  predicate QtyFits(q: Qty, sqFt: real, depthInches: real, tonsPerCY: real) {
    q.cubicYards * InchFeetPerCubicYard == sqFt * depthInches && q.tons == q.cubicYards * tonsPerCY
  }

  /** `calcQty(sqFt, depthInches, tonsPerCY)`. */
  function CalcQty(sqFt: real, depthInches: real, tonsPerCY: real): (q: Qty)
    ensures QtyFits(q, sqFt, depthInches, tonsPerCY)
    ensures 0.0 <= sqFt && 0.0 <= depthInches && 0.0 <= tonsPerCY ==>
              0.0 <= q.cubicYards && 0.0 <= q.tons
  {
    var cubicYards := (sqFt * depthInches) / InchFeetPerCubicYard;
    Qty(cubicYards, cubicYards * tonsPerCY)
  }

  /** Both outputs are additive in the area... */
  lemma CalcQtyAdditive(a: real, b: real, depthInches: real, tonsPerCY: real)
    ensures CalcQty(a + b, depthInches, tonsPerCY).cubicYards
            == CalcQty(a, depthInches, tonsPerCY).cubicYards + CalcQty(b, depthInches, tonsPerCY).cubicYards
    ensures CalcQty(a + b, depthInches, tonsPerCY).tons
            == CalcQty(a, depthInches, tonsPerCY).tons + CalcQty(b, depthInches, tonsPerCY).tons
  {
    var y := CalcQty(a, depthInches, tonsPerCY).cubicYards;
    var z := CalcQty(b, depthInches, tonsPerCY).cubicYards;
    assert CalcQty(a + b, depthInches, tonsPerCY).cubicYards == y + z;
    assert (y + z) * tonsPerCY == y * tonsPerCY + z * tonsPerCY;
  }

  /** ... and scale with it. */
  lemma CalcQtyScales(k: real, a: real, depthInches: real, tonsPerCY: real)
    ensures CalcQty(k * a, depthInches, tonsPerCY).cubicYards == k * CalcQty(a, depthInches, tonsPerCY).cubicYards
    ensures CalcQty(k * a, depthInches, tonsPerCY).tons == k * CalcQty(a, depthInches, tonsPerCY).tons
  {
    var y := CalcQty(a, depthInches, tonsPerCY).cubicYards;
    assert (k * a) * depthInches == k * (a * depthInches);
    assert CalcQty(k * a, depthInches, tonsPerCY).cubicYards == k * y;
    assert (k * y) * tonsPerCY == k * (y * tonsPerCY);
  }

  // ---------------------------------------------------------------------------
  // Density matching

  /** A catalog material. */
  datatype Material = Material(id: string, name: string, nameEs: string, pricePerTon: real, available: real)

  /** A density profile, matched to a material by name. */
  datatype Density = Density(
    materialName: string,
    tonsPerCubicYard: real,
    defaultDepthIn: int,
    minDepthIn: int,
    maxDepthIn: int)

  /** Either lower-cased name contains the other's first space-delimited
      token (`name` is the material's name, already lower-cased). */
  predicate NamesMatch(name: string, d: Density) {
    var dn := Text.Lower(d.materialName);
    Text.Contains(dn, Text.FirstToken(name)) || Text.Contains(name, Text.FirstToken(dn))
  }

  /** Index of the first profile matching `name`, the way `Array.find` scans. */
  function FirstMatch(name: string, ds: seq<Density>): (i: Option<nat>)
    ensures i.Some? ==> i.value < |ds| && NamesMatch(name, ds[i.value])
                        && forall j :: 0 <= j < i.value ==> !NamesMatch(name, ds[j])
    ensures i.None? ==> forall j :: 0 <= j < |ds| ==> !NamesMatch(name, ds[j])
  {
    if ds == [] then None
    else if NamesMatch(name, ds[0]) then Some(0)
    else
      match FirstMatch(name, ds[1..])
      case None =>
        assert forall j :: 1 <= j < |ds| ==> ds[j] == ds[1..][j - 1];
        None
      case Some(k) =>
        assert forall j :: 1 <= j <= k ==> ds[j] == ds[1..][j - 1];
        Some(k + 1)
  }

  /** `matchDensity(material, densities)`. */
  function MatchDensity(material: Option<Material>, ds: seq<Density>): (r: Option<Density>)
    ensures material.None? || ds == [] ==> r.None?
    ensures r.Some? ==> r.value in ds
    ensures material.Some? ==>
              (r.Some? <==> exists j :: 0 <= j < |ds| && NamesMatch(Text.Lower(material.value.name), ds[j]))
    ensures r.Some? ==> exists i :: 0 <= i < |ds| && ds[i] == r.value
                          && NamesMatch(Text.Lower(material.value.name), ds[i])
                          && forall j :: 0 <= j < i ==> !NamesMatch(Text.Lower(material.value.name), ds[j])
  {
    if material.None? || ds == [] then None
    else
      match FirstMatch(Text.Lower(material.value.name), ds)
      case None => None
      case Some(i) => Some(ds[i])
  }

  /** Two names with the same first token always match, so materials such
      as "Limestone #57" and "Limestone #2" share one profile. */
  lemma SameFirstTokenMatches(name: string, d: Density)
    requires Text.FirstToken(name) == Text.FirstToken(Text.Lower(d.materialName))
    ensures NamesMatch(name, d)
  {
    var tok := Text.FirstToken(name);
    assert Text.OccursAt(name, tok, 0);
  }

  /** A material whose name is empty or starts with a space has an empty
      first token, which every profile name contains. */
  lemma EmptyTokenMatchesEverything(name: string, d: Density)
    requires name == [] || name[0] == ' '
    ensures NamesMatch(name, d)
  {
    assert Text.FirstToken(name) == [];
    assert Text.OccursAt(Text.Lower(d.materialName), [], 0);
  }

  // ---------------------------------------------------------------------------
  // Vertex removal

  /** `coords.filter((_, i) => i !== idx)`. */
  function RemoveAt(s: seq<GeoPoint>, idx: nat): (r: seq<GeoPoint>)
    ensures idx >= |s| ==> r == s
    ensures idx < |s| ==> |r| == |s| - 1
                          && (forall k :: 0 <= k < idx ==> r[k] == s[k])
                          && (forall k :: idx <= k < |r| ==> r[k] == s[k + 1])
  {
    if idx < |s| then s[..idx] + s[idx + 1..] else s
  }

  /** Removal drops exactly the one vertex at `idx`. */
  lemma RemoveAtMultiset(s: seq<GeoPoint>, idx: nat)
    requires idx < |s|
    ensures multiset(RemoveAt(s, idx)) + multiset{s[idx]} == multiset(s)
  {
    assert s == s[..idx] + [s[idx]] + s[idx + 1..];
  }

  // ---------------------------------------------------------------------------
  // The session

  datatype Step = ModeSelect | Pre | Walking | Review | Configure

  /** A `watchPosition` reading. */
  datatype Position = Position(latitude: real, longitude: real, accuracy: real, timestamp: int)

  /** Samples less accurate than this many meters are not kept. */
  const MaxSampleAccuracy := 30.0
  /** Vertices needed to close a polygon. */
  const MinPolygon := 3
  /** Removal is refused at or below this many vertices. */
  const VertexFloor := 4
  const MinDepth := 1
  const MaxDepth := 24
  const DefaultDepth := 3
  const DefaultTonsPerCY := 1.35
  const TonsStep := 0.5
  const MinManualTons := 0.5

  function Max(a: real, b: real): real { if a < b then b else a }

  /** `materials.find(m => m.id === id)`: the first material with the id. */
  function FindMaterial(ms: seq<Material>, id: string): (r: Option<Material>)
    ensures r.Some? ==> r.value in ms && r.value.id == id
    ensures r.Some? ==> exists k :: 0 <= k < |ms| && ms[k] == r.value && forall j :: 0 <= j < k ==> ms[j].id != id
    ensures r.None? ==> forall j :: 0 <= j < |ms| ==> ms[j].id != id
  {
    if ms == [] then None
    else if ms[0].id == id then Some(ms[0])
    else
      var r := FindMaterial(ms[1..], id);
      assert forall k :: 1 <= k < |ms| ==> ms[k] == ms[1..][k - 1];
      assert r.Some? ==> exists k :: 1 <= k < |ms| && ms[k] == r.value && forall j :: 0 <= j < k ==> ms[j].id != id by {
        if r.Some? {
          var k :| 0 <= k < |ms[1..]| && ms[1..][k] == r.value && forall j :: 0 <= j < k ==> ms[1..][j].id != id;
          assert ms[k + 1] == r.value;
          assert forall j :: 0 <= j < k + 1 ==> ms[j].id != id;
        }
      }
      r
  }

  /** One measurement session of the GPS walk screen. */
  class WalkSession {
    const turf: AreaFunction
    const round1: real -> real

    var step: Step
    var accuracy: Option<real>
    var coords: seq<GeoPoint>
    var selectedVertex: Option<nat>
    var materials: seq<Material>
    var densities: seq<Density>
    var selectedMaterialId: string
    var depthInches: int
    var manualTons: Option<real>

    /** Only a closed polygon (three or more vertices) is reviewed or
        configured. */
    predicate Valid()
      reads this
    {
      (step == Review || step == Configure) ==> |coords| >= MinPolygon
    }

    constructor (turf: AreaFunction, round1: real -> real)
      ensures Valid()
      ensures this.turf == turf && this.round1 == round1
      ensures step == ModeSelect && accuracy == None && coords == [] && selectedVertex == None
      ensures materials == [] && densities == [] && selectedMaterialId == ""
      ensures depthInches == DefaultDepth && manualTons == None
    {
      this.turf := turf;
      this.round1 := round1;
      step := ModeSelect;
      accuracy := None;
      coords := [];
      selectedVertex := None;
      materials := [];
      densities := [];
      selectedMaterialId := "";
      depthInches := DefaultDepth;
      manualTons := None;
    }

    // -- derived values, recomputed on every render

    function Area(): AreaResult
      reads this
    {
      CalcArea(coords, turf)
    }

    function SelectedMaterial(): Option<Material>
      reads this
    {
      FindMaterial(materials, selectedMaterialId)
    }

    function SelectedDensity(): Option<Density>
      reads this
    {
      MatchDensity(SelectedMaterial(), densities)
    }

    /** `selectedDensity?.tonsPerCubicYard || 1.35`. */
    function TonsPerCY(): (k: real)
      reads this
      ensures SelectedDensity().None? ==> k == DefaultTonsPerCY
      ensures SelectedDensity().Some? && SelectedDensity().value.tonsPerCubicYard != 0.0 ==>
                k == SelectedDensity().value.tonsPerCubicYard
      ensures SelectedDensity().Some? && SelectedDensity().value.tonsPerCubicYard == 0.0 ==> k == DefaultTonsPerCY
      ensures k != 0.0
    {
      var d := SelectedDensity();
      if d.Some? && d.value.tonsPerCubicYard != 0.0 then d.value.tonsPerCubicYard else DefaultTonsPerCY
    }

    /** `calcQty(area.sqFt, depthInches, tonsPerCY)` for the current state. */
    function CalcResult(): (q: Qty)
      reads this
      ensures QtyFits(q, Area().sqFt, Depth(), TonsPerCY())
    {
      CalcQty(Area().sqFt, Depth(), TonsPerCY())
    }

    /** The configured depth, in inches. */
    function Depth(): real
      reads this
    {
      depthInches as real
    }

    /** `effectiveTons`: the manual override when set, else the estimate. */
    function EffectiveTons(): (tons: real)
      reads this
      ensures manualTons.Some? ==> tons == manualTons.value
      ensures manualTons.None? ==> tons == CalcResult().tons
    {
      if manualTons.Some? then manualTons.value else CalcResult().tons
    }

    // -- the location callback

    /** The `watchPosition` success callback: every reading updates the
        accuracy indicator; while walking, a reading within 30 m is appended
        as a new vertex. */
    method OnSample(pos: Position)
      requires Valid()
      modifies this`accuracy, this`coords
      ensures Valid()
      ensures accuracy == Some(pos.accuracy)
      ensures coords == if step == Walking && pos.accuracy <= MaxSampleAccuracy
                        then old(coords) + [GeoPoint(pos.latitude, pos.longitude, pos.accuracy, pos.timestamp)]
                        else old(coords)
    {
      accuracy := Some(pos.accuracy);
      if step == Walking && pos.accuracy <= MaxSampleAccuracy {
        coords := coords + [GeoPoint(pos.latitude, pos.longitude, pos.accuracy, pos.timestamp)];
      }
    }

    // -- step transitions

    /** "Walk perimeter" on the mode step. */
    method ChooseWalk()
      requires Valid() && step == ModeSelect
      modifies this`step
      ensures Valid() && step == Pre
    {
      step := Pre;
    }

    /** Back from the pre-walk step. */
    method BackToMode()
      requires Valid() && step == Pre
      modifies this`step
      ensures Valid() && step == ModeSelect
    {
      step := ModeSelect;
    }

    /** "Start walking": disabled until there is a reading; starts from an
        empty vertex list. */
    method StartWalking()
      requires Valid() && step == Pre
      modifies this`step, this`coords
      ensures Valid()
      ensures accuracy.None? ==> step == Pre && coords == old(coords)
      ensures accuracy.Some? ==> step == Walking && coords == []
    {
      if accuracy.Some? {
        coords := [];
        step := Walking;
      }
    }

    /** `closePolygon()`: a no-op below three vertices, else on to review. */
    method ClosePolygon()
      requires Valid()
      modifies this`step
      ensures Valid()
      ensures |coords| < MinPolygon ==> step == old(step)
      ensures |coords| >= MinPolygon ==> step == Review
    {
      if |coords| < MinPolygon {
        return;
      }
      step := Review;
    }

    /** "Cancel" while walking: the captured vertices are discarded. */
    method CancelWalk()
      requires Valid() && step == Walking
      modifies this`coords
      ensures Valid() && coords == []
    {
      coords := [];
    }

    /** "Retake" (or back) on the review step: walk again from scratch. */
    method Retake()
      requires Valid() && step == Review
      modifies this`step, this`coords
      ensures Valid() && step == Walking && coords == []
    {
      coords := [];
      step := Walking;
    }

    /** "Continue" on the review step. */
    method Continue()
      requires Valid() && step == Review
      modifies this`step
      ensures Valid() && step == Configure
    {
      step := Configure;
    }

    /** Back from the configure step. */
    method BackToReview()
      requires Valid() && step == Configure
      modifies this`step
      ensures Valid() && step == Review
    {
      step := Review;
    }

    // -- vertex editing on the review step

    /** Tapping vertex `i` selects it, or deselects it when it is selected. */
    method TapVertex(i: nat)
      requires Valid() && step == Review && i < |coords|
      modifies this`selectedVertex
      ensures Valid()
      ensures old(selectedVertex) == Some(i) ==> selectedVertex == None
      ensures old(selectedVertex) != Some(i) ==> selectedVertex == Some(i)
    {
      selectedVertex := if selectedVertex == Some(i) then None else Some(i);
    }

    /** `removeVertex(idx)`: refused at four vertices or fewer; otherwise
        the vertex at `idx` goes and the selection is cleared. */
    method RemoveVertex(idx: nat)
      requires Valid()
      modifies this`coords, this`selectedVertex
      ensures Valid()
      ensures |old(coords)| <= VertexFloor ==> coords == old(coords) && selectedVertex == old(selectedVertex)
      ensures |old(coords)| > VertexFloor ==> coords == RemoveAt(old(coords), idx) && selectedVertex == None
      ensures |coords| >= MinPolygon || coords == old(coords)
    {
      if |coords| <= VertexFloor {
        return;
      }
      coords := RemoveAt(coords, idx);
      selectedVertex := None;
    }

    // -- the configure step

    /** The catalog fetch made on entering the configure step with no
        materials loaded yet: store both lists, select the first material
        and take its profile's default depth (3 when there is none, or it
        is 0). */
    method LoadCatalog(mats: seq<Material>, dens: seq<Density>)
      requires Valid()
      modifies this`materials, this`densities, this`selectedMaterialId, this`depthInches
      ensures Valid()
      ensures !(step == Configure && old(materials) == []) ==>
                materials == old(materials) && densities == old(densities)
                && selectedMaterialId == old(selectedMaterialId) && depthInches == old(depthInches)
      ensures step == Configure && old(materials) == [] ==>
                materials == mats && densities == dens
                && (mats == [] ==> selectedMaterialId == old(selectedMaterialId) && depthInches == old(depthInches))
                && (mats != [] ==> selectedMaterialId == mats[0].id
                                   && depthInches == match MatchDensity(Some(mats[0]), dens)
                                                     case Some(d) => if d.defaultDepthIn != 0 then d.defaultDepthIn else DefaultDepth
                                                     case None => DefaultDepth)
    {
      if step != Configure || |materials| > 0 {
        return;
      }
      materials := mats;
      densities := dens;
      if |mats| > 0 {
        selectedMaterialId := mats[0].id;
        var den := MatchDensity(Some(mats[0]), dens);
        depthInches := if den.Some? && den.value.defaultDepthIn != 0 then den.value.defaultDepthIn else DefaultDepth;
      }
    }

    /** `handleMaterialChange(matId)`: select the material, drop the manual
        override, and take the matched profile's default depth as it is. */
    method ChangeMaterial(matId: string)
      requires Valid() && step == Configure
      modifies this`selectedMaterialId, this`manualTons, this`depthInches
      ensures Valid()
      ensures selectedMaterialId == matId && manualTons == None
      ensures MatchDensity(FindMaterial(materials, matId), densities).Some? ==>
                depthInches == MatchDensity(FindMaterial(materials, matId), densities).value.defaultDepthIn
      ensures MatchDensity(FindMaterial(materials, matId), densities).None? ==> depthInches == old(depthInches)
    {
      selectedMaterialId := matId;
      manualTons := None;
      var mat := FindMaterial(materials, matId);
      var den := MatchDensity(mat, densities);
      if den.Some? {
        depthInches := den.value.defaultDepthIn;
      }
    }

    /** `handleDepthChange(delta)`: step the depth, clamped to [1, 24], and
        drop the manual override. */
    method ChangeDepth(delta: int)
      requires Valid() && step == Configure
      modifies this`depthInches, this`manualTons
      ensures Valid()
      ensures MinDepth <= depthInches <= MaxDepth
      ensures MinDepth <= old(depthInches) + delta <= MaxDepth ==> depthInches == old(depthInches) + delta
      ensures old(depthInches) + delta < MinDepth ==> depthInches == MinDepth
      ensures old(depthInches) + delta > MaxDepth ==> depthInches == MaxDepth
      ensures manualTons == None
    {
      var d := depthInches + delta;
      depthInches := if d < MinDepth then MinDepth else if d > MaxDepth then MaxDepth else d;
      manualTons := None;
    }

    /** The minus button: 0.5 t below the shown tons, rounded, at least 0.5.
        The estimate itself is left alone. */
    method DecrementTons()
      requires Valid() && step == Configure
      modifies this`manualTons
      ensures Valid()
      ensures manualTons == Some(Max(MinManualTons, round1(old(EffectiveTons()) - TonsStep)))
      ensures MinManualTons <= EffectiveTons()
      ensures CalcResult() == old(CalcResult())
    {
      manualTons := Some(Max(MinManualTons, round1(EffectiveTons() - TonsStep)));
    }

    /** The plus button: 0.5 t above the shown tons, rounded. */
    method IncrementTons()
      requires Valid() && step == Configure
      modifies this`manualTons
      ensures Valid()
      ensures manualTons == Some(round1(old(EffectiveTons()) + TonsStep))
      ensures CalcResult() == old(CalcResult())
    {
      manualTons := Some(round1(EffectiveTons() + TonsStep));
    }

    /** "Reset": back to the calculated tons. */
    method ResetTons()
      requires Valid() && step == Configure
      modifies this`manualTons
      ensures Valid()
      ensures manualTons == None && EffectiveTons() == CalcResult().tons
    {
      manualTons := None;
    }
  }

  /** A walk fed readings of 50, 10, 40 and 5 m keeps the 10 m and 5 m ones,
      in arrival order; the polygon closes only once it has three vertices,
      and at four vertices a removal is refused. */
  method CaptureScenario(turf: AreaFunction, round1: real -> real) returns (kept: seq<GeoPoint>)
    ensures kept == [GeoPoint(2.0, 2.0, 10.0, 2), GeoPoint(4.0, 4.0, 5.0, 4),
                     GeoPoint(5.0, 5.0, 30.0, 5), GeoPoint(6.0, 6.0, 1.0, 6)]
  {
    var s := new WalkSession(turf, round1);
    s.ChooseWalk();
    s.OnSample(Position(1.0, 2.0, 12.0, 0));
    assert s.step == Pre && s.coords == [];
    s.StartWalking();
    assert s.step == Walking;
    s.OnSample(Position(1.0, 1.0, 50.0, 1));
    s.OnSample(Position(2.0, 2.0, 10.0, 2));
    s.OnSample(Position(3.0, 3.0, 40.0, 3));
    s.OnSample(Position(4.0, 4.0, 5.0, 4));
    assert s.coords == [GeoPoint(2.0, 2.0, 10.0, 2), GeoPoint(4.0, 4.0, 5.0, 4)];
    s.ClosePolygon();
    assert s.step == Walking;
    s.OnSample(Position(5.0, 5.0, 30.0, 5));
    s.OnSample(Position(6.0, 6.0, 1.0, 6));
    assert |s.coords| == 4;
    s.ClosePolygon();
    assert s.step == Review;
    s.TapVertex(1);
    s.RemoveVertex(1);
    assert |s.coords| == 4 && s.selectedVertex == Some(1);
    kept := s.coords;
  }
}
