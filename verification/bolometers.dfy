/** `load_default_bolometer_config` and its helpers
    (cherab/mastu/bolometry/detectors/load_detectors.py): parse a camera id
    "chamber - camera", pick the camera mesh, keep the archive slits and
    foils of that camera and attach each foil to its slit.

    The geometry the archive client returns is given as a value; a failed
    fetch is `None`. The camera, slit and foil objects of the ray-tracing
    library are records here, except the camera, whose foil list the loader
    extends in place. */
module BolometerConfig {
  import opened Outcomes
  import opened PyStr

  datatype BoloError =
    | IdNotTwoParts          // ValueError: unpacking the id into two names
    | UnknownChamber         // ValueError: chamber neither SXDL nor CORE
    | GeometryUnavailable    // archive client exception: geometry not retrieved
    | UnknownCamera          // ValueError: camera not known for the chamber
    | MissingTable(key: string)  // KeyError: neither geometry table present
    | IdTooFewFields         // IndexError: `id.split('-')[2]`
    | IdNoCameraWord         // IndexError: `...split()[0]` of a blank field
    | FoilMissingCurvature(foilId: string)  // AttributeError: `foil.curvature_radius`
    | MissingSlit(slitId: string)  // KeyError: `slit_objects[foil.slit_id]`
  {
    function Exception(): PyException {
      match this
      case GeometryUnavailable => UdaException
      case MissingTable(_) => KeyError
      case MissingSlit(_) => KeyError
      case FoilMissingCurvature(_) => AttributeError
      case IdTooFewFields => IndexError
      case IdNoCameraWord => IndexError
      case _ => ValueError
    }
  }

  // ---------------------------------------------------------------------------
  // Geometry values
  // ---------------------------------------------------------------------------

  /** A structure of the archive with x, y and z members. */
  datatype UdaStruct = UdaStruct(x: real, y: real, z: real)
  datatype Point3 = Point3(x: real, y: real, z: real)
  datatype Vector3 = Vector3(x: real, y: real, z: real)

  /** `uda_to_point`. */
  function UdaToPoint(s: UdaStruct): (p: Point3)
    ensures p.x == s.x && p.y == s.y && p.z == s.z
  {
    Point3(s.x, s.y, s.z)
  }

  /** `uda_to_vector`. */
  function UdaToVector(s: UdaStruct): (v: Vector3)
    ensures v.x == s.x && v.y == s.y && v.z == s.z
  {
    Vector3(s.x, s.y, s.z)
  }

  /** A slit of the archive; `curvatureRadius` is absent on some records. */
  datatype SlitRecord = SlitRecord(
    id: string, basis1: UdaStruct, basis2: UdaStruct, centrePoint: UdaStruct,
    width: real, height: real, curvatureRadius: Option<real>)

  /** A foil of the archive, naming the slit it looks through; like a slit,
      it may lack `curvatureRadius`, but for a foil nothing replaces it. */
  datatype FoilRecord = FoilRecord(
    id: string, basis1: UdaStruct, basis2: UdaStruct, centrePoint: UdaStruct,
    width: real, height: real, curvatureRadius: Option<real>, slitId: string)

  /** The geometry tables returned for one chamber, by key. */
  datatype BolometerGeometry = BolometerGeometry(
    slitTables: map<string, seq<SlitRecord>>, foilTables: map<string, seq<FoilRecord>>)

  datatype Slit = Slit(
    id: string, basisX: Vector3, basisY: Vector3, centre: Point3,
    dx: real, dy: real, curvatureRadius: real)

  datatype Foil = Foil(
    id: string, basisX: Vector3, basisY: Vector3, centre: Point3,
    dx: real, dy: real, curvatureRadius: real, slit: Slit)

  /** A raysect material, named. */
  datatype Material = Material(name: string)

  /** A camera mesh of the machine description: a file and its material. */
  datatype MeshSpec = MeshSpec(path: string, material: Material)

  /** `SXD_BOLOMETERS` and `CORE_BOLOMETERS`, two meshes each. */
  datatype MachineMeshes = MachineMeshes(sxd: (MeshSpec, MeshSpec), core: (MeshSpec, MeshSpec))

  /** The camera mesh as loaded: its file and the material it is given. */
  datatype CameraGeometry = CameraGeometry(path: string, material: Material)

  // ---------------------------------------------------------------------------
  // The camera id
  // ---------------------------------------------------------------------------

  /** `chamber, camera_name = [elem.strip() for elem in bolometer_id.split('-')]`;
      the surrounding `except KeyError` never fires, so a wrong number of
      parts is Python's own unpacking ValueError. */
  function ParseBolometerId(id: string): (r: Result<(string, string), BoloError>)
    ensures r.Err? <==> |Split(id, '-')| != 2
    ensures r.Err? ==> r.error == IdNotTwoParts
  {
    var parts := Split(id, '-');
    if |parts| != 2 then Err(IdNotTwoParts) else Ok((Strip(parts[0]), Strip(parts[1])))
  }

  /** The id is accepted exactly when it holds a single '-'. */
  lemma {:induction false} ParseBolometerIdAccepts(id: string)
    ensures ParseBolometerId(id).Ok? <==> multiset(id)['-'] == 1
  {
    SplitCount(id, '-');
  }

  lemma {:induction false} SplitOnce(left: string, right: string, sep: char)
    requires sep !in left && sep !in right
    ensures Split(left + [sep] + right, sep) == [left, right]
  {
    SplitAtFirst(left, right, sep);
  }

  lemma {:induction false} StripOneSpace(a: string)
    requires a == [] || (!IsSpace(a[0]) && !IsSpace(a[|a| - 1]))
    ensures Strip(a + " ") == a && Strip(" " + a) == a
  {
    StripPadded([], a, " ");
    assert [] + a + " " == a + " ";
    StripPadded(" ", a, []);
    assert " " + a + [] == " " + a;
  }

  /** A chamber and a camera name without '-' and without surrounding
      whitespace come back from "chamber - camera". */
  lemma {:induction false} ParseBolometerIdRoundTrip(chamber: string, camera: string)
    requires '-' !in chamber && '-' !in camera
    requires chamber == [] || (!IsSpace(chamber[0]) && !IsSpace(chamber[|chamber| - 1]))
    requires camera == [] || (!IsSpace(camera[0]) && !IsSpace(camera[|camera| - 1]))
    ensures ParseBolometerId(chamber + " - " + camera) == Ok((chamber, camera))
  {
    var id := chamber + " - " + camera;
    var left, right := chamber + " ", " " + camera;
    assert id == left + ['-'] + right;
    SplitOnce(left, right, '-');
    var parts := Split(id, '-');
    assert parts == [left, right];
    StripOneSpace(chamber);
    StripOneSpace(camera);
    assert Strip(parts[0]) == chamber && Strip(parts[1]) == camera;
  }

  datatype Chamber = Sxdl | Core

  /** `if chamber.lower() not in ('sxdl', 'core'): raise ValueError`. */
  function CheckChamber(chamber: string): (r: Result<Chamber, BoloError>)
    ensures r.Ok? <==> Lower(chamber) == "sxdl" || Lower(chamber) == "core"
    ensures r.Ok? ==> (r.value == Sxdl <==> Lower(chamber) == "sxdl")
    ensures r.Err? ==> r.error == UnknownChamber
  {
    var c := Lower(chamber);
    if c == "sxdl" then Ok(Sxdl) else if c == "core" then Ok(Core) else Err(UnknownChamber)
  }

  /** Which of the four machine meshes a camera uses. */
  datatype MeshSlot = SxdOuter | SxdUpper | CorePoloidal | CoreTangential

  /** The camera selection: outer/upper for SXDL, poloidal/tangential for
      CORE, in any case. */
  function SelectMesh(chamber: Chamber, camera: string): (r: Result<MeshSlot, BoloError>)
    ensures r.Ok? <==> (chamber == Sxdl && (Lower(camera) == "outer" || Lower(camera) == "upper")) ||
                       (chamber == Core && (Lower(camera) == "poloidal" || Lower(camera) == "tangential"))
    ensures r.Err? ==> r.error == UnknownCamera
    ensures r.Ok? ==> (r.value.SxdOuter? || r.value.SxdUpper? <==> chamber == Sxdl)
  {
    var c := Lower(camera);
    match chamber
    case Sxdl =>
      if c == "outer" then Ok(SxdOuter) else if c == "upper" then Ok(SxdUpper) else Err(UnknownCamera)
    case Core =>
      if c == "poloidal" then Ok(CorePoloidal) else if c == "tangential" then Ok(CoreTangential) else Err(UnknownCamera)
  }

  /** Chamber and camera are matched without regard to case. */
  lemma {:induction false} SelectionIgnoresCase(chamber: string, camera: string)
    ensures CheckChamber(chamber) == CheckChamber(Lower(chamber))
    ensures forall ch: Chamber :: SelectMesh(ch, camera) == SelectMesh(ch, Lower(camera))
  {
    LowerIdempotent(chamber);
    LowerIdempotent(camera);
  }

  function MeshOf(machine: MachineMeshes, slot: MeshSlot): MeshSpec {
    match slot
    case SxdOuter => machine.sxd.0
    case SxdUpper => machine.sxd.1
    case CorePoloidal => machine.core.0
    case CoreTangential => machine.core.1
  }

  /** `'MAST-U {} - {} Bolometer'.format(chamber, camera_name)`. */
  function CameraId(chamber: string, camera: string): string {
    "MAST-U " + chamber + " - " + camera + " Bolometer"
  }

  // ---------------------------------------------------------------------------
  // Archive ids and the slit and foil passes
  // ---------------------------------------------------------------------------

  /** `id.split('-')[2].split()[0]`: the camera an archive slit or foil id
      names, given ids of the form "MAST-U <chamber> - <camera> ...". */
  function IdCamera(id: string): (r: Result<string, BoloError>)
    ensures r.Err? ==> r.error == IdTooFewFields || r.error == IdNoCameraWord
    ensures r.Ok? ==> r.value != []
  {
    var parts := Split(id, '-');
    if |parts| < 3 then Err(IdTooFewFields)
    else match FirstWord(parts[2])
      case None => Err(IdNoCameraWord)
      case Some(w) => Ok(w)
  }

  /** An archive id is rejected when it has fewer than three '-'-separated
      fields (IndexError at `[2]`) or its third field is blank (IndexError at
      `[0]`). */
  lemma {:induction false} IdCameraErrors(id: string)
    ensures IdCamera(id).Err? <==> |Split(id, '-')| < 3 || AllSpace(Split(id, '-')[2])
    ensures IdCamera(id).Err? ==>
              IdCamera(id).error == (if |Split(id, '-')| < 3 then IdTooFewFields else IdNoCameraWord)
    ensures IdCamera(id).Ok? ==> NoSpace(IdCamera(id).value)
  {
  }

  /** The camera of "MAST-U <chamber> - <camera> <rest>" is `camera`. */
  lemma {:induction false} IdCameraOf(chamber: string, camera: string, rest: string)
    requires '-' !in chamber && '-' !in camera && '-' !in rest
    requires camera != [] && NoSpace(camera)
    requires rest == [] || IsSpace(rest[0])
    ensures IdCamera("MAST-U " + chamber + " - " + camera + rest) == Ok(camera)
  {
    var id := "MAST-U " + chamber + " - " + camera + rest;
    var p1, p2 := "U " + chamber + " ", " " + camera + rest;
    assert id == "MAST" + ['-'] + (p1 + ['-'] + p2);
    assert '-' !in p1;
    assert '-' !in p2;
    SplitAtFirst("MAST", p1 + ['-'] + p2, '-');
    SplitAtFirst(p1, p2, '-');
    assert Split(p2, '-') == [p2];
    assert Split(id, '-')[2] == p2;
    FirstWordOf(" ", camera, rest);
    assert " " + camera + rest == p2;
  }

  /** The slit object built from an archive slit; a missing curvature radius
      becomes 0. */
  function MakeSlit(s: SlitRecord): (slit: Slit)
    ensures slit.id == s.id
    ensures slit.curvatureRadius == (if s.curvatureRadius.Some? then s.curvatureRadius.value else 0.0)
  {
    Slit(s.id, UdaToVector(s.basis1), UdaToVector(s.basis2), UdaToPoint(s.centrePoint),
         s.width, s.height, if s.curvatureRadius.Some? then s.curvatureRadius.value else 0.0)
  }

  function MakeFoil(f: FoilRecord, slit: Slit): Foil
    requires f.curvatureRadius.Some?
  {
    Foil(f.id, UdaToVector(f.basis1), UdaToVector(f.basis2), UdaToPoint(f.centrePoint),
         f.width, f.height, f.curvatureRadius.value, slit)
  }

  /** `bolometers['/<name>/data']`, falling back to `'/data/<name>/data'`. */
  function Table<T>(tables: map<string, seq<T>>, name: string): (r: Result<seq<T>, BoloError>)
    ensures r.Ok? <==> ("/" + name + "/data") in tables || ("/data/" + name + "/data") in tables
    ensures r.Ok? && ("/" + name + "/data") in tables ==> r.value == tables["/" + name + "/data"]
    ensures r.Err? ==> r.error == MissingTable("/data/" + name + "/data")
  {
    var primary, fallback := "/" + name + "/data", "/data/" + name + "/data";
    if primary in tables then Ok(tables[primary])
    else if fallback in tables then Ok(tables[fallback])
    else Err(MissingTable(fallback))
  }

  /** The rule giving the camera an archive id names; the loader uses
      `IdCamera`, and the pass lemmas below hold for any rule. */
  type IdRule = string -> Result<string, BoloError>

  /** The slit dictionary after the archive slits have been visited in order:
      the slits of `camera`, keyed by id, a later slit replacing an earlier
      one with the same id; the first malformed id stops the pass. */
  function SlitObjects(slits: seq<SlitRecord>, camera: string, cameraOf: IdRule): (r: Result<map<string, Slit>, BoloError>)
    ensures r.Ok? ==> forall id :: id in r.value ==> r.value[id].id == id
    decreases |slits|
  {
    if slits == [] then Ok(map[])
    else
      match SlitObjects(slits[..|slits| - 1], camera, cameraOf)
      case Err(e) => Err(e)
      case Ok(m) =>
        var s := slits[|slits| - 1];
        match cameraOf(s.id)
        case Err(e) => Err(e)
        case Ok(c) => if c != camera then Ok(m) else Ok(m[s.id := MakeSlit(s)])
  }

  lemma {:induction false} SlitObjectsStopsAtError(slits: seq<SlitRecord>, camera: string, cameraOf: IdRule, j: nat)
    requires j <= |slits| && SlitObjects(slits[..j], camera, cameraOf).Err?
    ensures SlitObjects(slits, camera, cameraOf) == SlitObjects(slits[..j], camera, cameraOf)
    decreases |slits|
  {
    if j < |slits| {
      var init := slits[..|slits| - 1];
      assert init[..j] == slits[..j];
      SlitObjectsStopsAtError(init, camera, cameraOf, j);
    } else {
      assert slits[..j] == slits;
    }
  }

  /** The slit loop of `load_default_bolometer_config`, filling the slit
      dictionary in place. */
  method CollectSlits(slits: seq<SlitRecord>, camera: string) returns (r: Result<map<string, Slit>, BoloError>)
    ensures r == SlitObjects(slits, camera, IdCamera)
  {
    var slitObjects: map<string, Slit> := map[];
    for k := 0 to |slits|
      invariant SlitObjects(slits[..k], camera, IdCamera) == Ok(slitObjects)
    {
      var slit := slits[k];
      assert slits[..k + 1][..k] == slits[..k];
      var slitCamera := IdCamera(slit.id);
      if slitCamera.Err? {
        SlitObjectsStopsAtError(slits, camera, IdCamera, k + 1);
        return Err(slitCamera.error);
      }
      if slitCamera.value != camera {
        continue;
      }
      slitObjects := slitObjects[slit.id := MakeSlit(slit)];
    }
    assert slits[..|slits|] == slits;
    return Ok(slitObjects);
  }

  /** The slit pass fails exactly when some archive slit id is malformed. */
  lemma {:induction false} SlitObjectsErrors(slits: seq<SlitRecord>, camera: string, cameraOf: IdRule)
    ensures SlitObjects(slits, camera, cameraOf).Err? <==> exists j :: 0 <= j < |slits| && cameraOf(slits[j].id).Err?
    decreases |slits|
  {
    if slits != [] {
      var n := |slits|;
      var init := slits[..n - 1];
      SlitObjectsErrors(init, camera, cameraOf);
      if exists j :: 0 <= j < n - 1 && cameraOf(init[j].id).Err? {
        var j :| 0 <= j < n - 1 && cameraOf(init[j].id).Err?;
        assert slits[j] == init[j];
      }
      if exists j :: 0 <= j < n && cameraOf(slits[j].id).Err? {
        var j :| 0 <= j < n && cameraOf(slits[j].id).Err?;
        if j < n - 1 {
          assert init[j] == slits[j];
        }
      }
    }
  }

  /** The error that stops the slit pass is the one the id rule gave for
      some archive slit. */
  lemma {:induction false} SlitObjectsErrorFrom(slits: seq<SlitRecord>, camera: string, cameraOf: IdRule)
    ensures var r := SlitObjects(slits, camera, cameraOf);
            r.Err? ==> exists j :: 0 <= j < |slits| && cameraOf(slits[j].id) == Err(r.error)
    decreases |slits|
  {
    if slits != [] {
      var n := |slits|;
      var init := slits[..n - 1];
      SlitObjectsErrorFrom(init, camera, cameraOf);
      var r := SlitObjects(init, camera, cameraOf);
      if r.Err? {
        var j :| 0 <= j < n - 1 && cameraOf(init[j].id) == Err(r.error);
        assert slits[j] == init[j];
      }
    }
  }

  /** The slit dictionary holds exactly the ids of the archive slits of
      `camera`. */
  lemma {:induction false} SlitObjectsKeys(slits: seq<SlitRecord>, camera: string, cameraOf: IdRule)
    requires SlitObjects(slits, camera, cameraOf).Ok?
    ensures forall id :: id in SlitObjects(slits, camera, cameraOf).value <==>
              exists j :: 0 <= j < |slits| && slits[j].id == id && cameraOf(id) == Ok(camera)
    decreases |slits|
  {
    if slits != [] {
      var n := |slits|;
      var init := slits[..n - 1];
      SlitObjectsKeys(init, camera, cameraOf);
      var m, m' := SlitObjects(init, camera, cameraOf).value, SlitObjects(slits, camera, cameraOf).value;
      forall id
        ensures id in m' <==> exists j :: 0 <= j < n && slits[j].id == id && cameraOf(id) == Ok(camera)
      {
        if id in m' {
          if id in m {
            var j :| 0 <= j < n - 1 && init[j].id == id && cameraOf(id) == Ok(camera);
            assert slits[j] == init[j];
          } else {
            assert slits[n - 1].id == id;
          }
        }
        if exists j :: 0 <= j < n && slits[j].id == id && cameraOf(id) == Ok(camera) {
          var j :| 0 <= j < n && slits[j].id == id && cameraOf(id) == Ok(camera);
          if j < n - 1 {
            assert init[j] == slits[j];
          }
        }
      }
    }
  }

  /** The entry of an archive slit of `camera` that no later slit shares
      its id with is built from that slit: a later duplicate wins. */
  lemma {:induction false} SlitObjectsLastWins(slits: seq<SlitRecord>, camera: string, cameraOf: IdRule, j: nat)
    requires SlitObjects(slits, camera, cameraOf).Ok?
    requires j < |slits| && cameraOf(slits[j].id) == Ok(camera)
    requires forall i :: j < i < |slits| ==> slits[i].id != slits[j].id
    ensures slits[j].id in SlitObjects(slits, camera, cameraOf).value
    ensures SlitObjects(slits, camera, cameraOf).value[slits[j].id] == MakeSlit(slits[j])
    decreases |slits|
  {
    var n := |slits|;
    var init := slits[..n - 1];
    if j < n - 1 {
      assert init[j] == slits[j];
      forall i | j < i < n - 1
        ensures init[i].id != init[j].id
      {
        assert init[i] == slits[i];
      }
      SlitObjectsLastWins(init, camera, cameraOf, j);
    }
  }

  /** The outcome of the foil loop: the foils added to the camera, in
      archive order, and the error that stopped it, if any. */
  datatype FoilOutcome = FoilOutcome(added: seq<Foil>, error: Option<BoloError>)

  /** The foil loop after the archive foils have been visited in order: a
      foil of `camera` is attached to its slit and added; the first malformed
      id, curvature radius or slit stops the loop, keeping the foils added so
      far. The foil's keyword arguments are evaluated in order, so a missing
      radius is found before a missing slit. */
  function FoilPass(foils: seq<FoilRecord>, camera: string, slitObjects: map<string, Slit>, cameraOf: IdRule): (r: FoilOutcome)
    ensures |r.added| <= |foils|
    ensures forall k :: 0 <= k < |r.added| ==> r.added[k].slit in slitObjects.Values
    decreases |foils|
  {
    if foils == [] then FoilOutcome([], None)
    else
      var before := FoilPass(foils[..|foils| - 1], camera, slitObjects, cameraOf);
      var f := foils[|foils| - 1];
      if before.error.Some? then before
      else match cameraOf(f.id)
        case Err(e) => FoilOutcome(before.added, Some(e))
        case Ok(c) =>
          if c != camera then before
          else if f.curvatureRadius.None? then FoilOutcome(before.added, Some(FoilMissingCurvature(f.id)))
          else if f.slitId !in slitObjects then FoilOutcome(before.added, Some(MissingSlit(f.slitId)))
          else FoilOutcome(before.added + [MakeFoil(f, slitObjects[f.slitId])], None)
  }

  /** The archive foils of `camera`, in order. */
  function OfCamera(foils: seq<FoilRecord>, camera: string, cameraOf: IdRule): (kept: seq<FoilRecord>)
    ensures |kept| <= |foils|
    ensures forall k :: 0 <= k < |kept| ==> kept[k] in foils && cameraOf(kept[k].id) == Ok(camera)
    decreases |foils|
  {
    if foils == [] then []
    else
      var f := foils[|foils| - 1];
      var init := OfCamera(foils[..|foils| - 1], camera, cameraOf);
      assert forall g :: g in foils[..|foils| - 1] ==> g in foils;
      if cameraOf(f.id) == Ok(camera) then init + [f] else init
  }

  /** The foil loop stops exactly at a malformed id or at a foil of `camera`
      that lacks a curvature radius or whose slit was not kept. */
  lemma {:induction false} FoilPassErrors(foils: seq<FoilRecord>, camera: string, slitObjects: map<string, Slit>, cameraOf: IdRule)
    ensures FoilPass(foils, camera, slitObjects, cameraOf).error.None? <==>
              forall j :: 0 <= j < |foils| ==>
                cameraOf(foils[j].id).Ok? &&
                (cameraOf(foils[j].id).value == camera ==>
                   foils[j].curvatureRadius.Some? && foils[j].slitId in slitObjects)
    decreases |foils|
  {
    if foils != [] {
      var n := |foils|;
      var init := foils[..n - 1];
      FoilPassErrors(init, camera, slitObjects, cameraOf);
      assert forall j :: 0 <= j < n - 1 ==> init[j] == foils[j];
    }
  }

  /** When the foil loop does not stop, it adds, in order, one foil per
      archive foil of `camera`, attached to the slit that foil names. */
  lemma {:induction false} FoilPassAdded(foils: seq<FoilRecord>, camera: string, slitObjects: map<string, Slit>, cameraOf: IdRule)
    requires FoilPass(foils, camera, slitObjects, cameraOf).error.None?
    ensures var added, kept := FoilPass(foils, camera, slitObjects, cameraOf).added, OfCamera(foils, camera, cameraOf);
            |added| == |kept| &&
            forall k :: 0 <= k < |kept| ==>
              kept[k].curvatureRadius.Some? && kept[k].slitId in slitObjects &&
              added[k] == MakeFoil(kept[k], slitObjects[kept[k].slitId])
    decreases |foils|
  {
    if foils != [] {
      var n := |foils|;
      var init := foils[..n - 1];
      FoilPassAdded(init, camera, slitObjects, cameraOf);
    }
  }

  /** The error that stops the foil loop is a missing curvature radius of a
      foil of `camera`, a missing slit, or the one the id rule gave for some
      archive foil. */
  lemma {:induction false} FoilPassErrorFrom(foils: seq<FoilRecord>, camera: string, slitObjects: map<string, Slit>, cameraOf: IdRule)
    ensures var e := FoilPass(foils, camera, slitObjects, cameraOf).error;
            e.Some? ==>
              e.value.MissingSlit? ||
              (e.value.FoilMissingCurvature? &&
               exists j :: 0 <= j < |foils| && foils[j].id == e.value.foilId &&
                           cameraOf(foils[j].id) == Ok(camera) && foils[j].curvatureRadius.None?) ||
              exists j :: 0 <= j < |foils| && cameraOf(foils[j].id) == Err(e.value)
    decreases |foils|
  {
    if foils != [] {
      var n := |foils|;
      var init := foils[..n - 1];
      FoilPassErrorFrom(init, camera, slitObjects, cameraOf);
      var e := FoilPass(init, camera, slitObjects, cameraOf).error;
      if e.Some? && exists j :: 0 <= j < n - 1 && cameraOf(init[j].id) == Err(e.value) {
        var j :| 0 <= j < n - 1 && cameraOf(init[j].id) == Err(e.value);
        assert foils[j] == init[j];
      } else if e.Some? && e.value.FoilMissingCurvature? {
        var j :| 0 <= j < n - 1 && init[j].id == e.value.foilId &&
                 cameraOf(init[j].id) == Ok(camera) && init[j].curvatureRadius.None?;
        assert foils[j] == init[j];
      }
    }
  }

  lemma {:induction false} FoilPassStopsAtError(foils: seq<FoilRecord>, camera: string,
                                                slitObjects: map<string, Slit>, cameraOf: IdRule, j: nat)
    requires j <= |foils| && FoilPass(foils[..j], camera, slitObjects, cameraOf).error.Some?
    ensures FoilPass(foils, camera, slitObjects, cameraOf) == FoilPass(foils[..j], camera, slitObjects, cameraOf)
    decreases |foils|
  {
    if j < |foils| {
      var init := foils[..|foils| - 1];
      assert init[..j] == foils[..j];
      FoilPassStopsAtError(init, camera, slitObjects, cameraOf, j);
    } else {
      assert foils[..j] == foils;
    }
  }

  /** One more archive foil, visited while the loop is still running. */
  lemma {:induction false} FoilPassStep(foils: seq<FoilRecord>, camera: string, slitObjects: map<string, Slit>, cameraOf: IdRule, k: nat)
    requires k < |foils| && FoilPass(foils[..k], camera, slitObjects, cameraOf).error.None?
    ensures var f, before := foils[k], FoilPass(foils[..k], camera, slitObjects, cameraOf);
            var after := FoilPass(foils[..k + 1], camera, slitObjects, cameraOf);
            (cameraOf(f.id).Err? ==> after == FoilOutcome(before.added, Some(cameraOf(f.id).error))) &&
            (cameraOf(f.id).Ok? && cameraOf(f.id).value != camera ==> after == before) &&
            (cameraOf(f.id) == Ok(camera) && f.curvatureRadius.None? ==>
               after == FoilOutcome(before.added, Some(FoilMissingCurvature(f.id)))) &&
            (cameraOf(f.id) == Ok(camera) && f.curvatureRadius.Some? && f.slitId !in slitObjects ==>
               after == FoilOutcome(before.added, Some(MissingSlit(f.slitId)))) &&
            (cameraOf(f.id) == Ok(camera) && f.curvatureRadius.Some? && f.slitId in slitObjects ==>
               after == FoilOutcome(before.added + [MakeFoil(f, slitObjects[f.slitId])], None))
  {
    assert foils[..k + 1][..k] == foils[..k];
    assert foils[..k + 1][k] == foils[k];
  }

  lemma {:induction false} OfCameraNone(foils: seq<FoilRecord>, camera: string, cameraOf: IdRule)
    requires forall j :: 0 <= j < |foils| ==> cameraOf(foils[j].id) != Ok(camera)
    ensures OfCamera(foils, camera, cameraOf) == []
    decreases |foils|
  {
    if foils != [] {
      var init := foils[..|foils| - 1];
      assert forall j :: 0 <= j < |init| ==> init[j] == foils[j];
      OfCameraNone(init, camera, cameraOf);
    }
  }

  /** A camera whose name no archive foil id carries gets no foils, even
      when it names the same camera in another case: the foil filter, unlike
      the camera selection, is case-sensitive. */
  lemma {:induction false} OtherCameraAddsNothing(foils: seq<FoilRecord>, camera: string, slitObjects: map<string, Slit>, cameraOf: IdRule)
    requires forall j :: 0 <= j < |foils| ==> cameraOf(foils[j].id).Ok? && cameraOf(foils[j].id).value != camera
    ensures FoilPass(foils, camera, slitObjects, cameraOf) == FoilOutcome([], None)
  {
    FoilPassErrors(foils, camera, slitObjects, cameraOf);
    FoilPassAdded(foils, camera, slitObjects, cameraOf);
    OfCameraNone(foils, camera, cameraOf);
  }

  /** The camera selection accepts "poloidal" and "Poloidal" alike (the
      foil filter, by contrast, compares the id's camera word with the name
      as given, see `OtherCameraAddsNothing`). */
  lemma {:induction false} MeshSelectionIgnoresCaseExample()
    ensures SelectMesh(Core, "poloidal") == Ok(CorePoloidal)
    ensures SelectMesh(Core, "Poloidal") == Ok(CorePoloidal)
  {
    LowerOf("poloidal", "poloidal");
    LowerOf("Poloidal", "poloidal");
  }

  // ---------------------------------------------------------------------------
  // The camera and the loader
  // ---------------------------------------------------------------------------

  /** The camera object the loader builds; `AddFoilDetector` extends its foil
      list in place. */
  class BolometerCamera {
    const name: string
    const geometry: CameraGeometry
    var foils: seq<Foil>

    constructor (name: string, geometry: CameraGeometry)
      ensures this.name == name && this.geometry == geometry && foils == []
    {
      this.name := name;
      this.geometry := geometry;
      foils := [];
    }

    /** `add_foil_detector`. */
    method AddFoilDetector(foil: Foil)
      modifies this
      ensures foils == old(foils) + [foil]
    {
      foils := foils + [foil];
    }
  }

  /** The foil loop of `load_default_bolometer_config`, adding each kept foil
      to the camera; `cameraOf` is the id rule (the loader passes `IdCamera`). */
  method AddFoils(bolometerCamera: BolometerCamera, foils: seq<FoilRecord>, camera: string,
                  slitObjects: map<string, Slit>, cameraOf: IdRule) returns (error: Option<BoloError>)
    modifies bolometerCamera
    ensures error == FoilPass(foils, camera, slitObjects, cameraOf).error
    ensures bolometerCamera.foils == old(bolometerCamera.foils) + FoilPass(foils, camera, slitObjects, cameraOf).added
  {
    for k := 0 to |foils|
      invariant FoilPass(foils[..k], camera, slitObjects, cameraOf).error.None?
      invariant bolometerCamera.foils == old(bolometerCamera.foils) + FoilPass(foils[..k], camera, slitObjects, cameraOf).added
    {
      var foil := foils[k];
      FoilPassStep(foils, camera, slitObjects, cameraOf, k);
      var foilCamera := cameraOf(foil.id);
      if foilCamera.Err? {
        FoilPassStopsAtError(foils, camera, slitObjects, cameraOf, k + 1);
        return Some(foilCamera.error);
      }
      if foilCamera.value != camera {
        continue;
      }
      if foil.curvatureRadius.None? {
        FoilPassStopsAtError(foils, camera, slitObjects, cameraOf, k + 1);
        return Some(FoilMissingCurvature(foil.id));
      }
      if foil.slitId !in slitObjects {
        FoilPassStopsAtError(foils, camera, slitObjects, cameraOf, k + 1);
        return Some(MissingSlit(foil.slitId));
      }
      bolometerCamera.AddFoilDetector(MakeFoil(foil, slitObjects[foil.slitId]));
    }
    assert foils[..|foils|] == foils;
    return None;
  }

  /** The camera `load_default_bolometer_config` returns, as a value. */
  datatype CameraConfig = CameraConfig(name: string, geometry: CameraGeometry, foils: seq<Foil>)

  /** What `load_default_bolometer_config(bolometer_id, override_material=...)`
      returns for the geometry the archive gave (`None`: the fetch failed). */
  function Config(id: string, fetched: Option<BolometerGeometry>, machine: MachineMeshes,
                  overrideMaterial: Option<Material>): (r: Result<CameraConfig, BoloError>)
    ensures ParseBolometerId(id).Err? ==> r == Err(IdNotTwoParts)
    ensures r.Ok? ==> fetched.Some? && ParseBolometerId(id).Ok? &&
                      r.value.name == CameraId(ParseBolometerId(id).value.0, ParseBolometerId(id).value.1)
  {
    match ParseBolometerId(id)
    case Err(e) => Err(e)
    case Ok((chamber, cameraName)) =>
      match CheckChamber(chamber)
      case Err(e) => Err(e)
      case Ok(ch) =>
        if fetched.None? then Err(GeometryUnavailable)
        else
          match SelectMesh(ch, cameraName)
          case Err(e) => Err(e)
          case Ok(slot) =>
            var mesh := MeshOf(machine, slot);
            var material := if overrideMaterial.Some? then overrideMaterial.value else mesh.material;
            match Table(fetched.value.slitTables, "slits")
            case Err(e) => Err(e)
            case Ok(slits) =>
              match SlitObjects(slits, cameraName, IdCamera)
              case Err(e) => Err(e)
              case Ok(slitObjects) =>
                match Table(fetched.value.foilTables, "foils")
                case Err(e) => Err(e)
                case Ok(foils) =>
                  var pass := FoilPass(foils, cameraName, slitObjects, IdCamera);
                  if pass.error.Some? then Err(pass.error.value)
                  else Ok(CameraConfig(CameraId(chamber, cameraName), CameraGeometry(mesh.path, material), pass.added))
  }

  /** The error the loader reports first: an id or chamber problem is found
      before the archive is asked, a camera problem after. */
  lemma {:induction false} ConfigErrorOrder(id: string, fetched: Option<BolometerGeometry>, machine: MachineMeshes,
                         overrideMaterial: Option<Material>)
    requires ParseBolometerId(id).Ok?
    ensures var (chamber, camera) := ParseBolometerId(id).value;
            var r := Config(id, fetched, machine, overrideMaterial);
            (CheckChamber(chamber).Err? ==> r == Err(UnknownChamber)) &&
            (CheckChamber(chamber).Ok? && fetched.None? ==> r == Err(GeometryUnavailable)) &&
            (CheckChamber(chamber).Ok? && fetched.Some? && SelectMesh(CheckChamber(chamber).value, camera).Err? ==>
               r == Err(UnknownCamera))
  {
  }

  /** The errors that depend on what the archive returned rather than on the
      camera id alone. */
  predicate ArchiveError(e: BoloError) {
    e.GeometryUnavailable? || e.MissingTable? || e.IdTooFewFields? || e.IdNoCameraWord? || e.FoilMissingCurvature? ||
    e.MissingSlit?
  }

  /** Once the id, its chamber and its camera are accepted, only the archive
      can make the loader fail. */
  lemma {:induction false} ConfigArchiveErrors(id: string, fetched: Option<BolometerGeometry>, machine: MachineMeshes,
                            overrideMaterial: Option<Material>)
    requires ParseBolometerId(id).Ok?
    requires CheckChamber(ParseBolometerId(id).value.0).Ok?
    requires SelectMesh(CheckChamber(ParseBolometerId(id).value.0).value, ParseBolometerId(id).value.1).Ok?
    ensures Config(id, fetched, machine, overrideMaterial).Err? ==>
              ArchiveError(Config(id, fetched, machine, overrideMaterial).error)
  {
    var r := Config(id, fetched, machine, overrideMaterial);
    var camera := ParseBolometerId(id).value.1;
    if r.Err? && fetched.Some? {
      var slits := Table(fetched.value.slitTables, "slits");
      var foils := Table(fetched.value.foilTables, "foils");
      if slits.Err? {
        assert r.error == slits.error;
      } else if SlitObjects(slits.value, camera, IdCamera).Err? {
        SlitObjectsErrorFrom(slits.value, camera, IdCamera);
        assert r.error == SlitObjects(slits.value, camera, IdCamera).error;
      } else if foils.Err? {
        assert r.error == foils.error;
      } else {
        var slitObjects := SlitObjects(slits.value, camera, IdCamera).value;
        FoilPassErrorFrom(foils.value, camera, slitObjects, IdCamera);
        assert r.error == FoilPass(foils.value, camera, slitObjects, IdCamera).error.value;
      }
    }
  }

  /** The material of the camera mesh is the override when one is given and
      the mesh's own otherwise. */
  lemma {:induction false} ConfigMaterial(id: string, fetched: Option<BolometerGeometry>, machine: MachineMeshes,
                       overrideMaterial: Option<Material>)
    requires Config(id, fetched, machine, overrideMaterial).Ok?
    ensures var (chamber, camera) := ParseBolometerId(id).value;
            var slot := SelectMesh(CheckChamber(chamber).value, camera).value;
            var g := Config(id, fetched, machine, overrideMaterial).value.geometry;
            g.path == MeshOf(machine, slot).path &&
            g.material == (if overrideMaterial.Some? then overrideMaterial.value else MeshOf(machine, slot).material)
  {
    var (chamber, camera) := ParseBolometerId(id).value;
    assert CheckChamber(chamber).Ok? && fetched.Some?;
    assert SelectMesh(CheckChamber(chamber).value, camera).Ok?;
  }

  /** `load_default_bolometer_config`: the loader with the camera object
      built and filled in place. */
  method LoadDefaultBolometerConfig(id: string, fetched: Option<BolometerGeometry>, machine: MachineMeshes,
                                    overrideMaterial: Option<Material>)
    returns (r: Result<BolometerCamera, BoloError>)
    ensures var spec := Config(id, fetched, machine, overrideMaterial);
            (r.Err? <==> spec.Err?) && (r.Err? ==> r.error == spec.error) &&
            (r.Ok? ==> fresh(r.value) && r.value.name == spec.value.name &&
                       r.value.geometry == spec.value.geometry && r.value.foils == spec.value.foils)
  {
    var parsed := ParseBolometerId(id);
    if parsed.Err? {
      return Err(parsed.error);
    }
    var (chamber, cameraName) := parsed.value;
    var ch := CheckChamber(chamber);
    if ch.Err? {
      return Err(ch.error);
    }
    if fetched.None? {
      return Err(GeometryUnavailable);
    }
    var bolometers := fetched.value;
    var slot := SelectMesh(ch.value, cameraName);
    if slot.Err? {
      return Err(slot.error);
    }
    var meshGeometryData := MeshOf(machine, slot.value);
    var cameraMaterial := if overrideMaterial.Some? then overrideMaterial.value else meshGeometryData.material;
    var cameraGeometry := CameraGeometry(meshGeometryData.path, cameraMaterial);
    var bolometerCamera := new BolometerCamera(CameraId(chamber, cameraName), cameraGeometry);
    var slits := Table(bolometers.slitTables, "slits");
    if slits.Err? {
      return Err(slits.error);
    }
    var slitObjects := CollectSlits(slits.value, cameraName);
    if slitObjects.Err? {
      return Err(slitObjects.error);
    }
    var foils := Table(bolometers.foilTables, "foils");
    if foils.Err? {
      return Err(foils.error);
    }
    var error := AddFoils(bolometerCamera, foils.value, cameraName, slitObjects.value, IdCamera);
    if error.Some? {
      return Err(error.value);
    }
    return Ok(bolometerCamera);
  }
}
