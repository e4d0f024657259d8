/** The sensitivity-matrix script for the bolometer cameras
    (examples/bolometry/sensitivities/rtm_sensitivities.py): which grid, camera
    and vessel meshes a run uses, the names it derives, the vessel world it
    builds, and the order in which its steps can fail. The ray tracing and the
    saved matrix are not modelled; a run ends with the matrix's shape. */
module RtmSensitivities {
  import opened Outcomes
  import opened PyStr
  import opened PySeq
  import opened BolometerConfig

  /** Why a run stops. */
  datatype RtmError =
    | UnsupportedCamera        // ValueError: `main` knows seven camera names
    | UnsupportedGrid          // ValueError: no bolometer chamber for the grid
    | InvalidGrid              // ValueError: no ray-transfer grid of that name
    | FileNameNotTwoParts      // ValueError: `name, ext = filename.split('.')`
    | UnsupportedMeshFormat    // ValueError: neither RSM nor OBJ
    | BolometerFailure(cause: BoloError)  // raised by the camera loader
  {
    function Exception(): PyException {
      if BolometerFailure? then cause.Exception() else ValueError
    }
  }

  // ---------------------------------------------------------------------------
  // The vessel world
  // ---------------------------------------------------------------------------

  /** A raysect `translate(x, y, z)`. */
  datatype Translation = Translation(x: real, y: real, z: real)

  const Identity := Translation(0.0, 0.0, 0.0)

  /** `outer * inner` for two translations. */
  function Compose(outer: Translation, inner: Translation): (t: Translation)
    ensures inner == Identity ==> t == outer
    ensures outer == Identity ==> t == inner
  {
    Translation(outer.x + inner.x, outer.y + inner.y, outer.z + inner.z)
  }

  /** The downward shift of the P5 coil meshes for the sag of the upper end
      plate. */
  const P5Shift := Translation(0.0, 0.0, -0.00485)

  /** A primitive the script adds to the world; every one is an absorbing
      surface. */
  datatype Primitive =
    | RsmMesh(path: string, name: string, transform: Option<Translation>)  // `Mesh.from_file`
    | ObjMesh(path: string, name: string)                                   // `import_obj`
    | Cylinder(radius: real, height: real, placement: Translation, name: string)

  /** The solid cylinder at R = 0 that keeps rays from slipping through the
      gaps of the centre column armour. */
  const BlockingCylinder := Cylinder(0.1, 6.0, Translation(0.0, 0.0, -6.0 / 2.0), "Blocking Cylinder")

  /** An entry of a mesh-part list: the mesh file, and a second value the
      script ignores. */
  datatype MeshPart = MeshPart(path: string, tag: string)

  /** `translate(0, 0, p5_zshift)` when `'P5_' in path and shift_p5`, and no
      transform otherwise. */
  function P5Transform(path: string, shiftP5: bool): (t: Option<Translation>)
    ensures t.Some? <==> shiftP5 && Contains(path, "P5_")
    ensures t.Some? ==> t.value == P5Shift
  {
    if Contains(path, "P5_") && shiftP5 then Some(P5Shift) else None
  }

  /** The reader the extension selects, in any case: the RSM reader takes the
      transform, the OBJ importer does not. */
  function LoadMesh(path: string, name: string, ext: string, transform: Option<Translation>): (r: Result<Primitive, RtmError>)
    ensures r.Ok? <==> Lower(ext) == "rsm" || Lower(ext) == "obj"
    ensures r.Err? ==> r.error == UnsupportedMeshFormat
    ensures r.Ok? ==> (r.value.RsmMesh? || r.value.ObjMesh?) && r.value.path == path && r.value.name == name &&
                      (r.value.RsmMesh? <==> Lower(ext) == "rsm") &&
                      (r.value.RsmMesh? ==> r.value.transform == transform)
  {
    var e := Lower(ext);
    if e == "rsm" then Ok(RsmMesh(path, name, transform))
    else if e == "obj" then Ok(ObjMesh(path, name))
    else Err(UnsupportedMeshFormat)
  }

  /** One iteration of the loop of `load_vessel_world`: the primitive loaded
      from the file at `path`. */
  function VesselPart(path: string, shiftP5: bool): (r: Result<Primitive, RtmError>)
    ensures r.Err? ==> r.error == FileNameNotTwoParts || r.error == UnsupportedMeshFormat
    ensures r.Ok? ==> (r.value.RsmMesh? || r.value.ObjMesh?) && r.value.path == path
    ensures r.Ok? && r.value.RsmMesh? ==> r.value.transform == P5Transform(path, shiftP5)
  {
    var pieces := Split(BaseName(path), '.');
    if |pieces| != 2 then Err(FileNameNotTwoParts)
    else LoadMesh(path, pieces[0], pieces[1], P5Transform(path, shiftP5))
  }

  /** A mesh file name must hold exactly one '.', and its extension must be
      rsm or obj in any case. */
  lemma {:induction false} VesselPartErrors(path: string, shiftP5: bool)
    ensures VesselPart(path, shiftP5) == Err(FileNameNotTwoParts) <==> multiset(BaseName(path))['.'] != 1
    ensures VesselPart(path, shiftP5).Ok? <==>
              multiset(BaseName(path))['.'] == 1 &&
              (Lower(Split(BaseName(path), '.')[1]) == "rsm" || Lower(Split(BaseName(path), '.')[1]) == "obj")
  {
    SplitCount(BaseName(path), '.');
  }

  /** The file "<dir>/<name>.<ext>" is loaded under the name `name` by the
      reader its extension selects. */
  lemma {:induction false} VesselPartOf(dir: string, name: string, ext: string, shiftP5: bool)
    requires '/' !in name && '/' !in ext && '.' !in name && '.' !in ext
    ensures var path := dir + "/" + name + "." + ext;
            VesselPart(path, shiftP5) == LoadMesh(path, name, ext, P5Transform(path, shiftP5))
  {
    var path, file := dir + "/" + name + "." + ext, name + "." + ext;
    assert BaseName(path) == file by {
      assert file == name + ['.'] + ext;
      assert '/' !in file;
      BaseNameOf(dir, file);
      assert path == dir + "/" + file;
    }
    assert Split(file, '.') == [name, ext] by {
      assert file == name + ['.'] + ext;
      SplitAtFirst(name, ext, '.');
      assert Split(ext, '.') == [ext];
    }
  }

  /** How a mesh path becomes a primitive. */
  type MeshLoader = string -> Result<Primitive, RtmError>

  /** The loop body of `load_vessel_world` for a given `shift_p5`. */
  function VesselLoader(shiftP5: bool): MeshLoader {
    path => VesselPart(path, shiftP5)
  }

  /** The primitives the loop of `load_vessel_world` gathers from the parts
      in order; the first part that fails stops it. */
  function VesselParts(parts: seq<MeshPart>, load: MeshLoader): (r: Result<seq<Primitive>, RtmError>)
    ensures r.Ok? ==> |r.value| == |parts| &&
                      forall k :: 0 <= k < |parts| ==> load(parts[k].path) == Ok(r.value[k])
    decreases |parts|
  {
    if parts == [] then Ok([])
    else
      var init := parts[..|parts| - 1];
      match VesselParts(init, load)
      case Err(e) => Err(e)
      case Ok(ps) =>
        match load(parts[|parts| - 1].path)
        case Err(e) => Err(e)
        case Ok(p) =>
          assert forall k :: 0 <= k < |init| ==> init[k] == parts[k] && (ps + [p])[k] == ps[k];
          Ok(ps + [p])
  }

  lemma {:induction false} VesselPartsStopsAtError(parts: seq<MeshPart>, load: MeshLoader, j: nat)
    requires j <= |parts| && VesselParts(parts[..j], load).Err?
    ensures VesselParts(parts, load) == VesselParts(parts[..j], load)
    decreases |parts|
  {
    if j < |parts| {
      var init := parts[..|parts| - 1];
      assert init[..j] == parts[..j];
      VesselPartsStopsAtError(init, load, j);
    } else {
      assert parts[..j] == parts;
    }
  }

  /** The loop fails exactly when some part fails, and then with the error of
      the first part that does. */
  lemma {:induction false} VesselPartsFirstError(parts: seq<MeshPart>, load: MeshLoader)
    requires VesselParts(parts, load).Err?
    ensures exists k :: 0 <= k < |parts| && load(parts[k].path) == Err(VesselParts(parts, load).error) &&
                        forall j :: 0 <= j < k ==> load(parts[j].path).Ok?
    decreases |parts|
  {
    var n := |parts|;
    var init := parts[..n - 1];
    var e := VesselParts(parts, load).error;
    if VesselParts(init, load).Err? {
      VesselPartsFirstError(init, load);
      var k :| 0 <= k < n - 1 && load(init[k].path) == Err(e) &&
               forall j :: 0 <= j < k ==> load(init[j].path).Ok?;
      assert parts[k] == init[k];
      assert forall j :: 0 <= j < k ==> parts[j] == init[j];
    } else {
      var ps := VesselParts(init, load).value;
      assert load(parts[n - 1].path) == Err(e);
      assert forall j :: 0 <= j < n - 1 ==> parts[j] == init[j];
    }
  }

  /** The vessel loop fails only on a mesh file name without exactly one
      '.' or with an extension other than rsm and obj. */
  lemma {:induction false} VesselPartsErrors(parts: seq<MeshPart>, shiftP5: bool)
    ensures var r := VesselParts(parts, VesselLoader(shiftP5));
            r.Err? ==> r.error == FileNameNotTwoParts || r.error == UnsupportedMeshFormat
  {
    var load := VesselLoader(shiftP5);
    if VesselParts(parts, load).Err? {
      VesselPartsFirstError(parts, load);
      var k :| 0 <= k < |parts| && load(parts[k].path) == Err(VesselParts(parts, load).error) &&
               forall j :: 0 <= j < k ==> load(parts[j].path).Ok?;
      assert load(parts[k].path) == VesselPart(parts[k].path, shiftP5);
    }
  }

  /** The scene-graph root; `Attach` is `parent=world`. */
  class World {
    var children: seq<Primitive>

    constructor ()
      ensures children == []
    {
      children := [];
    }

    method Attach(p: Primitive)
      modifies this
      ensures children == old(children) + [p]
    {
      children := children + [p];
    }
  }

  /** `load_vessel_world(mesh_parts, shift_p5)`. */
  method LoadVesselWorld(meshParts: seq<MeshPart>, shiftP5: bool) returns (r: Result<World, RtmError>)
    ensures VesselParts(meshParts, VesselLoader(shiftP5)).Err? ==> r == Err(VesselParts(meshParts, VesselLoader(shiftP5)).error)
    ensures VesselParts(meshParts, VesselLoader(shiftP5)).Ok? ==>
              r.Ok? && fresh(r.value) && r.value.children == VesselParts(meshParts, VesselLoader(shiftP5)).value + [BlockingCylinder]
  {
    var world := new World();
    for k := 0 to |meshParts|
      invariant fresh(world)
      invariant VesselParts(meshParts[..k], VesselLoader(shiftP5)).Ok?
      invariant world.children == VesselParts(meshParts[..k], VesselLoader(shiftP5)).value
    {
      assert meshParts[..k + 1][..k] == meshParts[..k];
      assert meshParts[..k + 1][k] == meshParts[k];
      var part := VesselPart(meshParts[k].path, shiftP5);
      if part.Err? {
        VesselPartsStopsAtError(meshParts, VesselLoader(shiftP5), k + 1);
        return Err(part.error);
      }
      world.Attach(part.value);
    }
    assert meshParts[..|meshParts|] == meshParts;
    world.Attach(BlockingCylinder);
    return Ok(world);
  }

  // ---------------------------------------------------------------------------
  // Names and grids
  // ---------------------------------------------------------------------------

  /** `camera.split("-")[0]`: the camera without the metadata that only
      names the output file. */
  function CameraWithoutMeta(camera: string): (c: string)
    ensures '-' !in c && |c| <= |camera| && camera[..|c|] == c
    ensures |c| < |camera| ==> camera[|c|] == '-'
    ensures '-' !in camera ==> c == camera
  {
    SplitFirst(camera, '-');
    Split(camera, '-')[0]
  }

  /** The bolometer id the script asks the camera loader for. */
  function BoloName(grid: string, camera: string): (r: Result<string, RtmError>)
    ensures r.Ok? <==> grid == "sxdl" || grid == "core" || grid == "core_high_res"
    ensures r.Err? ==> r.error == UnsupportedGrid
  {
    var camNometa := CameraWithoutMeta(camera);
    if grid == "sxdl" then Ok("SXDL - " + camNometa)
    else if grid == "core" || grid == "core_high_res" then Ok("CORE - " + camNometa)
    else Err(UnsupportedGrid)
  }

  /** The chamber a grid's bolometer id names. */
  function GridChamber(grid: string): string {
    if grid == "sxdl" then "SXDL" else "CORE"
  }

  /** The loader reads the script's bolometer id back as the grid's chamber
      and the camera without metadata, and accepts the chamber. */
  lemma {:induction false} BoloNameAccepted(grid: string, camera: string)
    requires BoloName(grid, camera).Ok?
    requires var c := CameraWithoutMeta(camera); c == [] || (!IsSpace(c[0]) && !IsSpace(c[|c| - 1]))
    ensures ParseBolometerId(BoloName(grid, camera).value) == Ok((GridChamber(grid), CameraWithoutMeta(camera)))
    ensures CheckChamber(GridChamber(grid)) == Ok(if grid == "sxdl" then Sxdl else Core)
  {
    var chamber, c := GridChamber(grid), CameraWithoutMeta(camera);
    assert BoloName(grid, camera).value == chamber + " - " + c;
    ParseBolometerIdRoundTrip(chamber, c);
    if grid == "sxdl" {
      SxdlAccepted();
    } else {
      CoreAccepted();
    }
  }

  lemma {:induction false} SxdlAccepted()
    ensures CheckChamber("SXDL") == Ok(Sxdl)
  {
    LowerOf("SXDL", "sxdl");
  }

  lemma {:induction false} CoreAccepted()
    ensures CheckChamber("CORE") == Ok(Core)
  {
    LowerOf("CORE", "core");
  }

  /** `"rtm_{}_{}_bolo.npy".format(grid.replace("_", "-"), camera.lower())`. */
  function OutputFileName(grid: string, camera: string): (f: string)
    ensures |f| == |grid| + |camera| + 14
  {
    "rtm_" + ReplaceChar(grid, '_', '-') + "_" + Lower(camera) + "_bolo.npy"
  }

  /** The file name tells the grid (with '-' for '_') and the lower-cased
      camera apart: two runs write the same file exactly when both agree. */
  lemma {:induction false} FileNameDetermines(grid1: string, camera1: string, grid2: string, camera2: string)
    ensures OutputFileName(grid1, camera1) == OutputFileName(grid2, camera2) <==>
              ReplaceChar(grid1, '_', '-') == ReplaceChar(grid2, '_', '-') && Lower(camera1) == Lower(camera2)
  {
    var h1, h2 := ReplaceChar(grid1, '_', '-'), ReplaceChar(grid2, '_', '-');
    var t1, t2 := Lower(camera1) + "_bolo.npy", Lower(camera2) + "_bolo.npy";
    var f1, f2 := OutputFileName(grid1, camera1), OutputFileName(grid2, camera2);
    assert f1 == "rtm_" + (h1 + ['_'] + t1);
    assert f2 == "rtm_" + (h2 + ['_'] + t2);
    if f1 == f2 {
      assert h1 + ['_'] + t1 == f1[4..] == h2 + ['_'] + t2;
      ReplaceCharRemoves(grid1, '_', '-');
      ReplaceCharRemoves(grid2, '_', '-');
      SeparatedAt(h1, t1, h2, t2, '_');
      assert Lower(camera1) == t1[..|t1| - 9];
      assert Lower(camera2) == t2[..|t2| - 9];
    }
  }

  /** The file name writes the core grid as it is. */
  lemma {:induction false} CoreGridInFileName()
    ensures ReplaceChar("core", '_', '-') == "core"
  {
    var s := "core";
    assert s[0] == 'c' && s[1] == 'o' && s[2] == 'r' && s[3] == 'e';
    ReplaceCharOf(s, '_', '-', s);
  }

  /** The file name writes the high-resolution grid with '-'. */
  lemma {:induction false} HighResGridInFileName()
    ensures ReplaceChar("core_high_res", '_', '-') == "core-high-res"
  {
    ReplaceCharOf("core_high_res", '_', '-', "core-high-res");
  }

  /** The file name writes the poloidal camera in lower case. */
  lemma {:induction false} PoloidalInFileName()
    ensures Lower("Poloidal") == "poloidal"
  {
    LowerOf("Poloidal", "poloidal");
  }

  /** The file name writes the MAST camera, metadata included, in lower case. */
  lemma {:induction false} MastCameraInFileName()
    ensures Lower("Poloidal-MAST") == "poloidal-mast"
  {
    LowerOf("Poloidal-MAST", "poloidal-mast");
  }

  /** The MAST poloidal camera keeps its metadata in the file name. */
  lemma {:induction false} MastFileNameExample()
    ensures OutputFileName("core", "Poloidal-MAST") == "rtm_core_poloidal-mast_bolo.npy"
  {
    assert "rtm_" + "core" + "_" + "poloidal-mast" + "_bolo.npy" == "rtm_core_poloidal-mast_bolo.npy";
    CoreGridInFileName();
    MastCameraInFileName();
  }

  /** The high-resolution grid name keeps the grid apart in the file name. */
  lemma {:induction false} HighResFileNameExample()
    ensures OutputFileName("core_high_res", "Poloidal") == "rtm_core-high-res_poloidal_bolo.npy"
  {
    assert "rtm_" + "core-high-res" + "_" + "poloidal" + "_bolo.npy" == "rtm_core-high-res_poloidal_bolo.npy";
    HighResGridInFileName();
    PoloidalInFileName();
  }

  /** `RayTransferCylinder(radius_inner, radius_outer, height, transform=translate(0, 0, z_shift), n_radius, n_height)`. */
  datatype RayTransferCylinder = RayTransferCylinder(
    radiusInner: real, radiusOuter: real, height: real, zShift: real, nRadius: nat, nHeight: nat)
  {
    /** `rtc.bins`: one bin per cell. */
    function Bins(): nat {
      nRadius * nHeight
    }
  }

  /** The ray-transfer grid of a grid name. */
  function RayTransferGrid(grid: string): (r: Result<RayTransferCylinder, RtmError>)
    ensures r.Ok? <==> grid == "sxdl" || grid == "core" || grid == "core_high_res"
    ensures r.Err? ==> r.error == InvalidGrid
    ensures r.Ok? ==> 0.0 < r.value.radiusInner < r.value.radiusOuter && 0.0 < r.value.height && 0 < r.value.Bins()
  {
    if grid == "sxdl" then Ok(RayTransferCylinder(0.5, 2.0, 0.6, -2.1, 150, 60))
    else if grid == "core" then Ok(RayTransferCylinder(0.25, 1.5431, 3.1, -1.549, 30, 70))
    else if grid == "core_high_res" then Ok(RayTransferCylinder(0.25, 1.5431, 3.1, -1.549, 750, 1550))
    else Err(InvalidGrid)
  }

  /** The high-resolution core grid covers the core grid's cylinder with
      25 times the radial and more than 22 times the vertical cells. */
  lemma {:induction false} HighResRefinesCore()
    ensures var core, fine := RayTransferGrid("core").value, RayTransferGrid("core_high_res").value;
            fine.radiusInner == core.radiusInner && fine.radiusOuter == core.radiusOuter &&
            fine.height == core.height && fine.zShift == core.zShift &&
            fine.nRadius == 25 * core.nRadius && fine.nHeight > 22 * core.nHeight
  {
  }

  /** The grids with a ray-transfer cylinder are the grids with a bolometer
      chamber, so the "Invalid grid name" error is never reached. */
  lemma {:induction false} GridAgreesWithBoloName(grid: string, camera: string)
    ensures RayTransferGrid(grid).Ok? <==> BoloName(grid, camera).Ok?
  {
  }

  // ---------------------------------------------------------------------------
  // calculate_and_save_sensitivities
  // ---------------------------------------------------------------------------

  /** What a run has set up when the matrix is computed: the vessel world,
      the names, the camera (as loaded and as placed), the grid, and the
      matrix shape `(len(bolo), rtc.bins)`. */
  datatype Sensitivities = Sensitivities(
    world: seq<Primitive>, boloName: string, fileName: string, camera: CameraConfig,
    placement: Translation, grid: RayTransferCylinder, rows: nat, columns: nat)

  /** `calculate_and_save_sensitivities` up to the matrix computation;
      `fetched` is the archive's answer for shot 50000 and the camera is
      loaded without a material override. */
  function SensitivityRun(grid: string, camera: string, meshParts: seq<MeshPart>, shiftP5: bool,
                          cameraTransform: Option<Translation>, fetched: Option<BolometerGeometry>,
                          machine: MachineMeshes): (r: Result<Sensitivities, RtmError>)
    ensures r.Ok? ==> r.value.rows == |r.value.camera.foils| && r.value.columns == r.value.grid.Bins() &&
                      r.value.fileName == OutputFileName(grid, camera) &&
                      VesselParts(meshParts, VesselLoader(shiftP5)).Ok? &&
                      r.value.world == VesselParts(meshParts, VesselLoader(shiftP5)).value + [BlockingCylinder]
  {
    match VesselParts(meshParts, VesselLoader(shiftP5))
    case Err(e) => Err(e)
    case Ok(parts) =>
      match BoloName(grid, camera)
      case Err(e) => Err(e)
      case Ok(boloName) =>
        var fileName := OutputFileName(grid, camera);
        match Config(boloName, fetched, machine, None)
        case Err(e) => Err(BolometerFailure(e))
        case Ok(bolo) =>
          var placement := if cameraTransform.Some? then Compose(cameraTransform.value, Identity) else Identity;
          match RayTransferGrid(grid)
          case Err(e) => Err(e)
          case Ok(rtc) =>
            Ok(Sensitivities(parts + [BlockingCylinder], boloName, fileName, bolo, placement, rtc,
                             |bolo.foils|, rtc.Bins()))
  }

  /** The order of the failures: the vessel meshes are checked first, then
      the grid name (by the bolometer id), then the camera loader; the
      ray-transfer grid check that follows never fails. */
  lemma {:induction false} SensitivityRunErrors(grid: string, camera: string, meshParts: seq<MeshPart>, shiftP5: bool,
                             cameraTransform: Option<Translation>, fetched: Option<BolometerGeometry>,
                             machine: MachineMeshes)
    ensures var r := SensitivityRun(grid, camera, meshParts, shiftP5, cameraTransform, fetched, machine);
            var world := VesselParts(meshParts, VesselLoader(shiftP5));
            (world.Err? ==> r == Err(world.error)) &&
            (world.Ok? && BoloName(grid, camera).Err? ==> r == Err(UnsupportedGrid)) &&
            (world.Ok? && BoloName(grid, camera).Ok? ==>
               (r.Err? <==> Config(BoloName(grid, camera).value, fetched, machine, None).Err?) &&
               (r.Err? ==> r.error == BolometerFailure(Config(BoloName(grid, camera).value, fetched, machine, None).error))) &&
            r != Err(InvalidGrid)
  {
    VesselPartsErrors(meshParts, shiftP5);
  }

  /** A camera transform moves the camera by exactly that translation; the
      loader leaves the camera at the identity. */
  lemma {:induction false} SensitivityRunPlacement(grid: string, camera: string, meshParts: seq<MeshPart>, shiftP5: bool,
                                cameraTransform: Option<Translation>, fetched: Option<BolometerGeometry>,
                                machine: MachineMeshes)
    requires SensitivityRun(grid, camera, meshParts, shiftP5, cameraTransform, fetched, machine).Ok?
    ensures var run := SensitivityRun(grid, camera, meshParts, shiftP5, cameraTransform, fetched, machine).value;
            run.placement == (if cameraTransform.Some? then cameraTransform.value else Identity) &&
            run.camera == Config(run.boloName, fetched, machine, None).value
  {
  }

  /** `calculate_and_save_sensitivities(grid_name, camera, mesh_parts,
      shift_p5, camera_transform)`, up to the matrix computation. */
  method CalculateAndSaveSensitivities(grid: string, camera: string, meshParts: seq<MeshPart>, shiftP5: bool,
                                       cameraTransform: Option<Translation>, fetched: Option<BolometerGeometry>,
                                       machine: MachineMeshes)
    returns (r: Result<Sensitivities, RtmError>)
    ensures r == SensitivityRun(grid, camera, meshParts, shiftP5, cameraTransform, fetched, machine)
  {
    var world := LoadVesselWorld(meshParts, shiftP5);
    if world.Err? {
      return Err(world.error);
    }
    var boloName := BoloName(grid, camera);
    if boloName.Err? {
      return Err(boloName.error);
    }
    var fileName := OutputFileName(grid, camera);
    var bolo := LoadDefaultBolometerConfig(boloName.value, fetched, machine, None);
    if bolo.Err? {
      return Err(BolometerFailure(bolo.error));
    }
    var placement := Identity;
    if cameraTransform.Some? {
      placement := Compose(cameraTransform.value, placement);
    }
    // The "Invalid grid name" branch of the source cannot be taken once the
    // bolometer id was built (`GridAgreesWithBoloName`).
    var rtc := RayTransferGrid(grid).value;
    var loaded := CameraConfig(bolo.value.name, bolo.value.geometry, bolo.value.foils);
    return Ok(Sensitivities(world.value.children, boloName.value, fileName, loaded, placement, rtc,
                            |bolo.value.foils|, rtc.Bins()));
  }

  // ---------------------------------------------------------------------------
  // main
  // ---------------------------------------------------------------------------

  /** `MASTU_FULL_MESH` or `MAST_FULL_MESH`. */
  datatype MeshSet = MastuFullMesh | MastFullMesh

  /** The two mesh-part lists of the machine description. */
  datatype MeshCatalogue = MeshCatalogue(mastu: seq<MeshPart>, mast: seq<MeshPart>)

  /** The arguments `main` passes to `calculate_and_save_sensitivities`. */
  datatype Run = Run(grid: string, camera: string, meshes: MeshSet, shiftP5: bool,
                     cameraTransform: Option<Translation>)

  const SupportedCameras: seq<string> :=
    ["Outer", "Upper", "Poloidal", "Tangential", "PoloidalHighRes", "TangentialHighRes", "Poloidal-MAST"]

  /** The camera dispatch of `main`. */
  function Dispatch(camera: string): (r: Result<Run, RtmError>)
    ensures r.Ok? <==> camera in SupportedCameras
    ensures r.Err? ==> r.error == UnsupportedCamera
  {
    if camera == "Outer" || camera == "Upper" then
      Ok(Run("sxdl", camera, MastuFullMesh, false, None))
    else if camera == "Poloidal" || camera == "Tangential" then
      Ok(Run("core", camera, MastuFullMesh, true, None))
    else if camera == "PoloidalHighRes" || camera == "TangentialHighRes" then
      Ok(Run("core_high_res", PyPrefix(camera, -7), MastuFullMesh, true, None))
    else if camera == "Poloidal-MAST" then
      Ok(Run("core", camera, MastFullMesh, false, Some(Translation(0.0, 0.1, 0.0))))
    else
      Err(UnsupportedCamera)
  }

  /** What `main` chooses for each camera: the MAST-U cameras use the MAST-U
      meshes, the core ones with the P5 shift; the high-resolution cameras
      drop their "HighRes" suffix; only the MAST camera is moved. */
  lemma {:induction false} DispatchChoices(camera: string)
    requires Dispatch(camera).Ok?
    ensures var run := Dispatch(camera).value;
            (run.meshes == MastFullMesh <==> camera == "Poloidal-MAST") &&
            (run.shiftP5 <==> run.meshes == MastuFullMesh && run.grid != "sxdl") &&
            (run.cameraTransform.Some? <==> run.meshes == MastFullMesh) &&
            (run.grid == "core_high_res" <==> run.camera + "HighRes" == camera) &&
            (run.grid != "core_high_res" ==> run.camera == camera)
  {
    if camera == "PoloidalHighRes" {
      assert Dispatch(camera).value.camera == "Poloidal";
    } else if camera == "TangentialHighRes" {
      assert Dispatch(camera).value.camera == "Tangential";
    } else {
      var run := Dispatch(camera).value;
      assert |run.camera + "HighRes"| != |camera| || run.camera + "HighRes" != camera;
    }
  }

  /** The metadata of the MAST camera is dropped from its bolometer id. */
  lemma {:induction false} MastCameraWithoutMeta()
    ensures CameraWithoutMeta("Poloidal-MAST") == "Poloidal"
  {
    assert "Poloidal-MAST" == "Poloidal" + ['-'] + "MAST";
    SplitAtFirst("Poloidal", "MAST", '-');
  }

  /** The camera names of the script are those the loader selects a mesh
      for, each in the chamber of its grid. */
  lemma {:induction false} CameraSelected(camera: string)
    requires camera == "Outer" || camera == "Upper" || camera == "Poloidal" || camera == "Tangential"
    ensures SelectMesh(if camera == "Outer" || camera == "Upper" then Sxdl else Core, camera).Ok?
  {
    if camera == "Outer" {
      LowerOf("Outer", "outer");
    } else if camera == "Upper" {
      LowerOf("Upper", "upper");
    } else if camera == "Poloidal" {
      LowerOf("Poloidal", "poloidal");
    } else {
      LowerOf("Tangential", "tangential");
    }
  }

  /** The camera names of the MAST-U cameras carry no metadata. */
  lemma {:induction false} PlainCameraWithoutMeta(camera: string)
    requires camera == "Outer" || camera == "Upper" || camera == "Poloidal" || camera == "Tangential"
    ensures CameraWithoutMeta(camera) == camera
  {
    if camera == "Outer" {
      assert '-' !in "Outer";
    } else if camera == "Upper" {
      assert '-' !in "Upper";
    } else if camera == "Poloidal" {
      assert '-' !in "Poloidal";
    } else {
      assert '-' !in "Tangential";
    }
  }

  /** A grid with one of its cameras gives a bolometer id the loader reads
      back as the grid's chamber and the camera without metadata, and whose
      chamber and camera it accepts. */
  lemma {:induction false} RunIdAccepted(grid: string, camera: string, cam: string)
    requires cam == CameraWithoutMeta(camera)
    requires (grid == "sxdl" && (cam == "Outer" || cam == "Upper")) ||
             ((grid == "core" || grid == "core_high_res") && (cam == "Poloidal" || cam == "Tangential"))
    ensures BoloName(grid, camera).Ok? &&
            ParseBolometerId(BoloName(grid, camera).value) == Ok((GridChamber(grid), cam)) &&
            CheckChamber(GridChamber(grid)).Ok? &&
            SelectMesh(CheckChamber(GridChamber(grid)).value, cam).Ok?
  {
    assert !IsSpace(cam[0]) && !IsSpace(cam[|cam| - 1]);
    BoloNameAccepted(grid, camera);
    CameraSelected(cam);
  }

  /** Every camera `main` dispatches gives a bolometer id the loader accepts
      (`RunIdAccepted`): the loader can only fail on what the archive
      returns. */
  lemma {:induction false} DispatchedIdsAccepted(camera: string)
    requires Dispatch(camera).Ok?
    ensures var run := Dispatch(camera).value;
            var cam := CameraWithoutMeta(run.camera);
            BoloName(run.grid, run.camera).Ok? &&
            ParseBolometerId(BoloName(run.grid, run.camera).value) == Ok((GridChamber(run.grid), cam)) &&
            CheckChamber(GridChamber(run.grid)).Ok? &&
            SelectMesh(CheckChamber(GridChamber(run.grid)).value, cam).Ok?
  {
    var run := Dispatch(camera).value;
    if camera == "Outer" || camera == "Upper" {
      assert run.grid == "sxdl" && run.camera == camera;
      PlainCameraWithoutMeta(camera);
      RunIdAccepted(run.grid, run.camera, camera);
    } else if camera == "Poloidal" || camera == "Tangential" {
      assert run.grid == "core" && run.camera == camera;
      PlainCameraWithoutMeta(camera);
      RunIdAccepted(run.grid, run.camera, camera);
    } else if camera == "PoloidalHighRes" {
      assert run.grid == "core_high_res" && run.camera == "Poloidal" by {
        DispatchChoices(camera);
      }
      PlainCameraWithoutMeta("Poloidal");
      RunIdAccepted(run.grid, run.camera, "Poloidal");
    } else if camera == "TangentialHighRes" {
      assert run.grid == "core_high_res" && run.camera == "Tangential" by {
        DispatchChoices(camera);
      }
      PlainCameraWithoutMeta("Tangential");
      RunIdAccepted(run.grid, run.camera, "Tangential");
    } else {
      assert camera == "Poloidal-MAST";
      assert run.grid == "core" && run.camera == camera;
      MastCameraWithoutMeta();
      RunIdAccepted(run.grid, run.camera, "Poloidal");
    }
  }

  /** What tells two output file names apart: the length and first letter
      of the grid and of the camera. */
  function FileSignature(grid: string, camera: string): (int, char, int, char)
    requires grid != [] && camera != []
  {
    (|grid|, grid[0], |camera|, LowerChar(camera[0]))
  }

  /** Equal output file names have equal signatures. */
  lemma {:induction false} SameFileSameSignature(grid1: string, camera1: string, grid2: string, camera2: string)
    requires grid1 != [] && camera1 != [] && grid2 != [] && camera2 != []
    requires grid1[0] != '_' && grid2[0] != '_'
    requires OutputFileName(grid1, camera1) == OutputFileName(grid2, camera2)
    ensures FileSignature(grid1, camera1) == FileSignature(grid2, camera2)
  {
    FileNameDetermines(grid1, camera1, grid2, camera2);
    assert ReplaceChar(grid1, '_', '-')[0] == grid1[0];
    assert ReplaceChar(grid2, '_', '-')[0] == grid2[0];
    assert Lower(camera1)[0] == LowerChar(camera1[0]);
    assert Lower(camera2)[0] == LowerChar(camera2[0]);
  }

  /** The signature of each dispatched camera's output file. */
  lemma {:induction false} DispatchSignature(camera: string)
    requires Dispatch(camera).Ok?
    ensures var run := Dispatch(camera).value;
            run.grid != [] && run.camera != [] && run.grid[0] != '_' &&
            FileSignature(run.grid, run.camera) ==
              if camera == "Outer" then (4, 's', 5, 'o')
              else if camera == "Upper" then (4, 's', 5, 'u')
              else if camera == "Poloidal" then (4, 'c', 8, 'p')
              else if camera == "Tangential" then (4, 'c', 10, 't')
              else if camera == "PoloidalHighRes" then (13, 'c', 8, 'p')
              else if camera == "TangentialHighRes" then (13, 'c', 10, 't')
              else (4, 'c', 13, 'p')
  {
    DispatchChoices(camera);
  }

  /** No two cameras of `main` write the same sensitivity file. */
  lemma {:induction false} DistinctOutputFiles(camera1: string, camera2: string)
    requires Dispatch(camera1).Ok? && Dispatch(camera2).Ok? && camera1 != camera2
    ensures var run1, run2 := Dispatch(camera1).value, Dispatch(camera2).value;
            OutputFileName(run1.grid, run1.camera) != OutputFileName(run2.grid, run2.camera)
  {
    var run1, run2 := Dispatch(camera1).value, Dispatch(camera2).value;
    DispatchSignature(camera1);
    DispatchSignature(camera2);
    if OutputFileName(run1.grid, run1.camera) == OutputFileName(run2.grid, run2.camera) {
      SameFileSameSignature(run1.grid, run1.camera, run2.grid, run2.camera);
      assert false;
    }
  }

  /** The mesh parts a mesh set names. */
  function MeshPartsOf(catalogue: MeshCatalogue, meshes: MeshSet): seq<MeshPart> {
    match meshes
    case MastuFullMesh => catalogue.mastu
    case MastFullMesh => catalogue.mast
  }

  /** `main` for the camera given on the command line. */
  function Script(camera: string, catalogue: MeshCatalogue, fetched: Option<BolometerGeometry>,
                  machine: MachineMeshes): (r: Result<Sensitivities, RtmError>)
    ensures camera !in SupportedCameras ==> r == Err(UnsupportedCamera)
    ensures r.Ok? ==> camera in SupportedCameras
  {
    match Dispatch(camera)
    case Err(e) => Err(e)
    case Ok(run) =>
      SensitivityRun(run.grid, run.camera, MeshPartsOf(catalogue, run.meshes), run.shiftP5,
                     run.cameraTransform, fetched, machine)
  }

  /** What can stop `main`: an unknown camera, a mesh file it cannot read,
      or the archive's answer. The grid names and bolometer ids it builds
      itself are always accepted. */
  lemma {:induction false} ScriptErrors(camera: string, catalogue: MeshCatalogue, fetched: Option<BolometerGeometry>,
                     machine: MachineMeshes)
    ensures var r := Script(camera, catalogue, fetched, machine);
            r.Err? ==>
              (r.error == UnsupportedCamera <==> camera !in SupportedCameras) &&
              (r.error == UnsupportedCamera || r.error == FileNameNotTwoParts ||
               r.error == UnsupportedMeshFormat || (r.error.BolometerFailure? && ArchiveError(r.error.cause)))
  {
    var r := Script(camera, catalogue, fetched, machine);
    if r.Err? && camera in SupportedCameras {
      var run := Dispatch(camera).value;
      var parts := MeshPartsOf(catalogue, run.meshes);
      var load := VesselLoader(run.shiftP5);
      SensitivityRunErrors(run.grid, run.camera, parts, run.shiftP5, run.cameraTransform, fetched, machine);
      if VesselParts(parts, load).Err? {
        VesselPartsErrors(parts, run.shiftP5);
      } else {
        DispatchedIdsAccepted(camera);
        ConfigArchiveErrors(BoloName(run.grid, run.camera).value, fetched, machine, None);
      }
    }
  }

  /** Only RSM parts whose path names the P5 coils are moved, and only when
      the P5 shift is asked for. */
  lemma {:induction false} VesselTransforms(parts: seq<MeshPart>, shiftP5: bool)
    requires VesselParts(parts, VesselLoader(shiftP5)).Ok?
    ensures var ps := VesselParts(parts, VesselLoader(shiftP5)).value;
            forall k :: 0 <= k < |ps| && ps[k].RsmMesh? ==>
              (ps[k].transform.Some? <==> shiftP5 && Contains(parts[k].path, "P5_")) &&
              (ps[k].transform.Some? ==> ps[k].transform.value == P5Shift)
  {
    var ps := VesselParts(parts, VesselLoader(shiftP5)).value;
    forall k | 0 <= k < |ps| && ps[k].RsmMesh?
      ensures ps[k].transform == P5Transform(parts[k].path, shiftP5)
    {
      assert VesselLoader(shiftP5)(parts[k].path) == VesselPart(parts[k].path, shiftP5);
    }
  }
}
