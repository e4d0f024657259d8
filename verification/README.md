# MAST-U equilibrium, bolometer and sensitivity-script rules in Dafny

This project models the deterministic core of the `cherab/mastu` package. It
covers three areas:

- **The EFIT equilibrium readers** (`cherab/mastu/equilibrium/equilibrium.py`):
  - the pulse guards of `MASTEquilibrium` and `MASTUEquilibrium`;
  - the time-slice lookup `_find_nearest` of the MAST reader and the argmin
    rule of the MAST-U reader;
  - the EFIT boundary-polygon sanitiser `_process_efit_lcfs_polygon`, with
    the `N x 2` array it fills in place and the transpose that follows;
  - the trimming of padded LCFS and limiter rows;
  - the MAST-U "open the polygon if closed" step;
  - the x-point / strike-point loop of `MASTUEquilibrium.__init__`;
  - the fields each `time` call writes on the reader.

  Each reader is a class. Its `Time` method is proved equal to a function of
  the archive (`MastTimeSlice`, `MastuTimeSlice`), and the lookup and polygon
  rules are proved about those functions.
- **The bolometer camera loader** (`load_default_bolometer_config` in
  `cherab/mastu/bolometry/detectors/load_detectors.py`):
  - the `"chamber - camera"` id split and strip;
  - the case-insensitive chamber and camera checks and the mesh selection;
  - the archive-id rule `id.split('-')[2].split()[0]`;
  - the slit loop, which fills a dictionary;
  - the foil loop, which extends the camera's foil list in place (the camera
    is a class).
- **The sensitivity-matrix script**
  (`examples/bolometry/sensitivities/rtm_sensitivities.py`):
  - the camera dispatch of `main`;
  - the bolometer id and output file name a run derives;
  - the ray-transfer grid of each grid name;
  - the mesh-file extension dispatch and the P5 shift of `load_vessel_world`,
    whose world is a class the loop attaches primitives to;
  - the order in which a run can fail.

Python exceptions are `Err` values of a `Result`, one error constructor per
raise site. Each error type maps to the Python exception class it stands for.
Archive reads, mesh files and the ray tracer are parameters or plain records.
Times and coordinates are exact reals.

The MAST reader's `time` promises "the time-slice closest to the requested
time" (equilibrium.py:111), and the comment before its lookup says it
locates "the nearest time point" (equilibrium.py:119). The code of
`_find_nearest` compares the insertion point with the sample *after* it, so
it returns the ceiling sample and raises `IndexError` for some values
inside the time range. The model follows the code (see "## Findings").

Shared helpers:

- `Outcomes`: `Option`, `Result` and the exception classes.
- `PyStr`: Python's `split`, `strip`, `split()[0]`, `lower`, `replace`,
  substring `in` and `os.path.split(...)[-1]`.
- `PySeq`: Python's `s[:n]` prefix slice.

## Model

| member | source | states |
|---|---|---|
| PySeq.PyPrefix | cherab/mastu/equilibrium/equilibrium.py:160-161 | `s[:n]` is a prefix of `s`: its length is `n` clamped to `[0, len]`, and a negative `n` counts from the end |
| PySeq.PyPrefixNegative | examples/bolometry/sensitivities/rtm_sensitivities.py:155 | `camera[:-7]` drops exactly the last 7 characters: prefix plus dropped tail is the whole |
| PySeq.PyPrefixIdempotent | cherab/mastu/equilibrium/equilibrium.py:175-176 | trimming twice to the same non-negative count is trimming once |
| PyStr.Split | cherab/mastu/bolometry/detectors/load_detectors.py:30 | `s.split(sep)` gives at least one piece, and no piece holds the separator |
| PyStr.SplitAtFirst | cherab/mastu/bolometry/detectors/load_detectors.py:30 | splitting `a + sep + b` with `sep` not in `a` gives `a` followed by the pieces of `b` |
| PyStr.JoinSplit | cherab/mastu/bolometry/detectors/load_detectors.py:30 | joining the pieces of a split with the separator gives back the string (round trip) |
| PyStr.SplitJoin | cherab/mastu/bolometry/detectors/load_detectors.py:30 | splitting a join of separator-free pieces gives back the pieces (round trip) |
| PyStr.SplitFirst | examples/bolometry/sensitivities/rtm_sensitivities.py:91 | the first piece is the text before the first separator (all of `s` when there is none) |
| PyStr.SplitAppend | examples/bolometry/sensitivities/rtm_sensitivities.py:49 | appending a separator and a separator-free text appends exactly one piece |
| PyStr.SeparatedAt | examples/bolometry/sensitivities/rtm_sensitivities.py:99-101 | the text before a first separator and the rest are determined by the whole |
| PyStr.SplitCount | examples/bolometry/sensitivities/rtm_sensitivities.py:50 | a split has exactly one more piece than the string has separators |
| PyStr.TrimLeft | cherab/mastu/bolometry/detectors/load_detectors.py:30 | `lstrip` removes a whitespace-only prefix and leaves a text that does not start with whitespace |
| PyStr.TrimRight | cherab/mastu/bolometry/detectors/load_detectors.py:30 | `rstrip` removes a whitespace-only suffix and leaves a text that does not end with whitespace |
| PyStr.Strip | cherab/mastu/bolometry/detectors/load_detectors.py:30 | `strip` gives a text no longer than the input with no whitespace at either end |
| PyStr.StripPadded | cherab/mastu/bolometry/detectors/load_detectors.py:30 | `strip` removes exactly the surrounding whitespace of a text whose ends are not whitespace |
| PyStr.StripIdempotent | cherab/mastu/bolometry/detectors/load_detectors.py:30 | stripping twice is stripping once |
| PyStr.FirstWord | cherab/mastu/bolometry/detectors/load_detectors.py:80 | `s.split()[0]` fails exactly on a blank string; otherwise it is a non-empty word without whitespace |
| PyStr.FirstWordOf | cherab/mastu/bolometry/detectors/load_detectors.py:80 | the first word of whitespace + word + (whitespace-led rest) is that word |
| PyStr.Lower | cherab/mastu/bolometry/detectors/load_detectors.py:34 | `lower()` keeps the length and lower-cases each character |
| PyStr.LowerIdempotent | cherab/mastu/bolometry/detectors/load_detectors.py:34 | lower-casing twice is lower-casing once |
| PyStr.ReplaceChar | examples/bolometry/sensitivities/rtm_sensitivities.py:100 | `replace("_", "-")` keeps the length and replaces exactly the occurrences of the character |
| PyStr.ReplaceCharRemoves | examples/bolometry/sensitivities/rtm_sensitivities.py:100 | after replacing a character by a different one, none is left |
| PyStr.Contains | examples/bolometry/sensitivities/rtm_sensitivities.py:51 | `sub in s` holds exactly when `sub` occurs at some position of `s` |
| PyStr.BaseName | examples/bolometry/sensitivities/rtm_sensitivities.py:49 | `os.path.split(path)[-1]` is a '/'-free suffix of the path |
| PyStr.BaseNameOf | examples/bolometry/sensitivities/rtm_sensitivities.py:49 | the base name of `dir + "/" + file` is `file` when `file` has no '/' |
| TimeSearch.Min | cherab/mastu/equilibrium/equilibrium.py:203 | `array.min()` is an element no larger than any element |
| TimeSearch.Max | cherab/mastu/equilibrium/equilibrium.py:203 | `array.max()` is an element no smaller than any element |
| TimeSearch.InsertionPoint | cherab/mastu/equilibrium/equilibrium.py:206 | `searchsorted(side="left")`: every sample before the index is below `v`, and the sample at it is at least `v` |
| TimeSearch.AscendingMinMax | cherab/mastu/equilibrium/equilibrium.py:203 | on an ascending array the min and max are the first and last samples |
| TimeSearch.SquaresAsDistances | cherab/mastu/equilibrium/equilibrium.py:208 | the source's `(value - x)**2 < (value - y)**2` holds exactly when `x` is strictly nearer to `value` than `y` |
| TimeSearch.FindNearest | cherab/mastu/equilibrium/equilibrium.py:201-211 | `_find_nearest` as written; a returned index is in bounds and its sample is at or above the query |
| TimeSearch.FindNearestErrors | cherab/mastu/equilibrium/equilibrium.py:203-208 | the range check rejects exactly values below the first or above the last sample. An in-range value fails with IndexError exactly when it lies above the second-to-last sample (the maximum included). Success holds exactly for values between the first and second-to-last samples |
| TimeSearch.FindNearestChoice | cherab/mastu/equilibrium/equilibrium.py:206-211 | with `i` the first index whose sample is ≥ the value, the result is `i` if `a[i] < a[i+1]` and `i+1` if they are equal |
| TimeSearch.FindNearestIsCeiling | cherab/mastu/equilibrium/equilibrium.py:206-211 | the chosen sample is the least sample at or above the value, and never an index below the insertion point |
| TimeSearch.FindNearestExamples | cherab/mastu/equilibrium/equilibrium.py:201-211 | on `[0.0, 0.1, 0.2, 0.3]`: 0.12 gives 2, 0.1 gives 1, and 0.24 and 0.3 fail with IndexError |
| TimeSearch.FindNearestIntended | cherab/mastu/equilibrium/equilibrium.py:201-211 | the corrected rule (compare with the sample before the insertion point); a returned index is in bounds |
| TimeSearch.FindNearestIntendedChoice | cherab/mastu/equilibrium/equilibrium.py:206-211 | the corrected rule picks the earlier of the two neighbours of the value only when it is strictly nearer |
| TimeSearch.NeighboursAreNearest | cherab/mastu/equilibrium/equilibrium.py:206 | on an ascending array, a distance no larger than both neighbours' distances is no larger than any sample's |
| TimeSearch.FindNearestIntendedErrors | cherab/mastu/equilibrium/equilibrium.py:203-204 | the corrected rule fails exactly outside `[first, last]` |
| TimeSearch.FindNearestIntendedIsNearest | cherab/mastu/equilibrium/equilibrium.py:201-211 | the corrected rule fails exactly outside the range and otherwise returns a sample at minimal distance |
| TimeSearch.ArgMinDistance | cherab/mastu/equilibrium/equilibrium.py:343 | `np.argmin(abs(a - t))` is at minimal distance and strictly nearer than every earlier sample (first occurrence) |
| TimeSearch.NearestRulesAgree | cherab/mastu/equilibrium/equilibrium.py:339-343 | within the range, the corrected `_find_nearest` and the argmin rule pick samples at the same distance |
| TimeSearch.TieBreakExample | cherab/mastu/equilibrium/equilibrium.py:343 | at a tie (0.5 in `[0.0, 1.0]`) the corrected rule takes the later and argmin the earlier index |
| TimeSearch.FindNearestNotNearest | cherab/mastu/equilibrium/equilibrium.py:206-211 | counterexample: at 0.12 in `[0.0, 0.1, 0.2, 0.3]` the code returns 2, the corrected rule 1, and 0.1 is strictly nearer than 0.2 |
| BoundaryPolygon.ZipPoints | cherab/mastu/equilibrium/equilibrium.py:230-232 | pairing coordinate columns gives `min(len)` points, point `k` being `(r[k], z[k])` |
| BoundaryPolygon.PolygonOf | cherab/mastu/equilibrium/equilibrium.py:165 | the 2 x N polygon built from points is well formed and its columns are exactly those points |
| BoundaryPolygon.UniqueMask | cherab/mastu/equilibrium/equilibrium.py:224-225 | the mask has one entry per point, the first entry is set, and a later entry is set exactly when that point differs from the first |
| BoundaryPolygon.DropRepeatsOf | cherab/mastu/equilibrium/equilibrium.py:224-227 | dropping the repeats of `p` leaves no copy of `p` and is no longer than the input |
| BoundaryPolygon.SanitisePolygon | cherab/mastu/equilibrium/equilibrium.py:214-235 | fails exactly on unequal lengths (first) or fewer than 2 points, each with its error. Otherwise it gives 1..n points starting with the first |
| BoundaryPolygon.CompressDropsRepeats | cherab/mastu/equilibrium/equilibrium.py:224-227 | masking both coordinate arrays with "differs from p" and pairing them drops exactly the repeats of p |
| BoundaryPolygon.CompressIsSanitised | cherab/mastu/equilibrium/equilibrium.py:224-227 | the source's mask-and-compress of `poly_r` and `poly_z` gives the sanitised point list |
| BoundaryPolygon.ProcessEfitLcfsPolygon | cherab/mastu/equilibrium/equilibrium.py:214-235 | the method fails exactly as `SanitisePolygon` does, with the same error. Otherwise the `N x 2` array it fills column by column holds the sanitised points row by row |
| BoundaryPolygon.Transposed | cherab/mastu/equilibrium/equilibrium.py:165 | `coords.T` is a 2 x N polygon whose column k is row k of the array |
| BoundaryPolygon.TransposedFill | cherab/mastu/equilibrium/equilibrium.py:164-165 | transposing the array filled with a point list gives the polygon of those points |
| BoundaryPolygon.DropRepeatsCount | cherab/mastu/equilibrium/equilibrium.py:224-227 | dropping `p` removes every copy of it and keeps every other point as often as it occurs (multiset) |
| BoundaryPolygon.DropRepeatsInOrder | cherab/mastu/equilibrium/equilibrium.py:224-227 | dropping `p` keeps the other points in their original order (subsequence) |
| BoundaryPolygon.SanitisedShape | cherab/mastu/equilibrium/equilibrium.py:224-227 | the output is the first point once, at the front, then exactly the points differing from it, with their counts and in input order (interior repeats survive). Its length is between 1 and n |
| BoundaryPolygon.DropRepeatsOfAbsent | cherab/mastu/equilibrium/equilibrium.py:224-227 | dropping a point that does not occur changes nothing |
| BoundaryPolygon.DropRepeatsOfAppend | cherab/mastu/equilibrium/equilibrium.py:224-227 | dropping distributes over concatenation |
| BoundaryPolygon.SanitiseClosedRing | cherab/mastu/equilibrium/equilibrium.py:224-227 | a closed ring whose start occurs only at both ends loses exactly its closing point |
| BoundaryPolygon.SanitiseIdempotent | cherab/mastu/equilibrium/equilibrium.py:214-227 | re-sanitising the output gives it back unchanged, unless only one point survived, which is then rejected as too short |
| BoundaryPolygon.SanitiseSquareExample | cherab/mastu/equilibrium/equilibrium.py:214-235 | the closed unit square sanitises to the open square |
| BoundaryPolygon.Stack | cherab/mastu/equilibrium/equilibrium.py:367 | `np.stack` succeeds exactly when the two rows have equal length |
| BoundaryPolygon.OpenIfClosed | cherab/mastu/equilibrium/equilibrium.py:368-370 | the opening step fails exactly on a polygon without vertices (`[:, 0]`) and keeps the polygon well formed |
| BoundaryPolygon.OpenIfClosedEffect | cherab/mastu/equilibrium/equilibrium.py:368-370 | the last vertex is removed when it equals the first; otherwise the polygon is unchanged |
| BoundaryPolygon.CloseThenOpen | cherab/mastu/equilibrium/equilibrium.py:368-370 | closing an open polygon and opening it again gives it back (round trip) |
| BoundaryPolygon.OpenMayStayClosed | cherab/mastu/equilibrium/equilibrium.py:368-370 | only one closing vertex is removed: a doubled closing vertex leaves the polygon closed |
| BoundaryPolygon.SanitiseAgreesWithOpening | cherab/mastu/equilibrium/equilibrium.py:367-370 | on a closed ring whose start occurs only at its ends, the MAST sanitiser and the MAST-U opening step give the same polygon |
| Equilibrium.Transpose | cherab/mastu/equilibrium/equilibrium.py:132 | `np.transpose` swaps the dimensions and entry `[i][j]` becomes `[j][i]` |
| Equilibrium.TransposeTwice | cherab/mastu/equilibrium/equilibrium.py:132 | transposing twice gives back the array |
| Equilibrium.MastGuard | cherab/mastu/equilibrium/equilibrium.py:38-40 | the MAST reader accepts exactly the shot numbers below 40000 |
| Equilibrium.MastuGuard | cherab/mastu/equilibrium/equilibrium.py:247-248 | the MAST-U reader rejects exactly the integer pulses below 40000 |
| Equilibrium.GuardsPartitionPulses | cherab/mastu/equilibrium/equilibrium.py:38-40 | every shot number is accepted by exactly one reader. A non-numeric pulse is a TypeError for MAST and accepted by MAST-U |
| Equilibrium.LookupFailure | cherab/mastu/equilibrium/equilibrium.py:121-126 | every lookup failure becomes a ValueError. It carries the time range exactly when the search raised IndexError |
| Equilibrium.XpointPairs | cherab/mastu/equilibrium/equilibrium.py:82-85 | the MAST x-point list: as long as the shortest signal, entry k being the two points of time k |
| Equilibrium.MastIndices | cherab/mastu/equilibrium/equilibrium.py:121-126 | both lookups, in order; returned indices are within their time bases |
| Equilibrium.MastTimeSlice | cherab/mastu/equilibrium/equilibrium.py:109-198 | a slice is returned only when both lookups succeed |
| Equilibrium.MASTEquilibrium.constructor | cherab/mastu/equilibrium/equilibrium.py:36-107 | the reader holds the archive, its time range (min, max) and the x-point list; the stored polygons start unset |
| Equilibrium.MASTEquilibrium.Load | cherab/mastu/equilibrium/equilibrium.py:36-107 | construction fails exactly on the pulse guard, or on an empty time base (`min()`), with that error; otherwise the reader is valid |
| Equilibrium.MASTEquilibrium.Time | cherab/mastu/equilibrium/equilibrium.py:109-198 | returns `MastTimeSlice`. It writes the profile grid once the lookups succeed, the LCFS polygon once it is built and the limiter polygon on success, keeping earlier values otherwise |
| Equilibrium.MastIndicesErrors | cherab/mastu/equilibrium/equilibrium.py:121-126 | the MAST lookup succeeds exactly between the first and second-to-last sample of both time bases. Its error is the time base's range (or the empty-array ValueError) |
| Equilibrium.MastSliceChoice | cherab/mastu/equilibrium/equilibrium.py:121-130 | both indices follow the ceiling rule: insertion point, or the next one when the two samples are equal |
| Equilibrium.MastSliceNotEarlier | cherab/mastu/equilibrium/equilibrium.py:128-130 | the reported time is the selected sample and is never earlier than the request |
| Equilibrium.TrimmedPolygonFromFirstPoints | cherab/mastu/equilibrium/equilibrium.py:157-164 | the trimmed boundary fails exactly when fewer than two points survive the trim. It starts with the first archive point and holds only points among the first `nlcfs` |
| Equilibrium.Truncate | cherab/mastu/equilibrium/equilibrium.py:299 | `int(x)` truncates toward zero |
| Equilibrium.ZipLength | cherab/mastu/equilibrium/equilibrium.py:296 | `zip` of five signals runs to the shortest |
| Equilibrium.TablesStep | cherab/mastu/equilibrium/equilibrium.py:296-302 | one loop iteration appends slice k's x-points and strike points |
| Equilibrium.SliceXpointsShape | cherab/mastu/equilibrium/equilibrium.py:296-302 | a NaN count gives no points. A count c gives the first c x-points and the first 2c strike points, in order |
| Equilibrium.MastuIndex | cherab/mastu/equilibrium/equilibrium.py:339-343 | a returned index lies within the time base |
| Equilibrium.MastuTimeSlice | cherab/mastu/equilibrium/equilibrium.py:328-388 | a slice is returned only when the range check passes |
| Equilibrium.MASTUEquilibrium.constructor | cherab/mastu/equilibrium/equilibrium.py:294-302 | after the loop, the x-point and strike-point lists are the per-slice tables |
| Equilibrium.MASTUEquilibrium.Load | cherab/mastu/equilibrium/equilibrium.py:245-256 | construction fails exactly on the pulse guard, or on an empty time base, with that error; otherwise the reader is valid |
| Equilibrium.MASTUEquilibrium.Time | cherab/mastu/equilibrium/equilibrium.py:328-388 | returns `MastuTimeSlice` and changes nothing |
| Equilibrium.MastuIndexNearest | cherab/mastu/equilibrium/equilibrium.py:339-343 | fails exactly outside [tmin, tmax], with that range. Otherwise the index minimises the distance, the first of equally near samples |
| Equilibrium.MastuBoundaryOpened | cherab/mastu/equilibrium/equilibrium.py:364-377 | the LCFS and the limiter each reach the equilibrium without their closing vertex when that repeats the first, and unchanged otherwise |
| Equilibrium.ReadersDisagree | cherab/mastu/equilibrium/equilibrium.py:343 | on the same time base the MAST rule reads 0.2 s and the MAST-U rule 0.1 s for 0.12 s |
| BolometerConfig.UdaToPoint | cherab/mastu/bolometry/detectors/load_detectors.py:120-122 | the point has the structure's x, y and z |
| BolometerConfig.UdaToVector | cherab/mastu/bolometry/detectors/load_detectors.py:125-127 | the vector has the structure's x, y and z |
| BolometerConfig.ParseBolometerId | cherab/mastu/bolometry/detectors/load_detectors.py:29-32 | the id fails (ValueError) exactly when it does not split into two parts |
| BolometerConfig.ParseBolometerIdAccepts | cherab/mastu/bolometry/detectors/load_detectors.py:29-32 | the id is accepted exactly when it holds a single '-' |
| BolometerConfig.ParseBolometerIdRoundTrip | cherab/mastu/bolometry/detectors/load_detectors.py:29-32 | "chamber - camera" parses back to the two stripped names (round trip) |
| BolometerConfig.CheckChamber | cherab/mastu/bolometry/detectors/load_detectors.py:34-35 | accepted exactly when the lower-case chamber is "sxdl" or "core", which it then names; otherwise ValueError |
| BolometerConfig.SelectMesh | cherab/mastu/bolometry/detectors/load_detectors.py:45-58 | accepted exactly for outer/upper (SXDL) or poloidal/tangential (CORE) in any case, an SXD mesh exactly for SXDL; otherwise ValueError |
| BolometerConfig.SelectionIgnoresCase | cherab/mastu/bolometry/detectors/load_detectors.py:34-58 | chamber and camera checks give the same answer for a name and its lower case |
| BolometerConfig.IdCamera | cherab/mastu/bolometry/detectors/load_detectors.py:80 | `id.split('-')[2].split()[0]` is a non-empty word, or one of the two IndexErrors |
| BolometerConfig.IdCameraErrors | cherab/mastu/bolometry/detectors/load_detectors.py:80 | fails exactly with fewer than three fields (`[2]`) or a blank third field (`[0]`); a result has no whitespace |
| BolometerConfig.IdCameraOf | cherab/mastu/bolometry/detectors/load_detectors.py:78-80 | the camera of "MAST-U chamber - camera rest" is `camera` |
| BolometerConfig.MakeSlit | cherab/mastu/bolometry/detectors/load_detectors.py:74-92 | the slit keeps its id, and a missing curvature radius becomes 0 |
| BolometerConfig.Table | cherab/mastu/bolometry/detectors/load_detectors.py:68-71 | the primary key wins, the `/data/...` key is the fallback, and a KeyError names the fallback when neither is present |
| BolometerConfig.SlitObjects | cherab/mastu/bolometry/detectors/load_detectors.py:72-92 | every entry of the slit dictionary is keyed by its own id |
| BolometerConfig.SlitObjectsStopsAtError | cherab/mastu/bolometry/detectors/load_detectors.py:72-92 | once the slit pass has failed, later slits change nothing |
| BolometerConfig.CollectSlits | cherab/mastu/bolometry/detectors/load_detectors.py:72-92 | the in-place slit loop computes `SlitObjects` |
| BolometerConfig.SlitObjectsErrors | cherab/mastu/bolometry/detectors/load_detectors.py:80 | the slit pass fails exactly when some slit id is malformed |
| BolometerConfig.SlitObjectsErrorFrom | cherab/mastu/bolometry/detectors/load_detectors.py:80 | the error is the id rule's error for some slit |
| BolometerConfig.SlitObjectsKeys | cherab/mastu/bolometry/detectors/load_detectors.py:78-83 | the dictionary keys are exactly the ids of slits whose camera word equals the name as given (case-sensitive) |
| BolometerConfig.SlitObjectsLastWins | cherab/mastu/bolometry/detectors/load_detectors.py:83 | a kept slit with no later slit of the same id has its own entry: later duplicates overwrite |
| BolometerConfig.FoilPass | cherab/mastu/bolometry/detectors/load_detectors.py:98-115 | no more foils than archive foils are added, each attached to a kept slit |
| BolometerConfig.OfCamera | cherab/mastu/bolometry/detectors/load_detectors.py:101-103 | the kept foils are archive foils whose camera word is the camera |
| BolometerConfig.FoilPassErrors | cherab/mastu/bolometry/detectors/load_detectors.py:98-115 | the foil loop stops exactly at a malformed id, or at a kept foil that lacks `curvature_radius` (AttributeError) or whose slit is missing (KeyError) |
| BolometerConfig.FoilPassAdded | cherab/mastu/bolometry/detectors/load_detectors.py:98-115 | without a stop, every kept archive foil has a curvature radius and a kept slit, and the loop adds one foil per kept archive foil, in archive order, each attached to the slit it names |
| BolometerConfig.FoilPassErrorFrom | cherab/mastu/bolometry/detectors/load_detectors.py:98-115 | the stopping error is a missing slit, the missing curvature radius of a kept foil, or the id rule's error for some foil |
| BolometerConfig.FoilPassStopsAtError | cherab/mastu/bolometry/detectors/load_detectors.py:98-115 | once the foil loop has stopped, later foils change nothing |
| BolometerConfig.FoilPassStep | cherab/mastu/bolometry/detectors/load_detectors.py:98-115 | one iteration: stop on a bad id, skip another camera, stop on a missing curvature radius, then on a missing slit, else append the foil |
| BolometerConfig.OfCameraNone | cherab/mastu/bolometry/detectors/load_detectors.py:101-103 | no foil names the camera, so none is kept |
| BolometerConfig.OtherCameraAddsNothing | cherab/mastu/bolometry/detectors/load_detectors.py:101-103 | a camera name no foil id carries (another case included) gets no foils and no error |
| BolometerConfig.MeshSelectionIgnoresCaseExample | cherab/mastu/bolometry/detectors/load_detectors.py:52-54 | "poloidal" and "Poloidal" select the same mesh |
| BolometerConfig.BolometerCamera.constructor | cherab/mastu/bolometry/detectors/load_detectors.py:64-65 | the camera has its name and geometry and no foils |
| BolometerConfig.BolometerCamera.AddFoilDetector | cherab/mastu/bolometry/detectors/load_detectors.py:115 | appends the foil to the camera's foil list |
| BolometerConfig.AddFoils | cherab/mastu/bolometry/detectors/load_detectors.py:94-115 | the in-place foil loop appends exactly `FoilPass`'s foils and reports its error |
| BolometerConfig.Config | cherab/mastu/bolometry/detectors/load_detectors.py:10-117 | a bad id is the id error. A camera is returned only after the geometry was fetched, named `MAST-U {chamber} - {camera} Bolometer` in the caller's case |
| BolometerConfig.ConfigErrorOrder | cherab/mastu/bolometry/detectors/load_detectors.py:29-58 | errors come in order: chamber before the archive fetch, camera after it |
| BolometerConfig.ConfigArchiveErrors | cherab/mastu/bolometry/detectors/load_detectors.py:38-115 | once id, chamber and camera are accepted, only archive-dependent errors remain |
| BolometerConfig.ConfigMaterial | cherab/mastu/bolometry/detectors/load_detectors.py:60-61 | the mesh is the selected one, with the override material when given and its own otherwise |
| BolometerConfig.LoadDefaultBolometerConfig | cherab/mastu/bolometry/detectors/load_detectors.py:10-117 | the method fails exactly as `Config` does. Otherwise it returns a fresh camera with `Config`'s name, geometry and foils |
| RtmSensitivities.Compose | examples/bolometry/sensitivities/rtm_sensitivities.py:104-105 | composing with the identity on either side changes nothing |
| RtmSensitivities.P5Transform | examples/bolometry/sensitivities/rtm_sensitivities.py:51-55 | a transform is given exactly when the shift is asked for and the path contains "P5_", and it is the -0.00485 downward shift |
| RtmSensitivities.LoadMesh | examples/bolometry/sensitivities/rtm_sensitivities.py:56-62 | accepted exactly for rsm or obj in any case (else ValueError); only the RSM reader gets the transform |
| RtmSensitivities.VesselPart | examples/bolometry/sensitivities/rtm_sensitivities.py:49-62 | a part fails only on the name split or the format; an RSM part carries the P5 transform of its path |
| RtmSensitivities.VesselPartErrors | examples/bolometry/sensitivities/rtm_sensitivities.py:49-62 | fails on the split exactly when the file name does not hold one '.'. Succeeds exactly when, in addition, the extension is rsm or obj |
| RtmSensitivities.VesselPartOf | examples/bolometry/sensitivities/rtm_sensitivities.py:49-50 | "dir/name.ext" is loaded under `name` by the reader for `ext` |
| RtmSensitivities.VesselParts | examples/bolometry/sensitivities/rtm_sensitivities.py:47-62 | on success, one primitive per part, each the loader's result for its path |
| RtmSensitivities.VesselPartsStopsAtError | examples/bolometry/sensitivities/rtm_sensitivities.py:47-62 | once the loop has failed, later parts change nothing |
| RtmSensitivities.VesselPartsFirstError | examples/bolometry/sensitivities/rtm_sensitivities.py:47-62 | the error is that of the first failing part, all earlier parts having loaded |
| RtmSensitivities.VesselPartsErrors | examples/bolometry/sensitivities/rtm_sensitivities.py:47-62 | the vessel loop fails only on a name split or an unsupported format |
| RtmSensitivities.World.constructor | examples/bolometry/sensitivities/rtm_sensitivities.py:46 | a new world has no children |
| RtmSensitivities.World.Attach | examples/bolometry/sensitivities/rtm_sensitivities.py:57-60 | attaching appends the primitive to the world's children |
| RtmSensitivities.LoadVesselWorld | examples/bolometry/sensitivities/rtm_sensitivities.py:34-71 | fails with the loop's error. Otherwise it returns a fresh world holding the parts in order, then the blocking cylinder |
| RtmSensitivities.CameraWithoutMeta | examples/bolometry/sensitivities/rtm_sensitivities.py:91 | `cam_nometa` is the '-'-free prefix before the first '-' (the whole name when there is none) |
| RtmSensitivities.BoloName | examples/bolometry/sensitivities/rtm_sensitivities.py:92-97 | built exactly for sxdl, core and core_high_res; otherwise ValueError |
| RtmSensitivities.BoloNameAccepted | examples/bolometry/sensitivities/rtm_sensitivities.py:92-102 | the loader parses the script's bolometer id back into the grid's chamber and `cam_nometa`, and accepts the chamber |
| RtmSensitivities.SxdlAccepted | examples/bolometry/sensitivities/rtm_sensitivities.py:93 | the loader accepts the chamber "SXDL" |
| RtmSensitivities.CoreAccepted | examples/bolometry/sensitivities/rtm_sensitivities.py:95 | the loader accepts the chamber "CORE" |
| RtmSensitivities.OutputFileName | examples/bolometry/sensitivities/rtm_sensitivities.py:99-101 | the file name is 14 characters longer than grid and camera together |
| RtmSensitivities.FileNameDetermines | examples/bolometry/sensitivities/rtm_sensitivities.py:99-101 | two file names are equal exactly when the '-'-for-'_' grids and the lower-cased cameras are |
| RtmSensitivities.MastFileNameExample | examples/bolometry/sensitivities/rtm_sensitivities.py:99-101 | Poloidal-MAST on core gives "rtm_core_poloidal-mast_bolo.npy" |
| RtmSensitivities.HighResFileNameExample | examples/bolometry/sensitivities/rtm_sensitivities.py:99-101 | Poloidal on core_high_res gives "rtm_core-high-res_poloidal_bolo.npy" |
| RtmSensitivities.RayTransferGrid | examples/bolometry/sensitivities/rtm_sensitivities.py:107-123 | a grid exists exactly for sxdl, core and core_high_res (else ValueError), with positive radii in order, positive height and bins |
| RtmSensitivities.HighResRefinesCore | examples/bolometry/sensitivities/rtm_sensitivities.py:112-121 | the high-resolution grid covers the core cylinder with 25 times the radial and over 22 times the vertical cells |
| RtmSensitivities.GridAgreesWithBoloName | examples/bolometry/sensitivities/rtm_sensitivities.py:92-123 | a ray-transfer grid exists exactly when a bolometer id is built, so the later grid error is unreachable |
| RtmSensitivities.SensitivityRun | examples/bolometry/sensitivities/rtm_sensitivities.py:74-124 | a run's matrix has one row per foil and one column per grid bin. It writes the derived file name, and the world as `load_vessel_world` leaves it holds the vessel parts, then the blocking cylinder |
| RtmSensitivities.SensitivityRunErrors | examples/bolometry/sensitivities/rtm_sensitivities.py:88-123 | failures come in order: vessel meshes, then the grid name, then the camera loader; the grid error never occurs |
| RtmSensitivities.SensitivityRunPlacement | examples/bolometry/sensitivities/rtm_sensitivities.py:104-105 | the camera is moved exactly by the camera transform (identity without one) and is the loader's camera |
| RtmSensitivities.CalculateAndSaveSensitivities | examples/bolometry/sensitivities/rtm_sensitivities.py:74-124 | the method computes `SensitivityRun` |
| RtmSensitivities.Dispatch | examples/bolometry/sensitivities/rtm_sensitivities.py:143-166 | a run is chosen exactly for the seven supported cameras; otherwise ValueError |
| RtmSensitivities.DispatchChoices | examples/bolometry/sensitivities/rtm_sensitivities.py:143-166 | the MAST mesh (and only it) for Poloidal-MAST, with the camera transform. The P5 shift exactly for MAST-U core grids. The high-res grid exactly when the camera is the name minus "HighRes"; otherwise the camera is unchanged |
| RtmSensitivities.MastCameraWithoutMeta | examples/bolometry/sensitivities/rtm_sensitivities.py:91 | "Poloidal-MAST" loses its metadata in the bolometer id |
| RtmSensitivities.CameraSelected | examples/bolometry/sensitivities/rtm_sensitivities.py:143-149 | each MAST-U camera name selects a mesh in its grid's chamber |
| RtmSensitivities.PlainCameraWithoutMeta | examples/bolometry/sensitivities/rtm_sensitivities.py:91 | the MAST-U camera names carry no metadata |
| RtmSensitivities.RunIdAccepted | examples/bolometry/sensitivities/rtm_sensitivities.py:91-102 | a grid with one of its cameras gives an id whose chamber and camera the loader accepts |
| RtmSensitivities.DispatchedIdsAccepted | examples/bolometry/sensitivities/rtm_sensitivities.py:143-170 | every dispatched camera gives an id the loader parses and accepts |
| RtmSensitivities.SameFileSameSignature | examples/bolometry/sensitivities/rtm_sensitivities.py:99-101 | equal file names have grids and cameras of equal length and first letter |
| RtmSensitivities.DispatchSignature | examples/bolometry/sensitivities/rtm_sensitivities.py:143-166 | the grid and camera lengths and first letters of each dispatched camera's file |
| RtmSensitivities.DistinctOutputFiles | examples/bolometry/sensitivities/rtm_sensitivities.py:99-101 | no two supported cameras write the same sensitivity file |
| RtmSensitivities.Script | examples/bolometry/sensitivities/rtm_sensitivities.py:138-170 | an unsupported camera is the ValueError, and a run succeeds only for a supported camera |
| RtmSensitivities.ScriptErrors | examples/bolometry/sensitivities/rtm_sensitivities.py:138-170 | the camera error occurs exactly for unsupported cameras. Otherwise only a mesh file name or format, or an archive-dependent loader error, can stop the script |
| RtmSensitivities.VesselTransforms | examples/bolometry/sensitivities/rtm_sensitivities.py:51-58 | an RSM part is moved exactly when the shift is on and its path contains "P5_", and by the P5 shift |

## Left out

- Archive and file I/O is not modelled. This covers every `pyuda` `client.get` / `client.geometry` call, `Mesh.from_file`, `import_obj`, `np.save` and `sys.argv`. What these return is a parameter: an archive record, `fetched` geometry (`None` when the client raised), or a mesh-part list.
- Foreign constructors are records or left out: `EFITEquilibrium` (its arguments are the `TimeSlice` record), `BolometerSlit`/`BolometerFoil`, `RayTransferCylinder`, `Cylinder`, `translate` and `detector.observe()`.
- The sensitivity-matrix fill loop (rtm_sensitivities.py:124-134) and its save are ray tracing; a run ends with the matrix's shape.
- The render-engine process count `NSLOTS` is concurrency delegated to the ray tracer.
- `print` calls are left out.
- cherab/mastu/bolometry/grid_construction/load_voxel_grids.py is not part of this model (pickle loading and a foreign constructor). setup.py is not part of this model either (packaging metadata).
- Floating point: times and coordinates are exact reals, and a NaN x-point count is `None`.
- PyStr.Lower, PyStr.Strip, PyStr.FirstWord: only ASCII letters and ASCII whitespace are recognised; Python's Unicode case mapping and whitespace classes are not modelled.
- TimeSearch.FindNearest: requires an ascending array. This is the precondition of `np.searchsorted`, whose answer on unsorted input the code does not define.
- Equilibrium.MASTEquilibrium.constructor: requires a well-formed archive: signal lengths agree with their time base, both time bases are ascending and each slice's LCFS rows are equally long. An archive that breaks this would make Python raise IndexError or return an arbitrary slice. The same holds for Equilibrium.MastIndices, Equilibrium.MastTimeSlice and Equilibrium.MASTEquilibrium.Time.
- Equilibrium.MASTUEquilibrium.constructor: likewise requires equal signal lengths; Equilibrium.MastuTimeSlice also requires the x-point `zip` to cover the whole time base, where Python would raise IndexError at `self.xpoints[index]`.
- Equilibrium.MastGuard: a pulse is an integer shot number or a non-numeric value; float pulses are not represented.
- The duplicate `_find_nearest` of `MASTUEquilibrium` (equilibrium.py:316-326) is the same code as equilibrium.py:201-211, which `TimeSearch.FindNearest` models. The MAST-U `time` method never calls it.
- BolometerConfig.LoadDefaultBolometerConfig: the `parent` and `shot` parameters only choose the scene-graph node and the archive query, so they are not modelled. `override_material or ...` is an `Option`: a given material object is always truthy.
- The slit and foil pass lemmas are stated for any id rule (`IdRule`); the loader instantiates it with `IdCamera`.
- The vessel-loop lemmas are stated for any mesh loader (`MeshLoader`); the script instantiates it with `VesselPart`.
- RtmSensitivities.SensitivityRunPlacement: the camera's own transform is the identity the loader leaves it at. `parent=world` is modelled only as appending a child to the world's list; the camera and the ray-transfer grid that a run later attaches to the world are not modelled as children.
- The second element of each mesh-part tuple is ignored by the script and carried unused.
- TimeSearch.FindNearest: compares `Nearer` (absolute distances) instead of squared differences; `TimeSearch.SquaresAsDistances` proves the two tests equal.

## Findings

| source | as written | input that shows it | evidently intended | confidence | as-written member | corrected member |
|---|---|---|---|---|---|---|
| cherab/mastu/equilibrium/equilibrium.py:206-211 | `searchsorted(side="left")` already gives the first sample at or above the value, and the code then compares it with the NEXT sample. So it returns the ceiling sample and fails with IndexError whenever the insertion point is the last index | `[0.0, 0.1, 0.2, 0.3]`, value 0.12 gives index 2 (0.2), although 0.1 is nearer; values 0.24 and 0.3 pass the range check and raise IndexError | the index of the sample nearest the value, for every value in `[min, max]` (compare the insertion point with the sample before it) | not executed | TimeSearch.FindNearestNotNearest | TimeSearch.FindNearestIntendedIsNearest |

`TimeSearch.FindNearest` is the rule as written, and `TimeSearch.FindNearestErrors` gives its exact failure set. The corrected rule `TimeSearch.FindNearestIntended` fails only outside the range (`TimeSearch.FindNearestIntendedErrors`). It picks a sample as near as the MAST-U reader's argmin does (`TimeSearch.NearestRulesAgree`). The MAST reader (`Equilibrium.MastIndices`, `Equilibrium.MASTEquilibrium.Time`) keeps the as-written rule, since it describes what that reader returns.
