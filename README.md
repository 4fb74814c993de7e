# Cubiquity for Unity3D: native-call guard and ColoredCubes mesh decode

This project models two self-contained parts of the managed (C#) side of
Cubiquity for Unity3D and proves properties of them in Dafny.

* **`Cubiquity.Impl.CubiquityDLL`** is the wrapper around the native
  CubiquityC library. Its static constructor runs once. It calls the
  installation check, asks the library for its version, and raises unless
  the version is exactly 1.1.4. Only after that gate passes does it cache
  the library's log file path. `Validate` raises a `CubiquityException` for
  any return code other than `CU_OK` (0). The exception's message carries
  the code's name, the library's last error message and the cached log path.
  Every public wrapper sends its native return code through `Validate`. The
  managed mesh getters (`GetIndices`, `GetVertices` and their `MC` variants)
  first query a count, validate it, then fetch, then validate again.
* **`ColoredCubesVolumeCollider.BuildMeshFromNodeHandle`** copies the vertex
  and index buffers lent out by the native library into a Unity mesh.
  Indices are widened from unsigned 16-bit to signed 32-bit, element by
  element and in order. Each quantized vertex position has the bias
  (0.5, 0.5, 0.5) subtracted.

## How it is modelled

* The native library is the class `CubiquityC.Backend`, an oracle. Each
  entry point answers with an arbitrary reply that depends on the history
  of calls so far, so every proof holds for every possible library. Each
  entry point also appends itself to the call log `calls`. The wrapper's
  contracts state its exact effect on that log, and that fixes the order
  of the calls: installation check, then version query, then log path;
  count, then validate, then fetch, then validate. A failed count query
  never issues the fetch.
* The static state of `CubiquityDLL` is an object of class
  `Impl.CubiquityDLL` with the fields `typeState` and `logFilePath`. The
  static constructor is its constructor, so it runs once per object; one
  object stands for the type's static state in one process. C# rethrows a failed type initialiser on every later access
  to the type. The model does the same: after a version mismatch, every
  wrapper fails with `TypeInitialization(cause)` and never calls the library.
* A raised exception is a `Fail`/`Failure` value (module `Wrappers`).
  `Validate` is a method because it makes the two diagnostic calls. Its
  decision is the pure function `Impl.Validation`. The version comparison
  is the pure function `Impl.VersionGate`.
* The three-dozen one-line wrappers that only forward a call are one method,
  `Impl.CubiquityDLL.Forward`. It takes the entry point as a `Request`
  value (integer and string arguments only) and returns the out-values as a
  sequence of integers.
* The collider takes the counts and the borrowed buffers as parameters,
  because the reply of `GetMesh` (itself an entry point of `Forward`) is
  taken as an input. The buffers are arrays that the method only reads (it
  has no `modifies` clause). Each loop reads through a cursor that stands
  for the advancing C# pointer. Unity's `Mesh.vertices` and
  `Mesh.triangles` setters copy, so the returned fresh `Mesh` holds
  sequences, and nothing in it aliases the borrowed buffers.
* Raw vertex coordinates are `int` (the struct declaration is not part of
  this model). Decoded coordinates are `real`. Subtracting 0.5 from a small
  integer is exact in single precision, so `real` is faithful here.
* `uint`, `int` and `ushort` are the newtypes `uint32`, `int32` and
  `uint16` (module `Ints`).

Observations on the code, modelled as written:
* The static constructor calls `cuGetVersionNumber` directly, so its return
  code is never validated. It also calls `GetLogFilePath` without
  validation. The public `GetVersionNumber` wrapper does validate.
* In the managed mesh getters, the count only sizes an array. The `out`
  parameter of the fetch then replaces that array with whatever the library
  returns, so the returned length is the fetched length, not the count.
* On the failure path, `Validate` fetches the code's name before the last
  error message, which is C#'s left-to-right evaluation of the concatenation.
* The collider's call to `GetMesh` (ColoredCubesVolumeCollider.cs:21)
  passes `out noOfVertices` and `out noOfIndices` where `GetMesh` declares
  `uint*` parameters (CubiquityDLL.cs:315), so that call does not type-check
  as written. `GetMesh` also exists only when `CUBIQUITY_USE_UNSAFE` is
  defined. The model reads the call as filling the two counts.

`Validate` and the static constructor raise `CubiquityException`; the model
represents both as `Fail`/`Failure` values.

## Model

| member | source | states |
|---|---|---|
| `Impl.VersionGate` | Assets/Cubiquity/Scripts/Impl/CubiquityDLL.cs:34-41 | The gate passes iff major, minor and patch equal 1, 1 and 4, component by component, that is iff the version is exactly 1.1.4. Otherwise it raises WrongVersion naming the expected and the found version. |
| `Impl.Validation` | Assets/Cubiquity/Scripts/Impl/CubiquityDLL.cs:47-55 | Validate passes iff the code is CU_OK (0). Otherwise the exception carries that code, its name, the library's last error message and the log path. |
| `Impl.Returned` | Assets/Cubiquity/Scripts/Impl/CubiquityDLL.cs:105-110 | A wrapper returns its out-value exactly when validation passed. Otherwise it propagates the validation failure. |
| `Impl.DiagnosticCalls` | Assets/Cubiquity/Scripts/Impl/CubiquityDLL.cs:49-53 | Validate makes no extra native call iff the code is CU_OK. |
| `Impl.VersionStringInjective` | Assets/Cubiquity/Scripts/Impl/CubiquityDLL.cs:39-40 | The dotted major.minor.patch form of `VersionString` loses nothing: two versions with the same dotted form are equal, so the mismatch message identifies the found version. |
| `Impl.Message` | Assets/Cubiquity/Scripts/Impl/CubiquityDLL.cs:38-41 | The version-mismatch message starts with "Wrong version of Cubiquity native code library found! Expected version " and ends with the advice to try a stable snapshot. The native-error message starts with "An exception has occured…Error code '" and ends with "' for more details." (lines 51-53). |
| `Impl.NativeCodeErrorMessageCarriesDiagnostics` | Assets/Cubiquity/Scripts/Impl/CubiquityDLL.cs:51-53 | The native-error message contains the code's name, the last error message and the log file path. |
| `Impl.WrongVersionMessageNamesBothVersions` | Assets/Cubiquity/Scripts/Impl/CubiquityDLL.cs:38-41 | The version-mismatch message contains "1.1.4" and the dotted form of the found version. |
| `Impl.CubiquityDLL.StaticConstructor` | Assets/Cubiquity/Scripts/Impl/CubiquityDLL.cs:25-45 | Calls the installation check, then the version query, in that order. On an exact 1.1.4 match it then fetches the log path once and caches it, and the type is initialised. On a mismatch the type fails with WrongVersion, no further call is made and logFilePath stays unassigned. |
| `Impl.CubiquityDLL.Validate` | Assets/Cubiquity/Scripts/Impl/CubiquityDLL.cs:47-55 | On CU_OK it returns normally and calls nothing. On any other code it calls the code-name and last-message queries, in that order, and raises the exception built from their answers and the cached log path. |
| `Impl.CubiquityDLL.Forward` | Assets/Cubiquity/Scripts/Impl/CubiquityDLL.cs:103-475 | Every forwarding wrapper issues exactly its one native call and sends the code through Validate. It returns the out-values only on CU_OK. After a failed type initialiser it raises without calling the library. |
| `Impl.CubiquityDLL.GetVersionNumber` | Assets/Cubiquity/Scripts/Impl/CubiquityDLL.cs:62-65 | The public version query validates its code, unlike the static constructor, and returns the version only on CU_OK. |
| `Impl.CubiquityDLL.GetLogFilePath` | Assets/Cubiquity/Scripts/Impl/CubiquityDLL.cs:72-77 | Returns the library's answer unvalidated, after one native call. |
| `Impl.CubiquityDLL.GetErrorCodeAsString` | Assets/Cubiquity/Scripts/Impl/CubiquityDLL.cs:84-89 | Returns the library's name for the code unvalidated, after one native call. |
| `Impl.CubiquityDLL.GetLastErrorMessage` | Assets/Cubiquity/Scripts/Impl/CubiquityDLL.cs:93-98 | Returns the library's last error message unvalidated, after one native call. |
| `Impl.CubiquityDLL.GetIndices` | Assets/Cubiquity/Scripts/Impl/CubiquityDLL.cs:324-333 | Count query, then validate. If the count fails, it raises and never issues the fetch. Otherwise fetch, then validate. It returns a fresh array holding exactly the fetched indices only when both codes are CU_OK. |
| `Impl.CubiquityDLL.GetVertices` | Assets/Cubiquity/Scripts/Impl/CubiquityDLL.cs:339-349 | The same count-then-fetch protocol for ColoredCubes vertices. |
| `Impl.CubiquityDLL.GetIndicesMC` | Assets/Cubiquity/Scripts/Impl/CubiquityDLL.cs:365-374 | The same protocol for the terrain index buffer. |
| `Impl.CubiquityDLL.GetVerticesMC` | Assets/Cubiquity/Scripts/Impl/CubiquityDLL.cs:380-390 | The same protocol for terrain vertices. |
| `Impl.CubiquityDLL.FailedCountNeverFetches` | Assets/Cubiquity/Scripts/Impl/CubiquityDLL.cs:326-330 | In any of the four getters, a failed count query raises a native-code error. The call log after the count is exactly the code-name query and then the last-message query, so no fetch call reaches the library. |
| `CubiquityC.Backend.ValidateAndFix` | Assets/Cubiquity/Scripts/Impl/CubiquityDLL.cs:27 | The installation check is one logged step that always returns. |
| `CubiquityC.Backend.cuGetVersionNumber` | Assets/Cubiquity/Scripts/Impl/CubiquityDLL.cs:60-61 | The version entry point: one logged call, whose code and version are the library's reply. |
| `CubiquityC.Backend.cuGetLogFilePath` | Assets/Cubiquity/Scripts/Impl/CubiquityDLL.cs:70-71 | The log-path entry point: one logged call, answered by the library. |
| `CubiquityC.Backend.cuGetErrorCodeAsString` | Assets/Cubiquity/Scripts/Impl/CubiquityDLL.cs:82-83 | The code-name entry point: one logged call, answered by the library. |
| `CubiquityC.Backend.cuGetLastErrorMessage` | Assets/Cubiquity/Scripts/Impl/CubiquityDLL.cs:91-92 | The last-error entry point: one logged call, answered by the library. |
| `CubiquityC.Backend.cuGetCount` | Assets/Cubiquity/Scripts/Impl/CubiquityDLL.cs:320-321 | The four count entry points: one logged call, whose code and count are the library's reply. |
| `CubiquityC.Backend.cuGetIndices` | Assets/Cubiquity/Scripts/Impl/CubiquityDLL.cs:322-323 | The two index-fetch entry points: the marshaller returns a fresh array holding the library's reply. |
| `CubiquityC.Backend.cuGetVertices` | Assets/Cubiquity/Scripts/Impl/CubiquityDLL.cs:337-338 | The ColoredCubes vertex fetch: a fresh array holding the library's reply. |
| `CubiquityC.Backend.cuGetVerticesMC` | Assets/Cubiquity/Scripts/Impl/CubiquityDLL.cs:378-379 | The terrain vertex fetch: a fresh array holding the library's reply. |
| `CubiquityC.Backend.Invoke` | Assets/Cubiquity/Scripts/Impl/CubiquityDLL.cs:103-104 | Every other entry point: one logged call, whose code and out-values are the library's reply. |
| `Text.DecimalString` | Assets/Cubiquity/Scripts/Impl/CubiquityDLL.cs:39-40 | The version numbers in the message are non-empty digit strings with no leading zero. |
| `Text.DecimalRoundTrip` | Assets/Cubiquity/Scripts/Impl/CubiquityDLL.cs:39-40 | Parsing the decimal form of a number gives the number back. |
| `Text.DecimalStringInjective` | Assets/Cubiquity/Scripts/Impl/CubiquityDLL.cs:39-40 | Distinct version components print differently. |
| `ColoredCubesVolumeCollider.Widen` | Assets/Cubiquity/Scripts/ColoredCubesVolumeCollider.cs:30 | Widening a ushort to int preserves its value and is never negative or above 65535. |
| `ColoredCubesVolumeCollider.WidenedIndices` | Assets/Cubiquity/Scripts/ColoredCubesVolumeCollider.cs:27-32 | The widened index list has the input's length. Element k equals input element k and lies in 0..65535. |
| `ColoredCubesVolumeCollider.NarrowInvertsWiden` | Assets/Cubiquity/Scripts/ColoredCubesVolumeCollider.cs:28-32 | Narrowing the widened list back gives exactly the input, so no index is lost, changed or reordered and triangle winding is unchanged. |
| `ColoredCubesVolumeCollider.DecodePosition` | Assets/Cubiquity/Scripts/ColoredCubesVolumeCollider.cs:42-43 | Adding 0.5 back to each decoded component gives the raw integer coordinate. |
| `ColoredCubesVolumeCollider.DecodedPositions` | Assets/Cubiquity/Scripts/ColoredCubesVolumeCollider.cs:39-47 | The decoded list has the input's length. Element k is vertex k's (x, y, z) with 0.5 subtracted from each component. |
| `ColoredCubesVolumeCollider.EncodeInvertsDecodePosition` | Assets/Cubiquity/Scripts/ColoredCubesVolumeCollider.cs:42-43 | Adding the bias back to a decoded position gives the quantized vertex again: decode is exactly raw minus (0.5, 0.5, 0.5). |
| `ColoredCubesVolumeCollider.EncodeInvertsDecode` | Assets/Cubiquity/Scripts/ColoredCubesVolumeCollider.cs:39-47 | Re-encoding the decoded vertex list gives the input buffer back, in order. |
| `ColoredCubesVolumeCollider.BuildMeshFromNodeHandle` | Assets/Cubiquity/Scripts/ColoredCubesVolumeCollider.cs:15-60 | Returns a fresh mesh. Its triangles are the widened first noOfIndices indices and its vertices the decoded first noOfVertices positions, with exactly those lengths, so zero counts give an empty mesh. The borrowed buffers are not modified. |
| `UnityEngine.Mesh.constructor` | Assets/Cubiquity/Scripts/ColoredCubesVolumeCollider.cs:50 | A new mesh has no vertices and no triangles. |

## Left out

- Everything the native library does (voxel storage, meshing, LOD decisions in cuUpdateVolume/cuUpdateVolumeMC, accept/discard of override chunks, raycasting, sculpt/blur/paint/floor generation): foreign code; only its replies are modelled, as oracle inputs.
- Impl.CubiquityDLL.StaticConstructor: a native library that cannot be loaded or bound at the first P/Invoke (`cuGetVersionNumber`, CubiquityDLL.cs:32; the comment at 22-24 describes this case) is not modelled. The model's library always answers, so WrongVersion is the only modelled cause of a failed type initialiser.
- Impl.CubiquityDLL.Forward: out-parameters that the native call writes before `Validate` raises are not modelled. The C# wrappers with `out` parameters (GetVersionNumber, GetEnclosingRegion, GetVoxel, GetVoxelMC, GetNodePosition, the Pick* hit coordinates) leave those values in the caller's variables; the model returns a bare `Failure`.
- Impl.CubiquityDLL.GetVersionNumber: the same holds for the version triple written before `Validate` raises (CubiquityDLL.cs:62-65).
- Octree mirroring, mesh-version diffing and pruning: none of the modelled files implements them; only the raw octree accessors exist, and they are entry points of `Forward`.
- Float arguments and float out-values (eye position, LOD threshold, rays, brushes, `PickTerrainSurface`'s hit point), and the QuantizedColor/MaterialSet struct arguments: forwarded untouched, not part of a `Request`.
- String marshalling (`Marshal.PtrToStringAnsi`, `StringBuilder` wrapping; a null pointer becoming a null string) and the CUBIQUITY_USE_UNSAFE split: both branches are modelled side by side in one class; no single build contains both. The managed getters come from the `#else` branch. The `GetMesh`/`GetMeshMC` wrappers of the `#if` branch are entry points of `Forward`, and the decoder takes their reply as abstract buffers.
- Installation.ValidateAndFix: its code is not part of this model; it is a logged step that always returns.
- Unity `Mesh` details: `hideFlags`, and the engine's check of triangle indices against the vertex count done by the `triangles` setter. This is engine behaviour.
- The colour of ColoredCubes vertices and the layout of TerrainVertex: the collider never reads them.
- ColoredCubesVolumeCollider.BuildMeshFromNodeHandle: does not model the failure propagated from `GetMesh` at ColoredCubesVolumeCollider.cs:21. There `Validate` can raise NativeCodeError, or the type can raise TypeInitialization, before anything is copied; the model's method starts from `GetMesh`'s successful reply and cannot fail.
- ColoredCubesVolumeCollider.BuildMeshFromNodeHandle: does not model allocation failure. A count beyond the runtime's array limit makes `new int[noOfIndices]` or `new Vector3[noOfVertices]` (ColoredCubesVolumeCollider.cs:27, 35) raise before either loop runs; the model's arrays of any `uint32` length always allocate.
- Impl.CubiquityDLL.GetIndices: does not model allocation failure. A count beyond the runtime's array limit makes the count-sized `new ushort[…]` (CubiquityDLL.cs:329) raise before the fetch; the model's allocation always succeeds.
- Impl.CubiquityDLL.GetVertices: does not model allocation failure. A count beyond the runtime's array limit makes the count-sized `new ColoredCubesVertex[…]` (CubiquityDLL.cs:345) raise before the fetch; the model's allocation always succeeds.
- Impl.CubiquityDLL.GetIndicesMC: does not model allocation failure. A count beyond the runtime's array limit makes the count-sized `new ushort[…]` (CubiquityDLL.cs:370) raise before the fetch; the model's allocation always succeeds.
- Impl.CubiquityDLL.GetVerticesMC: does not model allocation failure. A count beyond the runtime's array limit makes the count-sized `new TerrainVertex[…]` (CubiquityDLL.cs:386) raise before the fetch; the model's allocation always succeeds.
- ColoredCubesVolumeCollider.BuildMeshFromNodeHandle: single-precision rounding of the `float` position components is not modelled; decoded coordinates are exact reals.
- The lazy timing of the C# static constructor (it runs at the first access to the type, not at a chosen point): the model runs it as the object's constructor, before any wrapper call.
- DocSrc/Installation.cs (documentation only) and Assets/Cubiquity/Editor/TerrainVolumeRendererInspector.cs (editor UI): no behaviour to model.
