/**
 * The native CubiquityC library, seen from the managed side as an oracle.
 *
 * Nothing of what the library does is modelled: a `Backend` answers every
 * entry point with a reply that is an arbitrary (but fixed) function of the
 * history of calls made so far, and it records every call in `calls`.
 * Everything proved about the wrapper therefore holds for every possible
 * library, and the call log lets the wrapper's contracts state in which
 * order the library is consulted.
 */
module CubiquityC {
  import opened Ints

  /** A (major, minor, patch) version number as cuGetVersionNumber reports it. */
  datatype Version = Version(major: uint32, minor: uint32, patch: uint32)

  /** A quantized ColoredCubes vertex; only its position is read by the collider. */
  datatype ColoredCubesVertex = ColoredCubesVertex(x: int, y: int, z: int)

  /** A Marching Cubes (terrain) vertex; the managed side only passes it through. */
  datatype TerrainVertex = TerrainVertex(position: seq<int>, materials: seq<int>)

  /**
   * Every entry point that a one-line wrapper forwards, with its integer and
   * string arguments. Float arguments (eye position, LOD threshold, ray,
   * brush) and the QuantizedColor / MaterialSet structs are passed through
   * untouched and are not part of the request.
   */
  datatype Request =
    | NewEmptyColoredCubesVolume(lowerX: int32, lowerY: int32, lowerZ: int32,
                                 upperX: int32, upperY: int32, upperZ: int32,
                                 datasetName: string, baseNodeSize: uint32)
    | NewColoredCubesVolumeFromVDB(datasetName: string, writePermissions: uint32, baseNodeSize: uint32)
    | NewColoredCubesVolumeFromVolDat(voldatFolder: string, datasetName: string, baseNodeSize: uint32)
    | NewColoredCubesVolumeFromHeightmap(heightmapFileName: string, colormapFileName: string,
                                         datasetName: string, baseNodeSize: uint32)
    | UpdateVolume(volumeHandle: uint32)
    | GetEnclosingRegion(volumeHandle: uint32)
    | SetVoxel(volumeHandle: uint32, x: int32, y: int32, z: int32)
    | GetVoxel(volumeHandle: uint32, x: int32, y: int32, z: int32)
    | DeleteColoredCubesVolume(volumeHandle: uint32)
    | AcceptOverrideChunks(volumeHandle: uint32)
    | DiscardOverrideChunks(volumeHandle: uint32)
    | NewEmptyTerrainVolume(lowerX: int32, lowerY: int32, lowerZ: int32,
                            upperX: int32, upperY: int32, upperZ: int32,
                            datasetName: string, baseNodeSize: uint32)
    | NewTerrainVolumeFromVDB(datasetName: string, writePermissions: uint32, baseNodeSize: uint32)
    | UpdateVolumeMC(volumeHandle: uint32)
    | GetVoxelMC(volumeHandle: uint32, x: int32, y: int32, z: int32)
    | SetVoxelMC(volumeHandle: uint32, x: int32, y: int32, z: int32)
    | DeleteTerrainVolume(volumeHandle: uint32)
    | HasRootOctreeNode(volumeHandle: uint32)
    | GetRootOctreeNode(volumeHandle: uint32)
    | HasChildNode(nodeHandle: uint32, childX: uint32, childY: uint32, childZ: uint32)
    | GetChildNode(nodeHandle: uint32, childX: uint32, childY: uint32, childZ: uint32)
    | NodeHasMesh(nodeHandle: uint32)
    | GetNodePosition(nodeHandle: uint32)
    | GetMeshLastUpdated(nodeHandle: uint32)
    | RenderThisNode(nodeHandle: uint32)
    | GetMesh(octreeNodeHandle: uint32)
    | GetMeshMC(octreeNodeHandle: uint32)
    | GetCurrentTime
    | PickFirstSolidVoxel(volumeHandle: uint32)
    | PickLastEmptyVoxel(volumeHandle: uint32)
    | PickTerrainSurface(volumeHandle: uint32)
    | SculptTerrainVolume(volumeHandle: uint32)
    | BlurTerrainVolume(volumeHandle: uint32)
    | BlurTerrainVolumeRegion(volumeHandle: uint32, lowerX: int32, lowerY: int32, lowerZ: int32,
                              upperX: int32, upperY: int32, upperZ: int32)
    | PaintTerrainVolume(volumeHandle: uint32, materialIndex: uint32)
    | GenerateFloor(volumeHandle: uint32, lowerLayerHeight: int32, lowerLayerMaterial: uint32,
                    upperLayerHeight: int32, upperLayerMaterial: uint32)

  /** One call out of managed code, as recorded in `Backend.calls`. */
  datatype Call =
    | InstallationValidateAndFix
    | CuGetVersionNumber
    | CuGetLogFilePath
    | CuGetErrorCodeAsString(errorCode: int32)
    | CuGetLastErrorMessage
    | CuGetNoOfIndices(octreeNodeHandle: uint32)
    | CuGetIndices(octreeNodeHandle: uint32)
    | CuGetNoOfVertices(octreeNodeHandle: uint32)
    | CuGetVertices(octreeNodeHandle: uint32)
    | CuGetNoOfIndicesMC(octreeNodeHandle: uint32)
    | CuGetIndicesMC(octreeNodeHandle: uint32)
    | CuGetNoOfVerticesMC(octreeNodeHandle: uint32)
    | CuGetVerticesMC(octreeNodeHandle: uint32)
    | Cu(request: Request)

  /**
   * The code outside the managed wrapper: the native library and the
   * installation helper. Each reply function receives the call history
   * including the call being answered.
   */
  class Backend {
    const versionReply: seq<Call> -> (int32, Version)
    const logFilePathReply: seq<Call> -> string
    const errorCodeNameReply: seq<Call> -> string
    const lastErrorMessageReply: seq<Call> -> string
    const countReply: seq<Call> -> (int32, uint32)
    const indicesReply: seq<Call> -> (int32, seq<uint16>)
    const coloredCubesVerticesReply: seq<Call> -> (int32, seq<ColoredCubesVertex>)
    const terrainVerticesReply: seq<Call> -> (int32, seq<TerrainVertex>)
    const requestReply: seq<Call> -> (int32, seq<int>)

    /** Every call made so far, oldest first. */
    var calls: seq<Call>

    constructor (versionReply: seq<Call> -> (int32, Version),
                 logFilePathReply: seq<Call> -> string,
                 errorCodeNameReply: seq<Call> -> string,
                 lastErrorMessageReply: seq<Call> -> string,
                 countReply: seq<Call> -> (int32, uint32),
                 indicesReply: seq<Call> -> (int32, seq<uint16>),
                 coloredCubesVerticesReply: seq<Call> -> (int32, seq<ColoredCubesVertex>),
                 terrainVerticesReply: seq<Call> -> (int32, seq<TerrainVertex>),
                 requestReply: seq<Call> -> (int32, seq<int>))
      ensures this.versionReply == versionReply && this.logFilePathReply == logFilePathReply
      ensures this.errorCodeNameReply == errorCodeNameReply
      ensures this.lastErrorMessageReply == lastErrorMessageReply
      ensures this.countReply == countReply && this.indicesReply == indicesReply
      ensures this.coloredCubesVerticesReply == coloredCubesVerticesReply
      ensures this.terrainVerticesReply == terrainVerticesReply
      ensures this.requestReply == requestReply
      ensures calls == []
    {
      this.versionReply := versionReply;
      this.logFilePathReply := logFilePathReply;
      this.errorCodeNameReply := errorCodeNameReply;
      this.lastErrorMessageReply := lastErrorMessageReply;
      this.countReply := countReply;
      this.indicesReply := indicesReply;
      this.coloredCubesVerticesReply := coloredCubesVerticesReply;
      this.terrainVerticesReply := terrainVerticesReply;
      this.requestReply := requestReply;
      calls := [];
    }

    /** The installation check of the managed side (its effect is not modelled). */
    method ValidateAndFix()
      modifies this
      ensures calls == old(calls) + [InstallationValidateAndFix]
    {
      calls := calls + [InstallationValidateAndFix];
    }

    method cuGetVersionNumber() returns (code: int32, majorVersion: uint32, minorVersion: uint32, patchVersion: uint32)
      modifies this
      ensures calls == old(calls) + [CuGetVersionNumber]
      ensures (code, Version(majorVersion, minorVersion, patchVersion)) == versionReply(calls)
    {
      calls := calls + [CuGetVersionNumber];
      var version;
      code, version := versionReply(calls).0, versionReply(calls).1;
      majorVersion, minorVersion, patchVersion := version.major, version.minor, version.patch;
    }

    method cuGetLogFilePath() returns (path: string)
      modifies this
      ensures calls == old(calls) + [CuGetLogFilePath]
      ensures path == logFilePathReply(calls)
    {
      calls := calls + [CuGetLogFilePath];
      path := logFilePathReply(calls);
    }

    method cuGetErrorCodeAsString(errorCode: int32) returns (name: string)
      modifies this
      ensures calls == old(calls) + [CuGetErrorCodeAsString(errorCode)]
      ensures name == errorCodeNameReply(calls)
    {
      calls := calls + [CuGetErrorCodeAsString(errorCode)];
      name := errorCodeNameReply(calls);
    }

    method cuGetLastErrorMessage() returns (message: string)
      modifies this
      ensures calls == old(calls) + [CuGetLastErrorMessage]
      ensures message == lastErrorMessageReply(calls)
    {
      calls := calls + [CuGetLastErrorMessage];
      message := lastErrorMessageReply(calls);
    }

    /** Any count query (`count` is one of the four CuGetNoOf... calls). */
    method cuGetCount(count: Call) returns (code: int32, result: uint32)
      requires count.CuGetNoOfIndices? || count.CuGetNoOfVertices?
            || count.CuGetNoOfIndicesMC? || count.CuGetNoOfVerticesMC?
      modifies this
      ensures calls == old(calls) + [count]
      ensures (code, result) == countReply(calls)
    {
      calls := calls + [count];
      code, result := countReply(calls).0, countReply(calls).1;
    }

    /** cuGetIndices or cuGetIndicesMC: the marshaller hands back a fresh managed array. */
    method cuGetIndices(fetch: Call) returns (code: int32, result: array<uint16>)
      requires fetch.CuGetIndices? || fetch.CuGetIndicesMC?
      modifies this
      ensures calls == old(calls) + [fetch]
      ensures fresh(result)
      ensures (code, result[..]) == indicesReply(calls)
    {
      calls := calls + [fetch];
      var s := indicesReply(calls).1;
      code := indicesReply(calls).0;
      result := new uint16[|s|](i requires 0 <= i < |s| => s[i]);
      assert result[..] == s;
    }

    method cuGetVertices(octreeNodeHandle: uint32) returns (code: int32, result: array<ColoredCubesVertex>)
      modifies this
      ensures calls == old(calls) + [CuGetVertices(octreeNodeHandle)]
      ensures fresh(result)
      ensures (code, result[..]) == coloredCubesVerticesReply(calls)
    {
      calls := calls + [CuGetVertices(octreeNodeHandle)];
      var s := coloredCubesVerticesReply(calls).1;
      code := coloredCubesVerticesReply(calls).0;
      result := new ColoredCubesVertex[|s|](i requires 0 <= i < |s| => s[i]);
      assert result[..] == s;
    }

    method cuGetVerticesMC(octreeNodeHandle: uint32) returns (code: int32, result: array<TerrainVertex>)
      modifies this
      ensures calls == old(calls) + [CuGetVerticesMC(octreeNodeHandle)]
      ensures fresh(result)
      ensures (code, result[..]) == terrainVerticesReply(calls)
    {
      calls := calls + [CuGetVerticesMC(octreeNodeHandle)];
      var s := terrainVerticesReply(calls).1;
      code := terrainVerticesReply(calls).0;
      result := new TerrainVertex[|s|](i requires 0 <= i < |s| => s[i]);
      assert result[..] == s;
    }

    /** Any other entry point: a return code and the out-parameters, in declaration order. */
    method Invoke(request: Request) returns (code: int32, outs: seq<int>)
      modifies this
      ensures calls == old(calls) + [Cu(request)]
      ensures (code, outs) == requestReply(calls)
    {
      calls := calls + [Cu(request)];
      code, outs := requestReply(calls).0, requestReply(calls).1;
    }
  }
}
