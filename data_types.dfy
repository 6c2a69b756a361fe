/** The records of DataTypes.cs: vectors, the loader's output, the asset
    records, and the simulation state. Numbers the source keeps as float or
    double are real here. A C# string field starts out null; the model has
    no null string and starts such fields as "" instead (the asset names of
    the New* records, the name of a new SatelliteSimData). */
module DataTypes {

  datatype Vector3 = Vector3(x: real, y: real, z: real)

  datatype Vector2 = Vector2(x: real, y: real)

  const Zero3: Vector3 := Vector3(0.0, 0.0, 0.0)

  const Zero2: Vector2 := Vector2(0.0, 0.0)

  /** An unsigned 8-bit value. */
  newtype byte = x: int | 0 <= x < 256

  /** The attribute locations of the vertex layout (VertexAttribIndex). */
  const VertexAttribVertex: int := 0
  const VertexAttribNormal: int := 1
  const VertexAttribUv: int := 2
  const VertexAttribTangent: int := 3
  const VertexAttribBitangent: int := 4

  /** The contents of an ObjectVertexData, as values. */
  datatype VertexData = VertexData(
    indices: seq<int>,
    vertices: seq<Vector3>,
    normals: seq<Vector3>,
    uvs: seq<Vector2>,
    tangents: seq<Vector3>,
    biTangents: seq<Vector3>)

  /** The loader's output. Every array is null until a loader allocates it;
      the plain loader allocates only vertices and normals. */
  class ObjectVertexData {
    var indices: array?<int>
    var vertices: array?<Vector3>
    var normals: array?<Vector3>
    var uvs: array?<Vector2>
    var tangents: array?<Vector3>
    var biTangents: array?<Vector3>

    constructor ()
      ensures indices == null && vertices == null && normals == null
      ensures uvs == null && tangents == null && biTangents == null
    {
      indices, vertices, normals := null, null, null;
      uvs, tangents, biTangents := null, null, null;
    }

    /** All six arrays are allocated. */
    predicate Complete()
      reads this
    {
      indices != null && vertices != null && normals != null &&
      uvs != null && tangents != null && biTangents != null
    }

    /** The arrays' contents. */
    function Value(): VertexData
      reads this, indices, vertices, normals, uvs, tangents, biTangents
      requires Complete()
    {
      VertexData(indices[..], vertices[..], normals[..], uvs[..], tangents[..], biTangents[..])
    }
  }

  datatype ImageAssetData = ImageAssetData(
    assetName: string,
    isLoaded: bool,
    openGLHandle: int,
    isDisplacement: bool)

  datatype MeshAssetData = MeshAssetData(
    assetName: string,
    isLoaded: bool,
    indicesCount: int,
    vertexBufferHandle: int,
    indicesBufferHandle: int,
    vertexArrayObjectHandle: int)

  datatype BasicShaderAssetData = BasicShaderAssetData(
    isLoaded: bool,
    fragmentShaderName: string,
    vertexShaderName: string,
    vertexObjectHandle: int,
    fragmentObjectHandle: int,
    programHandle: int,
    modelviewProjectionMatrixLocation: int)

  datatype BlinnShaderAsset = BlinnShaderAsset(
    basicShader: BasicShaderAssetData,
    modelMatrixLocation: int,
    colorTextureLocation: int,
    normalTextureLocation: int,
    materialShininessLocation: int,
    lightDirectionLocation: int,
    lightAmbientColorLocation: int,
    lightDiffuseColorLocation: int,
    lightSpecularColorLocation: int,
    cameraPositionLocation: int)

  /** The value of a freshly created (zeroed) record, as `new T()` gives it,
      with "" for the null asset name. */
  function NewImageAsset(): ImageAssetData {
    ImageAssetData("", false, 0, false)
  }

  function NewMeshAsset(): MeshAssetData {
    MeshAssetData("", false, 0, 0, 0, 0)
  }

  function NewBasicShaderAsset(): BasicShaderAssetData {
    BasicShaderAssetData(false, "", "", 0, 0, 0, 0)
  }

  function NewBlinnShaderAsset(): BlinnShaderAsset {
    BlinnShaderAsset(NewBasicShaderAsset(), 0, 0, 0, 0, 0, 0, 0, 0, 0)
  }

  class SatelliteSimData {
    var position: Vector3
    var name: string
    var apogee: real
    var perigee: real
    var longitudeOfGeo: real
    var eccentricity: real
    var semiMajorAxis: real
    var inclenation: real
    var longitudeOfAscendingNode: real
    var argumentOfPeriapsis: real
    var periode: real

    constructor ()
      ensures position == Zero3 && name == ""
      ensures apogee == 0.0 && perigee == 0.0 && longitudeOfGeo == 0.0
      ensures eccentricity == 0.0 && semiMajorAxis == 0.0 && inclenation == 0.0
      ensures longitudeOfAscendingNode == 0.0 && argumentOfPeriapsis == 0.0 && periode == 0.0
    {
      position, name := Zero3, "";
      apogee, perigee, longitudeOfGeo := 0.0, 0.0, 0.0;
      eccentricity, semiMajorAxis, inclenation := 0.0, 0.0, 0.0;
      longitudeOfAscendingNode, argumentOfPeriapsis, periode := 0.0, 0.0, 0.0;
    }

    /** The name and the orbital elements still hold their constructor values. */
    predicate OrbitUnset()
      reads this
    {
      name == "" && apogee == 0.0 && perigee == 0.0 && longitudeOfGeo == 0.0 &&
      eccentricity == 0.0 && semiMajorAxis == 0.0 && inclenation == 0.0 &&
      longitudeOfAscendingNode == 0.0 && argumentOfPeriapsis == 0.0 && periode == 0.0
    }
  }

  class SimData {
    var totalSimulationTime: real
    var simulationSpeed: real
    var satellites: array?<SatelliteSimData?>

    constructor ()
      ensures totalSimulationTime == 0.0 && simulationSpeed == 0.0 && satellites == null
    {
      totalSimulationTime, simulationSpeed, satellites := 0.0, 0.0, null;
    }
  }
}
