/** Engine-side vocabulary shared by the cascade managers: textures, shader
    parameter ids, material property writes, command-buffer commands, and the
    engine objects (command buffer, material, camera) that the managers append to. */
module Render {

  datatype Option<T> = None | Some(value: T)

  /** The textures the two managers bind or render into. The wave buffers and
      targets are texture arrays with one slice per LOD. */
  datatype Texture =
    | WaveBuffers              // LodDataMgrAnimWaves._waveBuffers
    | Targets                  // the manager's own result array (_targets)
    | DataTexture              // the manager's DataTexture, the destination of the combine blit
    | BlackTexture2D           // Texture2D.blackTexture
    | BlackTextureArray        // TextureArray.Black
    | PingPongSource(owner: int) // PPRTs.Source of the persistent simulation at LOD `owner`

  /** One slice of a texture array, as a render target. */
  datatype Slice = Slice(texture: Texture, index: int)

  /** A shader parameter: a property name (Shader.PropertyToID is taken to be
      injective on names, so the name stands for the id), or the ocean-params
      vector id owned by LodTransform. */
  datatype ParamId = Property(name: string) | LodTransformOceanParams(prevFrame: bool)

  datatype Vec4 = Vec4(x: real, y: real, z: real, w: real)

  /** One write into a material's property block. */
  datatype Write =
    | SetTexture(param: ParamId, texture: Texture)
    | SetFloat(param: ParamId, value: real)
    | SetVector(param: ParamId, vector: Vec4)
    | LodDataBindData(slot: int, applyData: Texture, blendOut: bool) // LodData.BindData (base class, not modelled)

  /** The trace of one frame's work, in program order. Command-buffer commands
      and writes into the per-LOD combine materials appear in the order the
      source issues them; calls into collaborators whose code is not part of
      this model appear as single opaque events. */
  datatype Cmd =
    | BaseBuildCommandBuffer                      // LodDataMgr.BuildCommandBuffer
    | SetRenderTarget(renderTarget: Slice)
    | ClearRenderTarget                           // clear colour to black, depth untouched
    | SetGlobalFloat(param: ParamId, value: real)
    | GerstnerDraw(component: nat, lod: int)      // ShapeGerstnerBatched.BuildCommandBuffer(lod, ..)
    | DrawInput(input: nat, lod: int)             // one draw submitted by SubmitDrawsFiltered
    | Prop(target: int, write: Write)             // a write into _combineProperties[target]
    | BaseBindData(target: int, lod: int, applyData: Option<Texture>, blendOut: bool, prevFrame: bool)
    | BindResultData(target: int, lod: int)       // LodDataMgr.BindResultData on this manager
    | DynWavesBindCopySettings(target: int)
    | DynWavesBindResultData(target: int, lod: int)
    | DynWavesBindNull(target: int)
    | FlowBindResultData(target: int, lod: int)
    | FlowBindNull(target: int)
    | Blit(source: Texture, dest: Texture, material: int, slice: int)
    | DrawRenderer(material: int, submesh: int, pass: int)

  /** Unity's CommandBuffer: a named, append-only list of commands. */
  class CommandBuffer {
    var name: string
    var cmds: seq<Cmd>

    constructor ()
      ensures name == "" && cmds == []
    {
      name := "";
      cmds := [];
    }
  }

  /** A material, seen only through the property writes made to it. */
  class Material {
    const id: int
    var writes: seq<Write>

    constructor (id: int)
      ensures this.id == id && writes == []
    {
      this.id := id;
      writes := [];
    }
  }

  /** A camera, seen only through the command buffers registered on its hook event. */
  class Camera {
    var commandBuffers: seq<CommandBuffer>

    constructor ()
      ensures commandBuffers == []
    {
      commandBuffers := [];
    }
  }
}
