/** The custom shader material: a material names the fragment entry point it wants, its
    pipeline key is that name alone, and specialization writes the name into the
    fragment stage of the pipeline being built. */
module Shader {
  import opened Wrappers

  datatype ShaderMaterial = ShaderMaterial(entryPoint: string)

  /** The data a material contributes to its pipeline key (`bind_group_data`). */
  datatype ShaderMaterialKey = ShaderMaterialKey(entryPoint: string)

  datatype AlphaMode = Opaque | Mask(cutoff: real) | Blend | Premultiplied | Add | Multiply

  /** The one fragment shader every `ShaderMaterial` uses. */
  const CustomShaderPath := "shaders/custom.wgsl"

  /** `Material::fragment_shader`: the same asset path for every material. */
  function FragmentShader(): (path: string)
    ensures path == CustomShaderPath
  {
    CustomShaderPath
  }

  /** `Material::alpha_mode`: no material is transparent or masked. */
  function AlphaModeOf(m: ShaderMaterial): (mode: AlphaMode)
    ensures mode.Opaque?
  {
    Opaque
  }

  /** `From<&ShaderMaterial> for ShaderMaterialKey`. */
  function KeyOf(m: ShaderMaterial): (k: ShaderMaterialKey)
    ensures k.entryPoint == m.entryPoint
  {
    ShaderMaterialKey(m.entryPoint)
  }

  /** Keys deduplicate materials exactly by entry point: equal entry points give equal
      keys (one shared pipeline variant), different entry points give different keys. */
  lemma KeysDeduplicateByEntryPoint(a: ShaderMaterial, b: ShaderMaterial)
    ensures KeyOf(a) == KeyOf(b) <==> a.entryPoint == b.entryPoint
  {
  }

  /** Whatever entry point a material names, the specialized fragment stage still runs
      the one custom shader. */
  lemma EveryVariantRunsCustomShader(f: FragmentState, m: ShaderMaterial)
    requires f.shader == FragmentShader()
    ensures SpecializedFragment(f, KeyOf(m)).shader == CustomShaderPath
    ensures SpecializedFragment(f, KeyOf(m)).entryPoint == m.entryPoint
  {
  }

  /** The shader stages of a `RenderPipelineDescriptor`, reduced to the fields the
      specialization could touch: the shader asset, its definitions, the entry point and
      the colour targets. */
  datatype VertexState = VertexState(shader: string, shaderDefs: seq<string>, entryPoint: string)
  datatype FragmentState = FragmentState(shader: string, shaderDefs: seq<string>, entryPoint: string, targets: seq<nat>)

  datatype SpecializedMeshPipelineError = MissingVertexAttribute(name: string)

  /** The fragment stage after specialization with `key`: the entry point is the key's,
      every other field is the stage's own. */
  function SpecializedFragment(f: FragmentState, key: ShaderMaterialKey): (g: FragmentState)
    ensures g.entryPoint == key.entryPoint
    ensures g.shader == f.shader && g.shaderDefs == f.shaderDefs && g.targets == f.targets
  {
    f.(entryPoint := key.entryPoint)
  }

  /** Two materials build the same fragment stage iff they name the same entry point. */
  lemma SpecializationDeduplicates(f: FragmentState, a: ShaderMaterial, b: ShaderMaterial)
    ensures SpecializedFragment(f, KeyOf(a)) == SpecializedFragment(f, KeyOf(b)) <==> a.entryPoint == b.entryPoint
  {
    if SpecializedFragment(f, KeyOf(a)) == SpecializedFragment(f, KeyOf(b)) {
      assert SpecializedFragment(f, KeyOf(a)).entryPoint == a.entryPoint;
    }
  }

  /** The descriptor the material pipeline hands to `specialize`. */
  class RenderPipelineDescriptor {
    var pipelineLabel: Option<string>
    var layout: seq<nat>
    var vertex: VertexState
    var fragment: Option<FragmentState>

    constructor (pipelineLabel: Option<string>, layout: seq<nat>, vertex: VertexState, fragment: Option<FragmentState>)
      ensures this.pipelineLabel == pipelineLabel && this.layout == layout
      ensures this.vertex == vertex && this.fragment == fragment
    {
      this.pipelineLabel := pipelineLabel;
      this.layout := layout;
      this.vertex := vertex;
      this.fragment := fragment;
    }
  }

  /** `Material::specialize`: the fragment stage must be present (it is unwrapped); its
      entry point becomes the key's, with no check that the shader defines it, and the
      call always succeeds. Nothing but the fragment stage is written. */
  method Specialize(descriptor: RenderPipelineDescriptor, key: ShaderMaterialKey)
    returns (r: Result<(), SpecializedMeshPipelineError>)
    requires descriptor.fragment.Some?
    modifies descriptor`fragment
    ensures descriptor.fragment == Some(SpecializedFragment(old(descriptor.fragment).value, key))
    ensures r == Ok(())
  {
    var fragment := descriptor.fragment.value;
    descriptor.fragment := Some(fragment.(entryPoint := key.entryPoint));
    r := Ok(());
  }
}
