/**
 * Material.cpp: a colour tint and the two shaders an entity is drawn with.
 * Shaders are shared objects the material only points at; a shader is
 * modelled as an opaque handle.
 */
module Materials {
  import opened Math3D

  /** A shared_ptr to a compiled shader, or the null pointer. */
  datatype ShaderRef = NullShader | Shader(id: nat)

  class Material {
    var colorTint: Vec4
    var vertexShader: ShaderRef
    var pixelShader: ShaderRef

    constructor (colorTint: Vec4, vs: ShaderRef, ps: ShaderRef)
      ensures this.colorTint == colorTint && vertexShader == vs && pixelShader == ps
    {
      this.colorTint := colorTint;
      vertexShader := vs;
      pixelShader := ps;
    }

    function GetColorTint(): (t: Vec4)
      reads this
      ensures t == colorTint
    {
      colorTint
    }

    /** After the call `GetColorTint()` is the new tint; both shaders are untouched. */
    method SetColorTint(newTint: Vec4)
      modifies this
      ensures GetColorTint() == newTint
      ensures vertexShader == old(vertexShader) && pixelShader == old(pixelShader)
    {
      colorTint := newTint;
    }

    function GetVertexShader(): (vs: ShaderRef)
      reads this
      ensures vs == vertexShader
    {
      vertexShader
    }

    /** After the call `GetVertexShader()` is vs; the tint and the pixel shader are untouched. */
    method SetVertexShader(vs: ShaderRef)
      modifies this
      ensures GetVertexShader() == vs
      ensures colorTint == old(colorTint) && pixelShader == old(pixelShader)
    {
      vertexShader := vs;
    }

    function GetPixelShader(): (ps: ShaderRef)
      reads this
      ensures ps == pixelShader
    {
      pixelShader
    }

    /** After the call `GetPixelShader()` is ps; the tint and the vertex shader are untouched. */
    method SetPixelShader(ps: ShaderRef)
      modifies this
      ensures GetPixelShader() == ps
      ensures colorTint == old(colorTint) && vertexShader == old(vertexShader)
    {
      pixelShader := ps;
    }
  }
}
