/**
 * The two pure decisions both texture owners take from the renderer's name:
 * whether trilinear filtering (mipmaps) is enabled, and which SDL property
 * holds the OpenGL name of a texture.
 */
module OpenGl {
  import opened Wrappers

  const OpenGlName: string := "opengl"

  /**
   * C's `strncmp(a, b, n) == 0` for strings without NUL characters: the first
   * n characters agree, where a string that ends early reads as its
   * terminator (which differs from every other character).
   */
  function StrNEqual(a: string, b: string, n: nat): bool
    decreases n
  {
    if n == 0 then true
    else if |a| == 0 || |b| == 0 then |a| == 0 && |b| == 0
    else a[0] == b[0] && StrNEqual(a[1..], b[1..], n - 1)
  }

  /** Comparing the first |p| characters with p is the prefix test. */
  lemma {:induction false} StrNEqualIsPrefix(a: string, p: string)
    ensures StrNEqual(a, p, |p|) <==> p <= a
  {
    if |p| != 0 && |a| != 0 {
      StrNEqualIsPrefix(a[1..], p[1..]);
      assert p <= a <==> a[0] == p[0] && p[1..] <= a[1..];
    }
  }

  /** The renderer is an OpenGL one: its name is known and starts with "opengl". */
  predicate IsOpenGlRenderer(name: Option<string>) {
    name.Some? && StrNEqual(name.value, OpenGlName, 6)
  }

  /**
   * Trilinear filtering is used only when requested, on an OpenGL renderer
   * whose version is at least OpenGL 3.0 or OpenGL ES 2.0 (the version test
   * is the oracle `versionAtLeast`).
   */
  function MipmapsEnabled(requested: bool, name: Option<string>, versionAtLeast: bool): (enabled: bool)
    ensures enabled <==>
      requested && name.Some? && |name.value| >= 6 && name.value[..6] == OpenGlName && versionAtLeast
  {
    if name.None? then false
    else
      StrNEqualIsPrefix(name.value, OpenGlName);
      IsOpenGlRenderer(name) && requested && versionAtLeast
  }

  /** The SDL texture property that holds the texture's GL name. */
  datatype TextureNumberKey = OpenGlTextureNumber | OpenGles2TextureNumber

  /** Comparing one character past the end of b, its terminator, is the equality test of `strcmp(a, b) == 0`. */
  lemma {:induction false} StrEqualIsEquality(a: string, b: string)
    ensures StrNEqual(a, b, |b| + 1) <==> a == b
  {
    if |a| != 0 && |b| != 0 {
      StrEqualIsEquality(a[1..], b[1..]);
      assert a == b <==> a[0] == b[0] && a[1..] == b[1..];
    }
  }

  /**
   * The desktop GL key when the name is unknown or `strcmp(name, "opengl")`
   * is 0, the GLES2 key otherwise.
   */
  function TextureNumberKeyFor(name: Option<string>): (key: TextureNumberKey)
    ensures key == OpenGlTextureNumber <==> name.None? || name.value == OpenGlName
  {
    if name.None? then OpenGlTextureNumber
    else
      StrEqualIsEquality(name.value, OpenGlName);
      if StrNEqual(name.value, OpenGlName, |OpenGlName| + 1) then OpenGlTextureNumber else OpenGles2TextureNumber
  }
}
