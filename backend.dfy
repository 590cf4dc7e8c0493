/**
 * An abstract SDL renderer with its OpenGL context, as far as the texture
 * owners use it. It keeps the live textures and property sets, the log of
 * pixel uploads and the log of GL calls. Every call that can fail in SDL
 * takes its outcome as a parameter, so the caller's contracts can say what
 * happens on each outcome.
 */
module Backend {
  import opened Wrappers
  import opened Colorspace
  import opened OpenGl

  type U16 = x: int | 0 <= x < 0x1_0000
  type U32 = x: int | 0 <= x < 0x1_0000_0000

  /** C's conversion of an int to uint16_t: the value modulo 2^16. */
  function ToU16(x: int): (r: U16)
    ensures 0 <= x < 0x1_0000 ==> r == x
    ensures (x - r) % 0x1_0000 == 0
  {
    x % 0x1_0000
  }

  /** A texture size, with the 16-bit fields of `struct sc_size`. */
  datatype Size = Size(width: U16, height: U16)

  /** A decoded video frame: its dimensions, colour description and pixel planes. */
  datatype Frame = Frame(
    width: int, height: int,
    colorSpace: AvColorSpace, colorRange: AvColorRange,
    planes: seq<seq<bv8>>, lineSizes: seq<int>)

  /** An image in memory (the disconnected icon, say) of w by h pixels. */
  datatype Surface = Surface(w: int, h: int, pixels: seq<bv8>)

  datatype PixelFormat = Yv12
  datatype TextureAccess = StreamingAccess

  /** The texture-creation properties a property set holds so far. */
  datatype CreateProps = CreateProps(
    format: Option<PixelFormat>, access: Option<TextureAccess>,
    width: Option<int>, height: Option<int>, colorspace: Option<SdlColorspace>)

  const NoProps := CreateProps(None, None, None, None, None)

  /** One SDL_SetNumberProperty call on a creation property set. */
  datatype Setting =
    | Format(f: PixelFormat) | Access(a: TextureAccess)
    | Width(w: int) | Height(h: int) | ColorspaceSetting(c: SdlColorspace)

  /** The settings after one SDL_SetNumberProperty call: the one property is set when the call succeeds. */
  function Recorded(p: CreateProps, s: Setting, ok: bool): CreateProps {
    match s
    case Format(f) => p.(format := if ok then Some(f) else p.format)
    case Access(a) => p.(access := if ok then Some(a) else p.access)
    case Width(w) => p.(width := if ok then Some(w) else p.width)
    case Height(h) => p.(height := if ok then Some(h) else p.height)
    case ColorspaceSetting(c) => p.(colorspace := if ok then Some(c) else p.colorspace)
  }

  /**
   * An SDL property set: one built to create a texture (`texture` is None),
   * or the one SDL hands out for the live texture `texture`.
   */
  class PropertySet {
    const texture: Option<nat>
    var settings: CreateProps

    constructor (texture: Option<nat>)
      ensures this.texture == texture && settings == NoProps
    {
      this.texture := texture;
      settings := NoProps;
    }

    /** SDL_SetNumberProperty: the property is recorded only when the call succeeds. */
    method SetNumberProperty(s: Setting, ok: bool) returns (r: bool)
      modifies this
      ensures r == ok && settings == Recorded(old(settings), s, ok)
    {
      settings := Recorded(settings, s, ok);
      r := ok;
    }
  }

  /**
   * A live texture: a streaming one made from creation properties, with the
   * names the GL and GLES2 drivers gave it, or one made from a surface.
   */
  datatype TextureInfo =
    | Streaming(settings: CreateProps, glName: U32, gles2Name: U32)
    | FromSurface(width: int, height: int)

  /** What SDL_GetNumberProperty(props, key, 0) reads from a texture's property set. */
  function NumberOf(info: TextureInfo, key: TextureNumberKey): U32 {
    match info
    case Streaming(_, gl, gles2) => if key == OpenGlTextureNumber then gl else gles2
    case FromSurface(_, _) => 0
  }

  /** The live textures once `t`, if any, is destroyed. */
  function Released(textures: map<nat, TextureInfo>, t: Option<nat>): map<nat, TextureInfo> {
    if t.Some? then textures - {t.value} else textures
  }

  datatype Upload = Upload(texture: nat, planes: seq<seq<bv8>>, lineSizes: seq<int>)

  datatype GlCall = BindTexture(name: U32) | MinFilterTrilinear | LodBias | GenerateMipmap

  class Renderer {
    /** SDL_GetRendererName: None when SDL cannot name the renderer. */
    const name: Option<string>
    var textures: map<nat, TextureInfo>
    /** The live property sets. */
    var propertySets: set<PropertySet>
    /** Texture handles are never reused: every live one is below `next`. */
    var next: nat
    var uploads: seq<Upload>
    var glLog: seq<GlCall>

    ghost predicate Valid()
      reads this
    {
      forall t :: t in textures ==> t < next
    }

    constructor (name: Option<string>)
      ensures Valid() && this.name == name
      ensures textures == map[] && propertySets == {} && uploads == [] && glLog == []
    {
      this.name := name;
      textures, propertySets, next := map[], {}, 0;
      uploads, glLog := [], [];
    }

    /** SDL_CreateProperties: an empty creation property set, or none when `ok` is false. */
    method CreateProperties(ok: bool) returns (p: PropertySet?)
      modifies this`propertySets
      ensures p != null <==> ok
      ensures p != null ==> fresh(p) && p.texture.None? && p.settings == NoProps
      ensures propertySets == old(propertySets) + (if p != null then {p} else {})
    {
      if ok {
        p := new PropertySet(None);
        propertySets := propertySets + {p};
      } else {
        p := null;
      }
    }

    /** SDL_DestroyProperties. */
    method DestroyProperties(p: PropertySet)
      requires p in propertySets
      modifies this`propertySets
      ensures propertySets == old(propertySets) - {p}
    {
      propertySets := propertySets - {p};
    }

    /**
     * SDL_CreateTextureWithProperties: on success a new streaming texture
     * made from the set's settings, to which the GL drivers give the names
     * `glName` and `gles2Name`.
     */
    method CreateTextureWithProperties(p: PropertySet, ok: bool, glName: U32, gles2Name: U32) returns (t: Option<nat>)
      requires Valid() && p in propertySets && p.texture.None?
      modifies this`textures, this`next
      ensures Valid()
      ensures t.Some? <==> ok
      ensures old(next) <= next && (t.Some? ==> old(next) <= t.value)
      ensures t.Some? ==> textures == old(textures)[t.value := Streaming(p.settings, glName, gles2Name)]
      ensures t.None? ==> textures == old(textures)
    {
      if ok {
        t := Some(next);
        textures := textures[next := Streaming(p.settings, glName, gles2Name)];
        next := next + 1;
      } else {
        t := None;
      }
    }

    /** SDL_CreateTextureFromSurface. */
    method CreateTextureFromSurface(s: Surface, ok: bool) returns (t: Option<nat>)
      requires Valid()
      modifies this`textures, this`next
      ensures Valid()
      ensures t.Some? <==> ok
      ensures old(next) <= next && (t.Some? ==> old(next) <= t.value)
      ensures t.Some? ==> textures == old(textures)[t.value := FromSurface(s.w, s.h)]
      ensures t.None? ==> textures == old(textures)
    {
      if ok {
        t := Some(next);
        textures := textures[next := FromSurface(s.w, s.h)];
        next := next + 1;
      } else {
        t := None;
      }
    }

    /** SDL_GetTextureProperties: the property set of a live texture, or none. */
    method GetTextureProperties(t: nat, ok: bool) returns (p: PropertySet?)
      requires t in textures
      modifies this`propertySets
      ensures p != null <==> ok
      ensures p != null ==> fresh(p) && p.texture == Some(t)
      ensures propertySets == old(propertySets) + (if p != null then {p} else {})
    {
      if ok {
        p := new PropertySet(Some(t));
        propertySets := propertySets + {p};
      } else {
        p := null;
      }
    }

    /** SDL_GetNumberProperty(p, key, 0) on the property set of a live texture. */
    method GetNumberProperty(p: PropertySet, key: TextureNumberKey) returns (n: U32)
      requires p.texture.Some? && p.texture.value in textures
      ensures n == NumberOf(textures[p.texture.value], key)
    {
      n := NumberOf(textures[p.texture.value], key);
    }

    /** SDL_DestroyTexture. */
    method DestroyTexture(t: nat)
      requires Valid() && t in textures
      modifies this`textures
      ensures Valid() && textures == old(textures) - {t}
    {
      textures := textures - {t};
    }

    /** SDL_UpdateYUVTexture with the planes of a frame; a successful upload is logged. */
    method UpdateYuvTexture(t: nat, f: Frame, ok: bool) returns (r: bool)
      requires t in textures
      modifies this`uploads
      ensures r == ok
      ensures uploads == old(uploads) + (if ok then [Upload(t, f.planes, f.lineSizes)] else [])
    {
      if ok {
        uploads := uploads + [Upload(t, f.planes, f.lineSizes)];
      }
      r := ok;
    }

    /** A call into the GL context (they cannot fail); it is appended to the log. */
    method Gl(call: GlCall)
      modifies this`glLog
      ensures glLog == old(glLog) + [call]
    {
      glLog := glLog + [call];
    }
  }
}
