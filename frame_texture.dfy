/**
 * Creation of the streaming YV12 texture that receives decoded frames, with
 * trilinear filtering set up when mipmaps are enabled. The texture manager
 * and the display both use it; on every failure it returns no texture and
 * has released everything it created.
 */
module FrameTexture {
  import opened Wrappers
  import opened Colorspace
  import opened OpenGl
  import opened Backend

  /** The outcome of each fallible backend call made while creating one frame texture. */
  datatype CreateReplies = CreateReplies(
    propertiesCreated: bool,
    formatSet: bool, accessSet: bool, widthSet: bool, heightSet: bool, colorspaceSet: bool,
    textureCreated: bool, glName: U32, gles2Name: U32,
    texturePropertiesFetched: bool)

  predicate AllSettingsApplied(r: CreateReplies) {
    r.formatSet && r.accessSet && r.widthSet && r.heightSet && r.colorspaceSet
  }

  /** The creation properties of a texture for frames of the given size and colour space. */
  function FrameSettings(size: Size, c: SdlColorspace): CreateProps {
    CreateProps(Some(Yv12), Some(StreamingAccess), Some(size.width), Some(size.height), Some(c))
  }

  function SetIf<T>(ok: bool, v: T): Option<T> {
    if ok then Some(v) else None
  }

  /** What the property set holds after the five setting calls, given their outcomes. */
  function SettingsAfter(r: CreateReplies, size: Size, c: SdlColorspace): (p: CreateProps)
    ensures AllSettingsApplied(r) ==> p == FrameSettings(size, c)
  {
    CreateProps(SetIf(r.formatSet, Yv12), SetIf(r.accessSet, StreamingAccess),
                SetIf(r.widthSet, size.width as int), SetIf(r.heightSet, size.height as int),
                SetIf(r.colorspaceSet, c))
  }

  /** The GL name the new texture is looked up by on a renderer called `name`. */
  function NameFor(r: CreateReplies, name: Option<string>): U32 {
    if TextureNumberKeyFor(name) == OpenGlTextureNumber then r.glName else r.gles2Name
  }

  /** Creation succeeds exactly when every step does, and the GL name is nonzero when mipmaps need it. */
  predicate Succeeds(r: CreateReplies, mipmaps: bool, name: Option<string>) {
    r.propertiesCreated && AllSettingsApplied(r) && r.textureCreated &&
    (mipmaps ==> r.texturePropertiesFetched && NameFor(r, name) != 0)
  }

  /** The GL calls that enable trilinear filtering on the texture named `id`. */
  function FilterSetup(id: U32): seq<GlCall> {
    [BindTexture(id), MinFilterTrilinear, LodBias, BindTexture(0)]
  }

  /** The GL calls that regenerate the mipmaps of the texture named `id` after an upload. */
  function MipmapRefresh(id: U32): seq<GlCall> {
    [BindTexture(id), GenerateMipmap, BindTexture(0)]
  }

  /** The format and access calls of the five SDL_SetNumberProperty calls. */
  method ApplyFormatSettings(p: PropertySet, replies: CreateReplies) returns (ok: bool)
    requires p.settings == NoProps
    modifies p
    ensures ok == (replies.formatSet && replies.accessSet)
    ensures p.settings == NoProps.(format := SetIf(replies.formatSet, Yv12),
                                   access := SetIf(replies.accessSet, StreamingAccess))
  {
    ok := p.SetNumberProperty(Format(Yv12), replies.formatSet);
    var applied := p.SetNumberProperty(Access(StreamingAccess), replies.accessSet);
    ok := ok && applied;
  }

  /** The width and height calls of the five SDL_SetNumberProperty calls. */
  method ApplySizeSettings(p: PropertySet, size: Size, replies: CreateReplies) returns (ok: bool)
    requires p.settings.width.None? && p.settings.height.None?
    modifies p
    ensures ok == (replies.widthSet && replies.heightSet)
    ensures p.settings == old(p.settings).(width := SetIf(replies.widthSet, size.width as int),
                                           height := SetIf(replies.heightSet, size.height as int))
  {
    ok := p.SetNumberProperty(Width(size.width), replies.widthSet);
    var applied := p.SetNumberProperty(Height(size.height), replies.heightSet);
    ok := ok && applied;
  }

  /** The five SDL_SetNumberProperty calls; as with `ok &= ...`, all five are made whatever fails. */
  method ApplyFrameSettings(p: PropertySet, size: Size, c: SdlColorspace, replies: CreateReplies)
    returns (ok: bool)
    requires p.settings == NoProps
    modifies p
    ensures ok == AllSettingsApplied(replies)
    ensures p.settings == SettingsAfter(replies, size, c)
  {
    ok := ApplyFormatSettings(p, replies);
    var applied := ApplySizeSettings(p, size, replies);
    ok := ok && applied;
    applied := p.SetNumberProperty(ColorspaceSetting(c), replies.colorspaceSet);
    ok := ok && applied;
  }

  /**
   * The first half of frame-texture creation: build the creation property
   * set, create the texture from it and release the set on every path.
   */
  method CreateStreamingTexture(renderer: Renderer, size: Size, c: SdlColorspace, replies: CreateReplies)
    returns (texture: Option<nat>)
    requires renderer.Valid()
    modifies renderer`propertySets, renderer`textures, renderer`next
    ensures renderer.Valid()
    ensures texture.Some? <==> replies.propertiesCreated && AllSettingsApplied(replies) && replies.textureCreated
    ensures renderer.propertySets == old(renderer.propertySets)
    ensures texture.None? ==> renderer.textures == old(renderer.textures)
    ensures old(renderer.next) <= renderer.next && (texture.Some? ==> old(renderer.next) <= texture.value)
    ensures texture.Some? ==>
              renderer.textures == old(renderer.textures)[texture.value :=
                Streaming(FrameSettings(size, c), replies.glName, replies.gles2Name)]
  {
    var p := renderer.CreateProperties(replies.propertiesCreated);
    if p == null {
      return None;
    }
    var ok := ApplyFrameSettings(p, size, c, replies);
    if !ok {
      renderer.DestroyProperties(p);
      return None;
    }
    texture := renderer.CreateTextureWithProperties(p, replies.textureCreated, replies.glName, replies.gles2Name);
    renderer.DestroyProperties(p);
  }

  /**
   * The GL name of a live texture, read from its SDL property set under
   * `key`; None when the property set cannot be had. The set is released.
   */
  method LookUpGlName(renderer: Renderer, t: nat, key: TextureNumberKey, fetched: bool) returns (n: Option<U32>)
    requires t in renderer.textures
    modifies renderer`propertySets
    ensures n.Some? <==> fetched
    ensures renderer.propertySets == old(renderer.propertySets)
    ensures n.Some? ==> n.value == NumberOf(renderer.textures[t], key)
  {
    var p := renderer.GetTextureProperties(t, fetched);
    if p == null {
      return None;
    }
    var number := renderer.GetNumberProperty(p, key);
    renderer.DestroyProperties(p);
    n := Some(number);
  }

  /**
   * sc_texture_create_frame_texture (and its copy sc_display_create_texture).
   * `id` is the GL name the caller stores as its texture id; it is meaningful
   * when a texture is returned and mipmaps are enabled.
   */
  method Create(renderer: Renderer, mipmaps: bool, size: Size, space: AvColorSpace, range: AvColorRange,
                replies: CreateReplies)
    returns (texture: Option<nat>, id: U32)
    requires renderer.Valid()
    modifies renderer`propertySets, renderer`textures, renderer`next, renderer`glLog
    ensures renderer.Valid()
    ensures texture.Some? <==> Succeeds(replies, mipmaps, renderer.name)
    ensures renderer.propertySets == old(renderer.propertySets)
    ensures texture.None? ==> renderer.textures == old(renderer.textures)
    ensures old(renderer.next) <= renderer.next && (texture.Some? ==> old(renderer.next) <= texture.value)
    ensures texture.Some? ==>
              renderer.textures == old(renderer.textures)[texture.value :=
                Streaming(FrameSettings(size, ToSdlColorSpace(space, range)), replies.glName, replies.gles2Name)]
    ensures texture.Some? && mipmaps ==> id == NameFor(replies, renderer.name) && id != 0
    ensures renderer.glLog == old(renderer.glLog) + (if texture.Some? && mipmaps then FilterSetup(id) else [])
  {
    id := 0;
    texture := CreateStreamingTexture(renderer, size, ToSdlColorSpace(space, range), replies);
    if texture.None? || !mipmaps {
      return;
    }
    var t := texture.value;
    var key := TextureNumberKeyFor(renderer.name);
    var n := LookUpGlName(renderer, t, key, replies.texturePropertiesFetched);
    if n.None? || n.value == 0 {
      renderer.DestroyTexture(t);
      assert renderer.textures == old(renderer.textures);
      return None, id;
    }
    // the texture id fits in 32 bits: GL names are unsigned 32-bit values
    id := n.value;
    renderer.Gl(BindTexture(id));
    renderer.Gl(MinFilterTrilinear);
    renderer.Gl(LodBias);
    renderer.Gl(BindTexture(0));
  }
}
