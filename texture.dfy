/**
 * The texture lifecycle manager: it owns the one texture that is drawn,
 * either a streaming texture for decoded frames or a texture made from an
 * icon, and recreates the frame texture only when the frame no longer fits it.
 */
module Textures {
  import opened Wrappers
  import opened Colorspace
  import opened OpenGl
  import opened Backend
  import FrameTexture

  datatype TextureType = FrameType | IconType

  /** The frame size as `struct sc_size`: the frame's int dimensions converted to uint16_t. */
  function FrameSize(f: Frame): Size {
    Size(ToU16(f.width), ToU16(f.height))
  }

  /** A stored size and kind describe the live texture `info`. */
  predicate Describes(info: TextureInfo, size: Size, kind: TextureType) {
    match kind
    case FrameType =>
      info.Streaming? && info.settings.format == Some(Yv12) && info.settings.access == Some(StreamingAccess) &&
      info.settings.width == Some(size.width as int) && info.settings.height == Some(size.height as int)
    case IconType =>
      info.FromSurface? && ToU16(info.width) == size.width && ToU16(info.height) == size.height
  }

  class Texture {
    /** The renderer, owned by the caller. */
    const renderer: Renderer
    var texture: Option<nat>
    /** Only meaningful while there is a texture. */
    var textureSize: Size
    var textureType: TextureType
    var mipmaps: bool
    /** Only set when mipmaps are enabled. */
    var textureId: U32

    /**
     * Whenever there is a texture, it is live and the stored size and kind
     * describe it; a frame texture used with mipmaps has its nonzero GL name
     * as texture id; mipmaps are only on with an OpenGL renderer.
     */
    ghost predicate Valid()
      reads this, renderer
    {
      renderer.Valid() &&
      (mipmaps ==> IsOpenGlRenderer(renderer.name)) &&
      (texture.Some? ==>
         texture.value in renderer.textures &&
         Describes(renderer.textures[texture.value], textureSize, textureType)) &&
      (mipmaps && texture.Some? && textureType == FrameType ==>
         textureId != 0 &&
         textureId == NumberOf(renderer.textures[texture.value], TextureNumberKeyFor(renderer.name)))
    }

    /** There is no texture a frame of this size can be uploaded to. */
    predicate NeedsRecreate(size: Size)
      reads this
    {
      texture.None? || textureType != FrameType || textureSize != size
    }

    /** sc_texture_init, which always succeeds; `versionAtLeast` answers the GL version test. */
    constructor Init(renderer: Renderer, requested: bool, versionAtLeast: bool)
      requires renderer.Valid()
      ensures Valid() && this.renderer == renderer && texture.None?
      ensures mipmaps == MipmapsEnabled(requested, renderer.name, versionAtLeast)
    {
      this.renderer := renderer;
      mipmaps := false;
      if IsOpenGlRenderer(renderer.name) && requested && versionAtLeast {
        mipmaps := true;
      }
      texture := None;
      textureSize, textureType, textureId := Size(0, 0), FrameType, 0;
    }

    /** sc_texture_destroy: the texture is released if there is one. */
    method Destroy()
      requires Valid()
      modifies renderer`textures
      ensures renderer.textures == Released(old(renderer.textures), texture)
      ensures renderer.propertySets == old(renderer.propertySets)
      ensures renderer.uploads == old(renderer.uploads) && renderer.glLog == old(renderer.glLog)
    {
      if texture.Some? {
        renderer.DestroyTexture(texture.value);
      }
    }

    /**
     * The recreation half of sc_texture_set_from_frame: the old texture, if
     * any, is destroyed and a frame texture of `size` is created.
     */
    method Recreate(size: Size, space: AvColorSpace, range: AvColorRange, replies: FrameTexture.CreateReplies)
      returns (ok: bool)
      requires Valid() && size.width != 0 && size.height != 0
      modifies this`texture, this`textureSize, this`textureType, this`textureId
      modifies renderer`propertySets, renderer`textures, renderer`next, renderer`glLog
      ensures Valid()
      ensures ok <==> FrameTexture.Succeeds(replies, mipmaps, renderer.name)
      ensures ok == texture.Some?
      ensures !ok ==>
                renderer.textures == Released(old(renderer.textures), old(texture)) &&
                textureSize == old(textureSize) && textureType == old(textureType) && textureId == old(textureId)
      ensures ok ==>
                texture.value !in old(renderer.textures) &&
                renderer.textures == Released(old(renderer.textures), old(texture))[texture.value :=
                  Streaming(FrameTexture.FrameSettings(size, ToSdlColorSpace(space, range)), replies.glName, replies.gles2Name)] &&
                textureType == FrameType && textureSize == size &&
                textureId == (if mipmaps then FrameTexture.NameFor(replies, renderer.name) else old(textureId))
      ensures renderer.propertySets == old(renderer.propertySets)
      ensures renderer.glLog == old(renderer.glLog) + (if ok && mipmaps then FrameTexture.FilterSetup(textureId) else [])
    {
      if texture.Some? {
        renderer.DestroyTexture(texture.value);
      }
      var created, id := FrameTexture.Create(renderer, mipmaps, size, space, range, replies);
      texture := created;
      if texture.None? {
        return false;
      }
      if mipmaps {
        textureId := id;
      }
      textureSize := size;
      textureType := FrameType;
      ok := true;
    }

    /**
     * The upload half of sc_texture_set_from_frame: the frame goes into the
     * frame texture and, with mipmaps, the mipmaps are regenerated.
     */
    method Refresh(frame: Frame, uploaded: bool) returns (ok: bool)
      requires Valid() && texture.Some? && textureType == FrameType
      modifies renderer`uploads, renderer`glLog
      ensures ok == uploaded
      ensures renderer.uploads == old(renderer.uploads) + (if ok then [Upload(texture.value, frame.planes, frame.lineSizes)] else [])
      ensures renderer.glLog == old(renderer.glLog) + (if ok && mipmaps then FrameTexture.MipmapRefresh(textureId) else [])
    {
      ok := renderer.UpdateYuvTexture(texture.value, frame, uploaded);
      if !ok {
        return;
      }
      if mipmaps {
        assert textureId != 0;
        renderer.Gl(BindTexture(textureId));
        renderer.Gl(GenerateMipmap);
        renderer.Gl(BindTexture(0));
      }
    }

    /**
     * The first half of sc_texture_set_from_frame: a texture that is not a
     * frame texture of the frame's size is recreated; `ok` says whether
     * there is a texture to upload to.
     */
    method Prepare(frame: Frame, replies: FrameTexture.CreateReplies) returns (ok: bool)
      requires Valid()
      requires FrameSize(frame).width != 0 && FrameSize(frame).height != 0
      modifies this`texture, this`textureSize, this`textureType, this`textureId
      modifies renderer`propertySets, renderer`textures, renderer`next, renderer`glLog
      ensures Valid()
      ensures ok == texture.Some?
      ensures !old(NeedsRecreate(FrameSize(frame))) ==>
                texture == old(texture) && renderer.textures == old(renderer.textures) && textureId == old(textureId)
      ensures old(NeedsRecreate(FrameSize(frame))) ==>
                (texture.Some? <==> FrameTexture.Succeeds(replies, mipmaps, renderer.name))
      ensures old(NeedsRecreate(FrameSize(frame))) && texture.None? ==>
                renderer.textures == Released(old(renderer.textures), old(texture)) &&
                textureSize == old(textureSize) && textureType == old(textureType) && textureId == old(textureId)
      ensures old(NeedsRecreate(FrameSize(frame))) && texture.Some? ==>
                texture.value !in old(renderer.textures) &&
                renderer.textures == Released(old(renderer.textures), old(texture))[texture.value :=
                  Streaming(FrameTexture.FrameSettings(FrameSize(frame), ToSdlColorSpace(frame.colorSpace, frame.colorRange)),
                            replies.glName, replies.gles2Name)] &&
                textureId == (if mipmaps then FrameTexture.NameFor(replies, renderer.name) else old(textureId))
      ensures texture.Some? ==> textureType == FrameType && textureSize == FrameSize(frame)
      ensures renderer.propertySets == old(renderer.propertySets)
      ensures renderer.glLog ==
                old(renderer.glLog) +
                (if old(NeedsRecreate(FrameSize(frame))) && texture.Some? && mipmaps
                 then FrameTexture.FilterSetup(textureId) else [])
    {
      var size := FrameSize(frame);
      if texture.None? || textureType != FrameType
         || textureSize.width != size.width || textureSize.height != size.height {
        // incompatible texture: recreate it
        ok := Recreate(size, frame.colorSpace, frame.colorRange, replies);
      } else {
        ok := true;
      }
    }

    /**
     * sc_texture_set_from_frame: the texture is kept when it is a frame
     * texture of the frame's size, and recreated otherwise; then the frame
     * is uploaded and, with mipmaps, the mipmaps are regenerated.
     */
    method SetFromFrame(frame: Frame, replies: FrameTexture.CreateReplies, uploaded: bool) returns (ok: bool)
      requires Valid()
      requires FrameSize(frame).width != 0 && FrameSize(frame).height != 0
      modifies this`texture, this`textureSize, this`textureType, this`textureId
      modifies renderer`propertySets, renderer`textures, renderer`next, renderer`glLog, renderer`uploads
      ensures Valid()
      ensures !old(NeedsRecreate(FrameSize(frame))) ==>
                texture == old(texture) && renderer.textures == old(renderer.textures) && textureId == old(textureId)
      ensures old(NeedsRecreate(FrameSize(frame))) ==>
                (texture.Some? <==> FrameTexture.Succeeds(replies, mipmaps, renderer.name))
      ensures old(NeedsRecreate(FrameSize(frame))) && texture.None? ==>
                renderer.textures == Released(old(renderer.textures), old(texture)) &&
                textureSize == old(textureSize) && textureType == old(textureType) && textureId == old(textureId)
      ensures old(NeedsRecreate(FrameSize(frame))) && texture.Some? ==>
                texture.value !in old(renderer.textures) &&
                renderer.textures == Released(old(renderer.textures), old(texture))[texture.value :=
                  Streaming(FrameTexture.FrameSettings(FrameSize(frame), ToSdlColorSpace(frame.colorSpace, frame.colorRange)),
                            replies.glName, replies.gles2Name)] &&
                textureId == (if mipmaps then FrameTexture.NameFor(replies, renderer.name) else old(textureId))
      ensures texture.Some? ==> textureType == FrameType && textureSize == FrameSize(frame)
      ensures ok <==> texture.Some? && uploaded
      ensures renderer.uploads ==
                old(renderer.uploads) + (if ok then [Upload(texture.value, frame.planes, frame.lineSizes)] else [])
      ensures renderer.propertySets == old(renderer.propertySets)
      ensures renderer.glLog ==
                old(renderer.glLog) +
                (if old(NeedsRecreate(FrameSize(frame))) && texture.Some? && mipmaps
                 then FrameTexture.FilterSetup(textureId) else []) +
                (if ok && mipmaps then FrameTexture.MipmapRefresh(textureId) else [])
    {
      ok := Prepare(frame, replies);
      if !ok {
        return;
      }
      ok := Refresh(frame, uploaded);
    }

    /**
     * sc_texture_set_from_surface: any texture is destroyed and replaced by
     * one made from the surface, tagged as an icon of the surface's size.
     */
    method SetFromSurface(surface: Surface, created: bool) returns (ok: bool)
      requires Valid()
      modifies this`texture, this`textureSize, this`textureType
      modifies renderer`textures, renderer`next
      ensures Valid()
      ensures ok <==> created
      ensures ok ==>
                texture.Some? && texture.value !in old(renderer.textures) &&
                renderer.textures == Released(old(renderer.textures), old(texture))[texture.value :=
                  FromSurface(surface.w, surface.h)] &&
                textureSize == Size(ToU16(surface.w), ToU16(surface.h)) && textureType == IconType
      ensures !ok ==> texture.None? && renderer.textures == Released(old(renderer.textures), old(texture))
      ensures mipmaps == old(mipmaps) && textureId == old(textureId)
      ensures renderer.propertySets == old(renderer.propertySets)
      ensures renderer.uploads == old(renderer.uploads) && renderer.glLog == old(renderer.glLog)
    {
      if texture.Some? {
        renderer.DestroyTexture(texture.value);
      }
      texture := renderer.CreateTextureFromSurface(surface, created);
      if texture.None? {
        return false;
      }
      textureSize := Size(ToU16(surface.w), ToU16(surface.h));
      textureType := IconType;
      ok := true;
    }
  }
}
