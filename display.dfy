/**
 * The display: it owns the renderer's current texture, recreated for every
 * new frame size, and uploads decoded frames to it.
 */
module Displays {
  import opened Wrappers
  import opened Colorspace
  import opened OpenGl
  import opened Backend
  import FrameTexture

  class Display {
    /** The renderer, owned by the caller. */
    const renderer: Renderer
    var texture: Option<nat>
    var mipmaps: bool
    /** Only set by a frame texture created with mipmaps. */
    var textureId: U32

    /**
     * The texture, if any, is live; mipmaps are only on with an OpenGL
     * renderer; a streaming texture used with mipmaps has its nonzero GL
     * name as texture id.
     */
    ghost predicate Valid()
      reads this, renderer
    {
      renderer.Valid() &&
      (mipmaps ==> IsOpenGlRenderer(renderer.name)) &&
      (texture.Some? ==> texture.value in renderer.textures) &&
      (mipmaps && texture.Some? && renderer.textures[texture.value].Streaming? ==>
         textureId != 0 &&
         textureId == NumberOf(renderer.textures[texture.value], TextureNumberKeyFor(renderer.name)))
    }

    /** sc_display_init, which always succeeds; `versionAtLeast` answers the GL version test. */
    constructor Init(renderer: Renderer, requested: bool, versionAtLeast: bool)
      requires renderer.Valid()
      ensures Valid() && this.renderer == renderer && texture.None?
      ensures mipmaps == MipmapsEnabled(requested, renderer.name, versionAtLeast)
    {
      this.renderer := renderer;
      mipmaps := false;
      if IsOpenGlRenderer(renderer.name) && requested && versionAtLeast {
        mipmaps := true;
      }
      texture := None;
      textureId := 0;
    }

    /** sc_display_destroy: the texture is released if there is one. */
    method Destroy()
      requires Valid()
      modifies renderer`textures
      ensures renderer.textures == Released(old(renderer.textures), texture)
    {
      if texture.Some? {
        renderer.DestroyTexture(texture.value);
      }
    }

    /**
     * sc_display_prepare_texture: the old texture, if any, is destroyed
     * and a frame texture of `size` is created in its place.
     */
    method PrepareTexture(size: Size, space: AvColorSpace, range: AvColorRange, replies: FrameTexture.CreateReplies)
      returns (ok: bool)
      requires Valid() && size.width != 0 && size.height != 0
      modifies this`texture, this`textureId
      modifies renderer`propertySets, renderer`textures, renderer`next, renderer`glLog
      ensures Valid()
      ensures ok <==> FrameTexture.Succeeds(replies, mipmaps, renderer.name)
      ensures ok == texture.Some?
      ensures !ok ==> renderer.textures == Released(old(renderer.textures), old(texture)) && textureId == old(textureId)
      ensures ok ==>
                texture.value !in old(renderer.textures) &&
                renderer.textures == Released(old(renderer.textures), old(texture))[texture.value :=
                  Streaming(FrameTexture.FrameSettings(size, ToSdlColorSpace(space, range)), replies.glName, replies.gles2Name)] &&
                textureId == (if mipmaps then FrameTexture.NameFor(replies, renderer.name) else old(textureId))
      ensures renderer.propertySets == old(renderer.propertySets)
      ensures renderer.glLog == old(renderer.glLog) + (if ok && mipmaps then FrameTexture.FilterSetup(textureId) else [])
    {
      if texture.Some? {
        renderer.DestroyTexture(texture.value);
      }
      var created, id := FrameTexture.Create(renderer, mipmaps, size, space, range, replies);
      texture := created;
      if texture.None? {
        return false;
      }
      if mipmaps {
        textureId := id;
      }
      ok := true;
    }

    /**
     * sc_display_update_texture: the frame goes into the current texture
     * and, with mipmaps, the mipmaps are regenerated; the texture is kept.
     */
    method UpdateTexture(frame: Frame, uploaded: bool) returns (ok: bool)
      requires Valid() && texture.Some?
      requires mipmaps ==> textureId != 0
      modifies renderer`uploads, renderer`glLog
      ensures ok == uploaded
      ensures renderer.uploads == old(renderer.uploads) + (if ok then [Upload(texture.value, frame.planes, frame.lineSizes)] else [])
      ensures renderer.glLog == old(renderer.glLog) + (if ok && mipmaps then FrameTexture.MipmapRefresh(textureId) else [])
    {
      ok := renderer.UpdateYuvTexture(texture.value, frame, uploaded);
      if !ok {
        return;
      }
      if mipmaps {
        renderer.Gl(BindTexture(textureId));
        renderer.Gl(GenerateMipmap);
        renderer.Gl(BindTexture(0));
      }
    }

    /**
     * sc_display_set_texture_from_surface: the old texture, if any, is
     * destroyed and replaced by one made from the surface.
     */
    method SetTextureFromSurface(surface: Surface, created: bool) returns (ok: bool)
      requires Valid()
      modifies this`texture, renderer`textures, renderer`next
      ensures Valid()
      ensures ok <==> created
      ensures ok == texture.Some?
      ensures ok ==>
                texture.value !in old(renderer.textures) &&
                renderer.textures == Released(old(renderer.textures), old(texture))[texture.value :=
                  FromSurface(surface.w, surface.h)]
      ensures !ok ==> renderer.textures == Released(old(renderer.textures), old(texture))
    {
      if texture.Some? {
        renderer.DestroyTexture(texture.value);
      }
      texture := renderer.CreateTextureFromSurface(surface, created);
      ok := texture.Some?;
    }
  }
}
