# Texture lifecycle, path building and device size of a screen-mirroring client

This project models four sequential pieces of a screen-mirroring client and
its device-side server. Each piece is written in Dafny, with proofs about it.

- **The texture lifecycle manager** (`sc_texture`) owns the single texture
  the client draws. The texture is either a streaming YV12 texture that
  receives decoded video frames, or a texture made from an icon surface.
  - A frame texture is kept while the frames keep its size.
  - It is destroyed and re-created when there is no texture, when the
    current one is an icon, or when the size changes.
  - With trilinear filtering (mipmaps) enabled, the texture's OpenGL name is
    looked up after creation, and the mipmaps are regenerated after every
    upload.
- **The display** (`sc_display`) is the older variant of the same manager.
  It re-creates the texture on every `prepare_texture` and uploads frames
  with `update_texture`.
- **Path building** (`sc_file_build_path`, `sc_file_get_local_path`) joins a
  directory and a file name with the path separator. It also finds a file
  beside the executable by cutting the executable path at its last
  separator.
- **`SizeInfo`** is the server's mutable record of a rotation, a width and a
  height.

The graphics backend (SDL, plus the OpenGL function table) is the class
`Backend.Renderer`. It keeps:
- the live textures, by handle;
- the live property sets;
- a log of frame uploads;
- a log of GL calls.

Every backend call that can fail takes its outcome as a parameter. This
includes property setting, texture creation, property lookup and upload. The
texture-creation replies are bundled in `FrameTexture.CreateReplies`. The GL
version test `sc_opengl_version_at_least` is the boolean `versionAtLeast`.
The contracts are therefore deterministic: each states what happens for
every combination of backend outcomes.

The colour-space mapping and the frame-texture creation routine are
duplicated in the source, in `texture.c` and in `display.c`. The two copies
are identical apart from the owner's type, so each is defined once here
(`Colorspace.ToSdlColorSpace`, `FrameTexture.Create`) and both owners use it.

`struct sc_size` holds `uint16_t` dimensions, so a frame's or surface's
`int` width and height are converted with C truncation (`Backend.ToU16`).
GL texture names are taken as unsigned 32-bit values (`Backend.U32`), so
the fits-in-32-bits assertion (texture.c:141, display.c:141) is an
assumption of the backend model, listed under "## Left out".

File layout: one module per file.
- `wrappers.dfy`, `colorspace.dfy`, `opengl.dfy`: the shared pieces and the
  pure decisions.
- `backend.dfy`: the abstract renderer.
- `frame_texture.dfy`: frame-texture creation.
- `texture.dfy`: `Textures.Texture`.
- `display.dfy`: `Displays.Display`.
- `file.dfy`: path building.
- `size_info.dfy`: `DeviceSize.SizeInfo`.

## Model

| member | source | states |
|---|---|---|
| Colorspace.ToSdlColorSpace | app/src/texture.c:55-76 | BT709/RGB, BT470BG/SMPTE170M and BT2020 NCL/CL map to the BT709, BT601 and BT2020 families. The result is FULL exactly when the range is JPEG. Every other space maps to JPEG whatever the range. display.c:56-77 is the same mapping. |
| Colorspace.ColorSpaceDeterminedByStandardAndRange | app/src/texture.c:58-75 | The mapping depends only on the recognised standard and on whether the range is JPEG. For unrecognised spaces the range does not matter. |
| OpenGl.StrNEqualIsPrefix | app/src/texture.c:17-18 | `strncmp(name, "opengl", 6) == 0` is exactly the "starts with opengl" test. |
| OpenGl.MipmapsEnabled | app/src/texture.c:15-41 | Mipmaps are on iff all hold: they were requested, the renderer name is known, the name starts with "opengl", and the version check passes. |
| OpenGl.StrNEqual | app/src/texture.c:18 | The definition of `strncmp(a, b, n) == 0` on NUL-free strings: the first n characters agree, a string that ends early reading as its terminator. Its meaning is proved by the two lemmas below. |
| OpenGl.StrEqualIsEquality | app/src/texture.c:129 | `strcmp(a, b) == 0`, which compares up to and including the terminator of `b`, is exactly string equality. |
| OpenGl.IsOpenGlRenderer | app/src/texture.c:18 | The definition of `use_opengl`: the renderer name is known and its first six characters compare equal to "opengl" under `strncmp`. |
| OpenGl.TextureNumberKeyFor | app/src/texture.c:128-131 | Computed with the `strcmp` test, the OpenGL texture-number key is chosen iff the renderer name is absent or exactly "opengl". Otherwise the GLES2 key is chosen. |
| Textures.FrameSize | app/src/texture.c:159 | The definition of `struct sc_size size = {frame->width, frame->height}`: each `int` dimension converted to `uint16_t` by `ToU16`. |
| Backend.ToU16 | app/src/texture.c:159 | The `int` to `uint16_t` conversion keeps values in range unchanged, and is otherwise congruent modulo 2^16. |
| Backend.PropertySet.SetNumberProperty | app/src/texture.c:91-102 | A setting is recorded in the property set only when the call succeeds. The call's result is its success. |
| Backend.Renderer.CreateProperties | app/src/texture.c:83-86 | On success, a fresh empty property set becomes live. On failure there is none and nothing changes. |
| Backend.Renderer.DestroyProperties | app/src/texture.c:106 | The set is no longer live. |
| Backend.Renderer.CreateTextureWithProperties | app/src/texture.c:111-116 | On success, a texture under a never-used handle is live, holding the set's settings and its GL names. On failure the textures are unchanged. |
| Backend.Renderer.CreateTextureFromSurface | app/src/texture.c:216-220 | On success, a texture of the surface's dimensions is live under a never-used handle. On failure the textures are unchanged. |
| Backend.Renderer.GetTextureProperties | app/src/texture.c:121-126 | On success, a fresh property set of the given live texture becomes live. |
| Backend.Renderer.GetNumberProperty | app/src/texture.c:133 | Gives the texture's GL name under the requested key, or 0 for a texture without one. |
| Backend.Renderer.DestroyTexture | app/src/texture.c:170-172 | The handle is no longer live. |
| Backend.Renderer.UpdateYuvTexture | app/src/texture.c:189-196 | The result is the upload's success. A successful upload of the frame's planes is appended to the upload log. |
| Backend.Renderer.Gl | app/src/texture.c:143-150 | The GL call is appended to the GL log. |
| FrameTexture.SettingsAfter | app/src/texture.c:91-102 | When all five settings succeed, the set holds YV12, streaming access, the size and the colour space. |
| FrameTexture.ApplyFormatSettings | app/src/texture.c:91-95 | The format and access calls are both made, each recorded iff it succeeds. |
| FrameTexture.ApplySizeSettings | app/src/texture.c:96-99 | The width and height calls are both made, each recorded iff it succeeds. |
| FrameTexture.ApplyFrameSettings | app/src/texture.c:88-102 | All five calls are made (`&=` does not short-circuit). The result is true iff all succeed. The set holds exactly the successful settings. |
| FrameTexture.CreateStreamingTexture | app/src/texture.c:83-116 | A texture exists iff the properties were created, every setting succeeded and creation succeeded. It holds the frame settings. No property set is left live on any path. It fails with the textures unchanged. |
| FrameTexture.LookUpGlName | app/src/texture.c:121-134 | The GL name is the live texture's number under the key, when its property set can be had. The set is released and nothing else changes. |
| FrameTexture.FilterSetup | app/src/texture.c:143-150 | The definition of the GL calls that enable trilinear filtering: bind the texture, set the trilinear minification filter, set the LOD bias, unbind. |
| FrameTexture.MipmapRefresh | app/src/texture.c:202-204 | The definition of the GL calls that regenerate the mipmaps after an upload: bind the texture, generate the mipmaps, unbind. |
| FrameTexture.Create | app/src/texture.c:78-154 | See the note after this table. |
| Textures.Texture.Init | app/src/texture.c:10-46 | Init always succeeds. After it there is no texture, and the invariant holds. `mipmaps` follows `MipmapsEnabled`. |
| Textures.Texture.Destroy | app/src/texture.c:48-53 | The texture is released only when there is one. Nothing else changes. |
| Textures.Texture.NeedsRecreate | app/src/texture.c:162-165 | The definition of the compatibility test: there is no texture, or its kind is not FRAME, or its stored size differs from the frame's size. |
| Textures.Texture.Prepare | app/src/texture.c:159-184 | See the note after this table. |
| Textures.Texture.Recreate | app/src/texture.c:166-184 | See the note after this table. |
| Textures.Texture.Refresh | app/src/texture.c:186-207 | The result is the upload's success. A successful upload is logged, followed by the mipmap regeneration calls when mipmaps are on (the asserted nonzero texture id is proved from the invariant). The texture is untouched. |
| Textures.Texture.SetFromFrame | app/src/texture.c:156-208 | See the note after this table. |
| Textures.Texture.SetFromSurface | app/src/texture.c:210-227 | See the note after this table. |
| Displays.Display.Init | app/src/display.c:10-47 | Init always succeeds. After it there is no texture. `mipmaps` follows the same decision as in the texture manager. |
| Displays.Display.Destroy | app/src/display.c:49-54 | The texture is released only when there is one. |
| Displays.Display.PrepareTexture | app/src/display.c:156-174 | See the note after this table. |
| Displays.Display.UpdateTexture | app/src/display.c:176-198 | The texture is never replaced. The result is false iff the upload failed. A successful upload is logged, followed by the mipmap regeneration when mipmaps are on. |
| Displays.Display.SetTextureFromSurface | app/src/display.c:200-214 | The old texture, if any, is always destroyed. The result is true iff creation succeeded, with the new surface texture as current; otherwise there is no texture. |
| Files.StrLen | app/src/util/file.c:10-11 | `strlen`: the index of the first NUL. |
| Files.StrLenUnique | app/src/util/file.c:10-11 | Any index holding a NUL with no NUL before it is the string's length. |
| Files.LastIndexOf | app/src/util/file.c:37 | `strrchr`: no result iff the character does not occur. Otherwise the result is an occurrence with none after it. |
| Files.JoinPath | app/src/util/file.c:13-23 | The definition of the path `sc_file_build_path` writes before its NUL: `dir`, the separator, `name`. |
| Files.JoinPathParts | app/src/util/file.c:13-23 | The joined path has length \|dir\| + \|name\| + 1. Its first \|dir\| characters are `dir`, index \|dir\| is the separator, and the rest is `name`. |
| Files.JoinedCStringReadsBack | app/src/util/file.c:20-24 | The built buffer, read as a C string, is exactly the joined path. |
| Files.MemCopy | app/src/util/file.c:20-23 | `memcpy`: the destination range receives the source range. The rest of the destination is unchanged. |
| Files.BuildPath | app/src/util/file.c:8-25 | A failed allocation gives null and no partial result. Otherwise a fresh buffer holds dir, separator, name and NUL. |
| Files.LocalPath | app/src/util/file.c:27-52 | The definition of `sc_file_get_local_path` on strings: no result without an executable path or without a separator in it; otherwise the path up to its last separator (`LastIndexOf`) joined with the name. |
| Files.LocalPathFails | app/src/util/file.c:37-43 | Looking up a file beside the executable fails iff the executable path has no separator. |
| Files.LastSeparatorBeforeName | app/src/util/file.c:37 | Appending a separator-free name after a separator leaves that separator as the last one. |
| Files.LocalPathRoundTrip | app/src/util/file.c:37-47 | If the executable path is `d / b` and `b` has no separator, looking up `b` beside it gives the executable path back. |
| Files.GetLocalPath | app/src/util/file.c:27-52 | See the note after this table. |
| DeviceSize.SizeInfo.constructor | server/src/main/java/com/genymobile/scrcpy/device/SizeInfo.java:34 | The no-argument constructor gives rotation, width and height all 0. |
| DeviceSize.SizeInfo.FromSize | server/src/main/java/com/genymobile/scrcpy/device/SizeInfo.java:36-40 | Stores the rotation and copies the size's width and height. |
| DeviceSize.SizeInfo.GetRotation | server/src/main/java/com/genymobile/scrcpy/device/SizeInfo.java:10-12 | Returns the current rotation and changes nothing. |
| DeviceSize.SizeInfo.SetRotation | server/src/main/java/com/genymobile/scrcpy/device/SizeInfo.java:14-16 | Sets the rotation. Width and height are unchanged. |
| DeviceSize.SizeInfo.GetWidth | server/src/main/java/com/genymobile/scrcpy/device/SizeInfo.java:18-20 | Returns the current width and changes nothing. |
| DeviceSize.SizeInfo.SetWidth | server/src/main/java/com/genymobile/scrcpy/device/SizeInfo.java:22-24 | Sets the width. Rotation and height are unchanged. |
| DeviceSize.SizeInfo.GetHeight | server/src/main/java/com/genymobile/scrcpy/device/SizeInfo.java:26-28 | Returns the current height and changes nothing. |
| DeviceSize.SizeInfo.SetHeight | server/src/main/java/com/genymobile/scrcpy/device/SizeInfo.java:30-32 | Sets the height. Rotation and width are unchanged. |

Notes on the longer rows:

- **FrameTexture.Create** (texture.c:78-154): a texture is returned iff
  creation fully succeeds (`Succeeds`). With mipmaps that includes fetching
  the texture's properties and a nonzero GL name, looked up under the key
  of `TextureNumberKeyFor`.
  - On every failure, no texture and no property set is left live.
  - On success, the texture is new and holds the frame settings. With
    mipmaps, the filter setup is logged for the returned nonzero id.
- **Textures.Texture.Prepare** (texture.c:159-184): recreation happens iff
  there is no texture, the kind is not FRAME, or the size differs. Otherwise
  the handle, the textures and the id are unchanged.
  - A failed recreation leaves no texture. The old handle has already been
    destroyed, and the size and kind are stale.
  - Whenever a texture results, it is a FRAME texture of the frame's size.
  - No SDL property set is left live.
- **Textures.Texture.Recreate** (texture.c:166-184): the old texture, if
  any, is destroyed, and a frame texture is created.
  - Success iff creation succeeds. On success the size is the frame size,
    the kind is FRAME, and the id is the GL name with mipmaps.
  - On failure, no texture, and the size, kind and id are untouched.
  - On every path, no SDL property set is left live.
- **Textures.Texture.SetFromFrame** (texture.c:156-208): it requires a
  nonzero size and keeps the invariant that the size and kind describe the
  live texture. It recreates exactly when there is no texture, the kind is
  not FRAME, or the size differs; the handle is kept otherwise.
  - Once it reaches the upload, a FRAME texture of the frame's size exists.
  - The result is true iff a texture exists and the upload succeeded.
  - The upload log and the GL log are stated in full.
  - No SDL property set is left live.
- **Textures.Texture.SetFromSurface** (texture.c:210-227): it always
  destroys the old texture first.
  - On success, an ICON texture of the surface's dimensions (as `uint16_t`)
    is current and the result is true.
  - On failure, the result is false with no texture.
- **Displays.Display.PrepareTexture** (display.c:156-174): it requires a
  nonzero size and always destroys the old texture before creating.
  - The result is true iff creation succeeded; on failure there is no
    texture.
  - The texture id is written only on the mipmap path, with the texture's
    nonzero GL name.
- **Files.GetLocalPath** (file.c:27-52) fails in three cases: when there is
  no executable path, when that path has no separator, or when the
  allocation fails.
  - Otherwise the result is the executable path cut at its last separator,
    then the separator, the name and NUL.
  - The executable path is cut in place.

## Left out

- The "disconnect" watchdog (app/src/disconnect.c, app/src/disconnect.h) is left out: it is thread, mutex and condition-variable coordination, which a sequential model cannot capture.
- app/src/util/sdl.c (one-line wrappers over SDL window calls) and app/src/icon.h (a foreign image loader) have no logic of their own and are not part of this model.
- SDL, FFmpeg and OpenGL calls are abstract: each one succeeds or fails as its outcome parameter says, and only what the manager relies on is recorded. This covers the settings held by a property set, the live handles, the uploads and the GL calls.
- `sc_opengl_init` and `sc_opengl_version_at_least` are defined in the OpenGL helper, which is not modelled. The version test is the input `versionAtLeast`.
- Backend.Renderer.GetNumberProperty: returns a `U32`, so the assertion that the `int64_t` texture id fits in 32 bits (texture.c:141, display.c:141) is assumed, not proved. With assertions compiled out, the source would silently truncate a larger id when storing it into the `uint32_t` field (texture.c:142, display.c:142).
- The float `-1.f` LOD bias (texture.c:148, display.c:148) is logged as the call `LodBias` without its value, because floating point is not modelled.
- The GL call arguments `GL_TEXTURE_2D` and `GL_LINEAR_MIPMAP_LINEAR` are left out, because they are constant.
- All logging is left out.
- `sc_texture_reset` (texture.h:44-45) is declared but has no body, so it is not modelled.
- `SizeInfo.toJson` is left out, because it is a call into the Gson library.
- coords.h and Size.java are not part of this model. `struct sc_size` is taken as two `uint16_t` values, as its `PRIu16` log format indicates. Size is a pair of Java ints.
- `SC_PATH_SEPARATOR` is taken as '/', its value on non-Windows builds. util/file.h is not part of this model.
- `sc_file_get_executable_path` is the input `executable`, which is null when it fails. `malloc` is the input `mallocOk`.
- `free` is left out. Dafny memory is not freed explicitly, so the release of the executable path (file.c:41, file.c:49) is not modelled.
- Files.BuildPath: `size_t` overflow of `dir_len + name_len + 2` is not modelled, because lengths are unbounded integers.
- Displays.Display.UpdateTexture: the nonzero texture id asserted with mipmaps (display.c:189) is a precondition here, not a proved fact. A display can hold a surface texture made by `set_texture_from_surface` before any frame texture, and then no id has been set.
- The `struct sc_opengl` function table that both init functions fill in is not modelled, because the GL calls are abstract.
