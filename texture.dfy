/**
 * Immutable 2D textures (gl_wrapper/src/texture.rs): the data length a
 * format and size demand, the storage and upload formats chosen for each
 * format, and the binding of a texture to a texture unit.
 */
module Texture {
  import opened Gl
  import GlState

  datatype TextureFormat = Rgb | Rgba | Srgba | R8

  /** The element types implementing `TexStorage`. */
  datatype SampleType = F32 | U8

  /** `TexStorage::gl_type`: f32 data is uploaded as FLOAT, u8 data as UNSIGNED_BYTE. */
  function GlType(s: SampleType): (e: nat)
    ensures e == FLOAT <==> s == F32
    ensures e == UNSIGNED_BYTE <==> s == U8
  {
    match s
    case F32 => FLOAT
    case U8 => UNSIGNED_BYTE
  }

  /** Number of data elements the constructor demands for a `width` by `height` image. */
  function ExpectedLen(format: TextureFormat, width: nat, height: nat): nat {
    match format
    case Rgb => width * height * 3
    case Rgba | Srgba => width * height * 4
    case R8 => width * height
  }

  /** The sized internal format of the texture's storage. */
  function InternalFormat(format: TextureFormat): (e: nat)
    ensures e == RGBA8 <==> format == Rgb || format == Rgba
    ensures e == SRGB_ALPHA <==> format == Srgba
    ensures e == Gl.R8 <==> format == TextureFormat.R8
  {
    match format
    case Rgb | Rgba => RGBA8
    case Srgba => SRGB_ALPHA
    case R8 => Gl.R8
  }

  /** `From<TextureFormat> for GLenum`: the layout of the uploaded pixels. */
  function UploadFormat(format: TextureFormat): (e: nat)
    ensures e == RGB <==> format == Rgb
    ensures e == RGBA <==> format == Rgba || format == Srgba
    ensures e == RED <==> format == TextureFormat.R8
  {
    match format
    case Rgb => RGB
    case Rgba | Srgba => RGBA
    case R8 => RED
  }

  /** Components per pixel of an upload format, as glTexSubImage2D reads them. */
  function Channels(uploadFormat: nat): nat {
    if uploadFormat == RGB then 3
    else if uploadFormat == RGBA then 4
    else if uploadFormat == RED then 1
    else 0
  }

  /**
   * The length check matches the upload: the data holds exactly one element
   * per component of every pixel in the format it is uploaded as.
   */
  lemma ExpectedLenMatchesUpload(format: TextureFormat, width: nat, height: nat)
    ensures ExpectedLen(format, width, height) == Channels(UploadFormat(format)) * (width * height)
    ensures Channels(UploadFormat(format)) > 0
  {
  }

  datatype Texture2d = Texture2d(texId: Name)

  /**
   * The commands of `Texture2d::new` for `dataLen` elements of type
   * `sample`; a wrong length fails the assertion before any GL call.
   */
  function NewTrace(width: u32, height: u32, dataLen: nat, format: TextureFormat, sample: SampleType, id: Name)
    : seq<Cmd>
  {
    var expected := ExpectedLen(format, width, height);
    if dataLen != expected then [Panic(LengthMismatch(dataLen, expected))]
    else [GenTexture(id), BindTexture(id),
          TexStorage2D(1, InternalFormat(format), AsI32(width), AsI32(height)),
          TexSubImage2D(AsI32(width), AsI32(height), UploadFormat(format), GlType(sample), dataLen)]
  }

  /** `Texture2d::new`: a texture exactly when the data length is the expected one; None when it panicked. */
  function New(width: u32, height: u32, dataLen: nat, format: TextureFormat, sample: SampleType, id: Name)
    : (r: Option<Texture2d>)
    requires width * height * 4 < U32_LIMIT
    ensures r.Some? <==> dataLen == ExpectedLen(format, width, height)
    ensures r.Some? ==> r.value.texId == id
    ensures r.None? <==> Aborted(NewTrace(width, height, dataLen, format, sample, id))
    ensures r.None? ==>
              NewTrace(width, height, dataLen, format, sample, id)
              == [Panic(LengthMismatch(dataLen, ExpectedLen(format, width, height)))]
  {
    if dataLen == ExpectedLen(format, width, height) then Some(Texture2d(id)) else None
  }

  /**
   * A texture that is created has level-0 storage of the chosen internal
   * format and the requested size, and is left bound on the active unit.
   */
  lemma NewEffect(s: GlState.State, width: u32, height: u32, dataLen: nat, format: TextureFormat,
                  sample: SampleType, id: Name)
    requires !s.aborted && dataLen == ExpectedLen(format, width, height)
    ensures var e := GlState.Run(s, NewTrace(width, height, dataLen, format, sample, id));
            && id in e.storage
            && e.storage[id] == GlState.Storage(InternalFormat(format), AsI32(width), AsI32(height))
            && GlState.BoundTexture(e) == id
            && e.framebuffer == s.framebuffer
            && !e.aborted
  {
    var t := NewTrace(width, height, dataLen, format, sample, id);
    assert t == [t[0], t[1]] + [t[2], t[3]];
    GlState.RunAppend(s, [t[0], t[1]], [t[2], t[3]]);
    GlState.RunTwo(s, t[0], t[1]);
    var s2 := GlState.Step(GlState.Step(s, t[0]), t[1]);
    assert GlState.BoundTexture(s2) == id;
    GlState.RunTwo(s2, t[2], t[3]);
  }

  /** `bind`: select unit TEXTURE0 + `unit`, then bind the texture there. */
  function Bind(t: Texture2d, unit: u8): seq<Cmd> {
    [ActiveTexture(TEXTURE0 + unit), BindTexture(t.texId)]
  }

  /** After `bind(u)` unit TEXTURE0 + u samples this texture and no storage changed. */
  lemma BindEffect(s: GlState.State, t: Texture2d, unit: u8)
    requires !s.aborted
    ensures var e := GlState.Run(s, Bind(t, unit));
            e.activeTexture == TEXTURE0 + unit && GlState.BoundTexture(e) == t.texId
            && e.storage == s.storage && e.framebuffer == s.framebuffer && !e.aborted
  {
    GlState.RunTwo(s, ActiveTexture(TEXTURE0 + unit), BindTexture(t.texId));
  }
}
