/**
 * The older in-tree texture wrapper (src/gl_wrapper/texture.rs): two
 * formats only, and RGBA8 storage whatever the format. Its `Texture2d`,
 * `bind` and `TexStorage` are textually the same as the crate's and are the
 * ones in module Texture.
 */
module LegacyTexture {
  import opened Gl
  import GlState
  import Texture

  datatype TextureFormat = Rgb | Rgba

  function ExpectedLen(format: TextureFormat, width: nat, height: nat): nat {
    match format
    case Rgb => width * height * 3
    case Rgba => width * height * 4
  }

  /** `From<TextureFormat> for GLenum`. */
  function UploadFormat(format: TextureFormat): (e: nat)
    ensures e == RGB <==> format == Rgb
    ensures e == RGBA <==> format == Rgba
  {
    match format
    case Rgb => RGB
    case Rgba => RGBA
  }

  /** The same format in the crate's four-format enum. */
  function Widen(format: TextureFormat): Texture.TextureFormat {
    match format
    case Rgb => Texture.Rgb
    case Rgba => Texture.Rgba
  }

  /** The commands of this `Texture2d::new`: storage is always RGBA8. */
  function NewTrace(width: u32, height: u32, dataLen: nat, format: TextureFormat, sample: Texture.SampleType, id: Name)
    : seq<Cmd>
  {
    var expected := ExpectedLen(format, width, height);
    if dataLen != expected then [Panic(LengthMismatch(dataLen, expected))]
    else [GenTexture(id), BindTexture(id),
          TexStorage2D(1, RGBA8, AsI32(width), AsI32(height)),
          TexSubImage2D(AsI32(width), AsI32(height), UploadFormat(format), Texture.GlType(sample), dataLen)]
  }

  /** This `Texture2d::new`: a texture exactly when the length matches; None when it panicked. */
  function New(width: u32, height: u32, dataLen: nat, format: TextureFormat, sample: Texture.SampleType, id: Name)
    : (r: Option<Texture.Texture2d>)
    requires width * height * 4 < U32_LIMIT
    ensures r.Some? <==> dataLen == ExpectedLen(format, width, height)
    ensures r.Some? ==> r.value.texId == id
    ensures r.None? <==> Aborted(NewTrace(width, height, dataLen, format, sample, id))
  {
    if dataLen == ExpectedLen(format, width, height) then Some(Texture.Texture2d(id)) else None
  }

  /**
   * The older constructor issues exactly the commands of the crate's for the
   * two formats both know: the crate also stores Rgb and Rgba as RGBA8 and
   * checks the same lengths.
   */
  lemma AgreesWithCrate(width: u32, height: u32, dataLen: nat, format: TextureFormat, sample: Texture.SampleType, id: Name)
    ensures ExpectedLen(format, width, height) == Texture.ExpectedLen(Widen(format), width, height)
    ensures UploadFormat(format) == Texture.UploadFormat(Widen(format))
    ensures NewTrace(width, height, dataLen, format, sample, id)
         == Texture.NewTrace(width, height, dataLen, Widen(format), sample, id)
  {
  }

  /** Whatever the format, a created texture's storage is RGBA8 of the requested size. */
  lemma StorageAlwaysRgba8(s: GlState.State, width: u32, height: u32, dataLen: nat, format: TextureFormat,
                           sample: Texture.SampleType, id: Name)
    requires !s.aborted && dataLen == ExpectedLen(format, width, height)
    ensures var e := GlState.Run(s, NewTrace(width, height, dataLen, format, sample, id));
            id in e.storage && e.storage[id] == GlState.Storage(RGBA8, AsI32(width), AsI32(height))
  {
    AgreesWithCrate(width, height, dataLen, format, sample, id);
    Texture.NewEffect(s, width, height, dataLen, Widen(format), sample, id);
  }
}
