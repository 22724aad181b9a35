/**
 * Surfaces (surface.go, with Palette.SetColors from pixels.go): the pixel
 * view over a surface's native buffer, the RLE lock test, and
 * CreateRGBSurfaceFromImage, which picks a surface format by image kind,
 * copies the pixel bytes in and, for a paletted image, builds the palette.
 */
module Surfaces {
  import opened Base

  /** sdl.Color, four bytes as SDL_Color lays them out. */
  datatype Color = Color(R: uint8, G: uint8, B: uint8, A: uint8)

  /** SDL_RLEACCEL in SDL_surface.h. */
  const SDL_RLEACCEL: bv32 := 0x0000_0002

  /** A Go slice header: where the data starts, its length and its capacity. */
  datatype SliceHeader = SliceHeader(data: array?<byte>, len: int, cap: int)

  /** A native palette: the colours SDL holds for an 8-bit surface. */
  class Palette {
    var colors: seq<Color>

    constructor(colors: seq<Color>)
      ensures this.colors == colors
    {
      this.colors := colors;
    }

    /**
     * SetColors: hand all of `colors` to SDL_SetPaletteColors from index 0;
     * `status` is what the native call returns. A non-zero status becomes
     * an SDLError carrying it. SDL's own clamping when a status is non-zero
     * is not modelled: the palette is then left as it was.
     */
    method SetColors(colors: seq<Color>, status: int32, lastError: string) returns (err: Option<Error>)
      modifies this
      ensures status == 0 ==> err == None && this.colors == Stored(old(this.colors), colors)
      ensures status != 0 ==> err == Some(SDLError(lastError, status)) && this.colors == old(this.colors)
    {
      if status != 0 {
        return Some(SDLError(lastError, status));
      }
      this.colors := Stored(this.colors, colors);
      return None;
    }
  }

  /**
   * The palette after `colors` is written from index 0: the new colours, then
   * the old tail. SDL_SetPaletteColors refuses more colours than the palette
   * holds with a non-zero status, so under a faithful status the longer
   * branch is never reached.
   */
  function Stored(old_colors: seq<Color>, colors: seq<Color>): (r: seq<Color>)
    ensures |r| == if |colors| <= |old_colors| then |old_colors| else |colors|
    ensures r[..|colors|] == colors
    ensures |colors| <= |old_colors| ==> r[|colors|..] == old_colors[|colors|..]
  {
    if |colors| <= |old_colors| then colors + old_colors[|colors|..] else colors
  }

  class Surface {
    var flags: uint32
    var W: int32
    var H: int32
    var Pitch: int32
    /** Format.Palette; nil for surfaces without one. */
    var palette: Palette?
    /** The native pixel memory; null stands for a nil `pixels` pointer. */
    var pixels: array?<byte>

    constructor(flags: uint32, w: int32, h: int32, pitch: int32, palette: Palette?, pixels: array?<byte>)
      ensures this.flags == flags && W == w && H == h && Pitch == pitch
      ensures this.palette == palette && this.pixels == pixels
    {
      this.flags := flags;
      W := w;
      H := h;
      Pitch := pitch;
      this.palette := palette;
      this.pixels := pixels;
    }

    /** How SDL allocates a surface: H rows of Pitch bytes, a size that fits in an int. */
    predicate Valid()
      reads this
    {
      pixels != null ==> 0 <= H as int * Pitch as int < 0x8000_0000 && pixels.Length == H as int * Pitch as int
    }

    /** What Pixels and the image copy may change: the pixel memory and the palette. */
    function Footprint(): set<object>
      reads this
    {
      (if pixels == null then {} else {pixels}) + (if palette == null then {} else {palette})
    }

    /**
     * Pixels, as the slice header it builds: empty for a nil pointer,
     * otherwise the pixel memory with length the int32 product H*Pitch and
     * capacity equal to the length.
     */
    function Pixels(): (h: SliceHeader)
      reads this
      ensures pixels == null ==> h.len == 0 && h.cap == 0
      ensures pixels != null ==> h.data == pixels && h.cap == h.len
      ensures pixels != null ==> (h.len - H as int * Pitch as int) % 0x1_0000_0000 == 0
      ensures pixels != null && -0x8000_0000 <= H as int * Pitch as int < 0x8000_0000 ==>
        h.len == H as int * Pitch as int
    {
      if pixels == null then SliceHeader(null, 0, 0)
      else
        var n := WrapInt32(H as int * Pitch as int);
        SliceHeader(pixels, n, n)
    }

    /** MustLock: the RLEACCEL bit, bit 1 of the flags. */
    function MustLock(): (b: bool)
      reads this
      ensures b <==> (flags / 2) % 2 == 1
    {
      RleBit(flags);
      (flags as bv32) & SDL_RLEACCEL != 0
    }

    /**
     * copy(surf.Pixels(), src): as many bytes as both hold, from the start
     * of the view; the rest of the pixel memory is left alone.
     */
    method CopyPixels(src: seq<byte>) returns (n: int)
      requires Valid()
      modifies pixels
      ensures pixels == null ==> n == 0
      ensures pixels != null ==> n == Min(pixels.Length, |src|)
      ensures pixels != null ==> pixels[..] == Copied(old(pixels[..]), src)
    {
      if pixels == null {
        return 0;
      }
      var view := Pixels();
      n := Min(view.len, |src|);
      var i := 0;
      while i < n
        invariant 0 <= i <= n
        invariant pixels[..i] == src[..i]
        invariant pixels[i..] == old(pixels[i..])
      {
        pixels[i] := src[i];
        i := i + 1;
        assert pixels[..i] == pixels[..i - 1] + [src[i - 1]];
        assert src[..i] == src[..i - 1] + [src[i - 1]];
      }
      assert pixels[..] == pixels[..n] + pixels[n..];
    }
  }

  function Min(a: int, b: int): int
  {
    if a <= b then a else b
  }

  /** The memory after Go's copy(dst, src): a prefix of `src`, then what `dst` held. */
  function Copied(dst: seq<byte>, src: seq<byte>): (r: seq<byte>)
    ensures |r| == |dst|
    ensures r[..Min(|dst|, |src|)] == src[..Min(|dst|, |src|)]
    ensures r[Min(|dst|, |src|)..] == dst[Min(|dst|, |src|)..]
  {
    var n := Min(|dst|, |src|);
    src[..n] + dst[n..]
  }

  /** The low bit of a bit-vector and-mask, read arithmetically. */
  lemma RleBit(flags: uint32)
    ensures ((flags as bv32) & SDL_RLEACCEL != 0) <==> (flags / 2) % 2 == 1
  {
    var v := flags as bv32;
    assert (v & 2 != 0) <==> ((v >> 1) & 1 == 1);
    assert ((v >> 1) & 1) as int == (flags / 2) % 2;
  }

  // ---- CreateRGBSurfaceFromImage ------------------------------------------

  /** image.Rectangle, reduced to its extent. */
  datatype Bounds = Bounds(dx: nat, dy: nat)

  /**
   * A colour of an image palette. For the two kinds the Go side converts
   * through image/color, the constructor carries the R, G and B the
   * library's conversion gives.
   */
  datatype ImageColor =
    | NRGBAColor(R: uint8, G: uint8, B: uint8, A: uint8)
    | NRGBA64Color(nR: uint8, nG: uint8, nB: uint8)
    | RGBAColor(R: uint8, G: uint8, B: uint8, A: uint8)
    | OtherColor(cR: uint8, cG: uint8, cB: uint8)

  /**
   * The image kinds the dispatch tells apart. `drawn` is what draw.Draw
   * leaves in a fresh NRGBA image of the same bounds.
   */
  datatype Image =
    | NRGBA(bounds: Bounds, pix: seq<byte>)
    | RGBA(bounds: Bounds, pix: seq<byte>, drawn: seq<byte>)
    | RGBA64(bounds: Bounds, pix: seq<byte>, drawn: seq<byte>)
    | NRGBA64(bounds: Bounds, pix: seq<byte>, drawn: seq<byte>)
    | Paletted(bounds: Bounds, pix: seq<byte>, palette: seq<ImageColor>)
    | OtherImage(typeName: string)

  /** The arguments CreateRGBSurfaceFromImage passes to CreateRGBSurface. */
  datatype SurfaceRequest = SurfaceRequest(width: int, height: int, depth: int,
                                           rmask: uint32, gmask: uint32, bmask: uint32, amask: uint32)

  /** The surface format chosen for each image kind; none for an unknown kind. */
  function Requested(img: Image): (r: Option<SurfaceRequest>)
    ensures r.None? <==> img.OtherImage?
    ensures r.Some? ==> r.value.width == img.bounds.dx && r.value.height == img.bounds.dy
    ensures r.Some? && !img.Paletted? ==>
      r.value.depth == 32 && (r.value.rmask, r.value.gmask, r.value.bmask, r.value.amask) ==
      (0x0000_00FF, 0x0000_FF00, 0x00FF_0000, 0xFF00_0000)
    ensures img.Paletted? ==>
      r.value.depth == 8 && r.value.rmask == r.value.gmask == r.value.bmask == r.value.amask == 0
  {
    match img
    case OtherImage(_) => None
    case Paletted(b, _, _) => Some(SurfaceRequest(b.dx, b.dy, 8, 0, 0, 0, 0))
    case _ => Some(SurfaceRequest(img.bounds.dx, img.bounds.dy, 32, 0xFF, 0xFF00, 0xFF_0000, 0xFF00_0000))
  }

  function Zeros(n: nat): (z: seq<byte>)
    ensures |z| == n && forall i :: 0 <= i < n ==> z[i] == 0
  {
    seq(n, _ => 0)
  }

  /**
   * The bytes copied into the new surface, as written: NRGBA and paletted
   * images give their own Pix, RGBA and RGBA64 the drawn NRGBA copy, and
   * NRGBA64 the fresh, all-zero NRGBA buffer, because the inner type switch
   * names *image.NRGBA where *image.NRGBA64 was meant.
   */
  function Staged(img: Image): (p: seq<byte>)
    requires !img.OtherImage?
    ensures img.NRGBA64? ==> p == Zeros(4 * img.bounds.dx * img.bounds.dy)
    ensures !img.NRGBA64? ==> p == Reference(img)
  {
    match img
    case NRGBA(_, pix) => pix
    case RGBA(_, _, drawn) => drawn
    case RGBA64(_, _, drawn) => drawn
    case NRGBA64(b, _, _) => Zeros(4 * b.dx * b.dy)
    case Paletted(_, pix, _) => pix
  }

  /** What the documentation promises: a 32-bit image's pixels in non-premultiplied RGBA. */
  function Reference(img: Image): seq<byte>
    requires !img.OtherImage?
  {
    if img.NRGBA? || img.Paletted? then img.pix else img.drawn
  }

  /** An NRGBA64 image whose drawn copy has any lit byte still lands as blank pixels. */
  lemma NRGBA64Blank(b: Bounds, pix: seq<byte>, drawn: seq<byte>, k: nat)
    requires k < |drawn| && drawn[k] != 0
    ensures Staged(NRGBA64(b, pix, drawn)) != Reference(NRGBA64(b, pix, drawn))
  {
  }

  /**
   * The conversion with the missing case restored. It follows the type
   * switch case by case; that it coincides with Reference, the documented
   * promise, is what its contract proves.
   */
  function StagedFixed(img: Image): (p: seq<byte>)
    requires !img.OtherImage?
    ensures p == Reference(img)
  {
    match img
    case NRGBA(_, pix) => pix
    case RGBA(_, _, drawn) => drawn
    case RGBA64(_, _, drawn) => drawn
    case NRGBA64(_, _, drawn) => drawn
    case Paletted(_, pix, _) => pix
  }

  /**
   * One palette entry as the loop stores it: R, G and B copied (NRGBA and
   * RGBA) or taken from the library conversion, and A left at the zero it
   * started with.
   */
  function PaletteColor(c: ImageColor): (col: Color)
    ensures col.A == 0
    ensures (c.NRGBAColor? || c.RGBAColor?) ==> (col.R, col.G, col.B) == (c.R, c.G, c.B)
  {
    match c
    case NRGBAColor(r, g, b, _) => Color(r, g, b, 0)
    case NRGBA64Color(r, g, b) => Color(r, g, b, 0)
    case RGBAColor(r, g, b, _) => Color(r, g, b, 0)
    case OtherColor(r, g, b) => Color(r, g, b, 0)
  }

  /** The palette loop: one colour per image palette entry, in order. */
  method PaletteColors(palette: seq<ImageColor>) returns (colors: seq<Color>)
    ensures colors == PaletteOf(palette)
  {
    colors := [];
    var col := Color(0, 0, 0, 0);
    for k := 0 to |palette|
      invariant |colors| == k && col.A == 0
      invariant forall i :: 0 <= i < k ==> colors[i] == PaletteColor(palette[i])
    {
      var c := palette[k];
      match c {
        case NRGBAColor(r, g, b, _) =>
          col := col.(R := r, G := g, B := b);
        case NRGBA64Color(r, g, b) =>
          col := col.(R := r, G := g, B := b);
        case RGBAColor(r, g, b, _) =>
          col := col.(R := r, G := g, B := b);
        case OtherColor(r, g, b) =>
          col := col.(R := r, G := g, B := b);
      }
      colors := colors + [col];
    }
  }

  /** fmt's %T for the image, as the error message prints it. */
  function UnknownImage(img: Image): Error
    requires img.OtherImage?
  {
    Errorf("unknown image type: " + img.typeName)
  }

  /**
   * CreateRGBSurfaceFromImage. `asked` is the CreateRGBSurface call it
   * makes, `created` what SDL_CreateRGBSurface returned for it (null on
   * failure), `status` what
   * SDL_SetPaletteColors returns, and `lastError` the text SDL_GetError
   * gives. The pixel bytes are Staged(img), copied over the view.
   */
  method CreateRGBSurfaceFromImage(img: Image, created: Surface?, status: int32, lastError: string)
      returns (asked: Option<SurfaceRequest>, surf: Surface?, err: Option<Error>)
    requires created != null ==> created.Valid()
    requires created != null && img.Paletted? ==> created.palette != null
    modifies if created == null then {} else created.Footprint()
    ensures asked == Requested(img)
    ensures img.OtherImage? ==> surf == null && err == Some(UnknownImage(img))
    ensures !img.OtherImage? && created == null ==> surf == null && err == Some(SDLError(lastError, 0))
    ensures !img.OtherImage? && created != null && created.pixels != null ==>
      created.pixels[..] == Copied(old(created.pixels[..]), Staged(img))
    ensures !img.OtherImage? && created != null && img.Paletted? ==>
      if status == 0 then
        surf == created && err == None &&
        created.palette.colors == Stored(old(created.palette.colors), PaletteOf(img.palette))
      else
        surf == null && err == Some(SDLError(lastError, status))
    ensures !img.OtherImage? && created != null && !img.Paletted? ==> surf == created && err == None
    ensures img.OtherImage? && created != null && created.pixels != null ==>
      created.pixels[..] == old(created.pixels[..])
    ensures created != null && created.palette != null && (!img.Paletted? || status != 0) ==>
      created.palette.colors == old(created.palette.colors)
  {
    asked := Requested(img);
    if img.OtherImage? {
      return asked, null, Some(UnknownImage(img));
    }
    if created == null {
      return asked, null, Some(SDLError(lastError, 0));
    }
    var _ := created.CopyPixels(Staged(img));
    if img.Paletted? {
      var colors := PaletteColors(img.palette);
      err := created.palette.SetColors(colors, status, lastError);
      if err.Some? {
        return asked, null, err;
      }
    }
    return asked, created, None;
  }

  /** The colours the palette loop produces, as a sequence. */
  function PaletteOf(palette: seq<ImageColor>): (colors: seq<Color>)
    ensures |colors| == |palette|
    ensures forall i :: 0 <= i < |palette| ==> colors[i] == PaletteColor(palette[i])
  {
    seq(|palette|, i requires 0 <= i < |palette| => PaletteColor(palette[i]))
  }
}
