/**
 * The ttf package (ttf/ttf.go): a Font wraps a possibly nil TTF_Font
 * handle. Every method checks the handle first and answers InvalidFont
 * without calling SDL_ttf when it is nil; otherwise it makes exactly one
 * native call and converts its result.
 */
module Ttf {
  import opened Base

  /** The native library: the SDL_ttf entry points called so far, and SDL_GetError's text. */
  class Library {
    var calls: seq<string>
    const lastError: string

    constructor(lastError: string)
      ensures calls == [] && this.lastError == lastError
    {
      calls := [];
      this.lastError := lastError;
    }

    method Call(name: string)
      modifies this
      ensures calls == old(calls) + [name]
    {
      calls := calls + [name];
    }
  }

  /**
   * A TTF_Font: the settings the setters change, and the facts the getters
   * read. `open` is false once TTF_CloseFont has released it.
   */
  class NativeFont {
    var style: int32
    var outline: int32
    var hinting: int32
    var kerning: int32
    var open: bool
    const height: int32
    const ascent: int32
    const descent: int32
    const lineSkip: int32
    const faces: int32
    const fixedWidth: int32
    const familyName: string
    const styleName: string

    constructor(height: int32, ascent: int32, descent: int32, lineSkip: int32, faces: int32,
                fixedWidth: int32, familyName: string, styleName: string)
      ensures open && style == 0 && outline == 0 && hinting == 0 && kerning == 1
      ensures this.height == height && this.ascent == ascent && this.descent == descent
      ensures this.lineSkip == lineSkip && this.faces == faces && this.fixedWidth == fixedWidth
      ensures this.familyName == familyName && this.styleName == styleName
    {
      style, outline, hinting, kerning, open := 0, 0, 0, 1, true;
      this.height, this.ascent, this.descent, this.lineSkip := height, ascent, descent, lineSkip;
      this.faces, this.fixedWidth := faces, fixedWidth;
      this.familyName, this.styleName := familyName, styleName;
    }
  }

  /** C.int(x) for a Go int: the low 32 bits, as a signed value. */
  function CInt(x: int): (r: int32)
    ensures -0x8000_0000 <= x < 0x8000_0000 ==> r == x
    ensures (r - x) % 0x1_0000_0000 == 0
  {
    WrapInt32(x)
  }

  /** How the Go side reads a native int as a flag: zero is false, anything else true. */
  function CBool(i: int32): (b: bool)
  {
    i != 0
  }

  /** What SetKerning passes for a flag: 1 for true, 0 for false. */
  function KerningArg(allowed: bool): (i: int32)
    ensures i == 0 || i == 1
  {
    if allowed then 1 else 0
  }

  /** A flag survives SetKerning then GetKerning; a native value survives the other way iff it is 0 or 1. */
  lemma KerningRoundTrip(allowed: bool, i: int32)
    ensures CBool(KerningArg(allowed)) == allowed
    ensures KerningArg(CBool(i)) == i <==> i == 0 || i == 1
  {
  }

  /** A setting read back through C.int: unchanged exactly when it fits in an int32. */
  lemma SettingRoundTrip(x: int)
    ensures CInt(x) == x <==> -0x8000_0000 <= x < 0x8000_0000
  {
  }

  /** What TTF_GlyphMetrics reports: its status and the five values it writes. */
  datatype GlyphResult = GlyphResult(status: int32, minx: int32, maxx: int32, miny: int32, maxy: int32, advance: int32)

  /** What TTF_SizeUTF8 reports: its status and the width and height it writes. */
  datatype SizeResult = SizeResult(status: int32, w: int32, h: int32)

  /** The sdlError of the ttf package: SDL's message and the code. */
  function SdlError(lib: Library, i: int): Error
    reads lib
  {
    SDLError(lib.lastError, i)
  }

  /** The result of a native call that returns a surface pointer: nil becomes SDLError 0. */
  function RenderResult(lib: Library, s: Ptr): (r: (Ptr, Option<Error>))
    reads lib
    ensures s.Nil? ==> r == (Nil, Some(SDLError(lib.lastError, 0)))
    ensures s.Addr? ==> r == (s, None)
  {
    if s.Nil? then (Nil, Some(SdlError(lib, 0))) else (s, None)
  }

  /** OpenFont: a null TTF_OpenFont result gives the zero Font and SDLError 0. */
  method OpenFont(file: string, ptsize: int, lib: Library, native: NativeFont?) returns (f: Font, err: Option<Error>)
    modifies lib
    ensures lib.calls == old(lib.calls) + ["TTF_OpenFont"]
    ensures native == null ==> f.font == null && err == Some(SDLError(lib.lastError, 0))
    ensures native != null ==> f.font == native && err == None
  {
    lib.Call("TTF_OpenFont");
    if native == null {
      f := new Font(null);
      return f, Some(SdlError(lib, 0));
    }
    f := new Font(native);
    return f, None;
  }

  /** OpenFontIndex: the same, for a face index. */
  method OpenFontIndex(file: string, ptsize: int, index: int, lib: Library, native: NativeFont?)
      returns (f: Font, err: Option<Error>)
    modifies lib
    ensures lib.calls == old(lib.calls) + ["TTF_OpenFontIndex"]
    ensures native == null ==> f.font == null && err == Some(SDLError(lib.lastError, 0))
    ensures native != null ==> f.font == native && err == None
  {
    lib.Call("TTF_OpenFontIndex");
    if native == null {
      f := new Font(null);
      return f, Some(SdlError(lib, 0));
    }
    f := new Font(native);
    return f, None;
  }

  /**
   * ttf.Font. The handle is a const: Go methods take the Font by value, so
   * nothing a method does (Close included) changes the caller's handle.
   */
  class Font {
    const font: NativeFont?

    constructor(font: NativeFont?)
      ensures this.font == font
    {
      this.font := font;
    }

    /** The handle is nil or names a font that has not been closed. */
    predicate Usable()
      reads this, font
    {
      font != null ==> font.open
    }

    /** The native call log grew by `name` iff the handle is not nil. */
    twostate predicate Guarded(lib: Library, name: string)
      reads lib
    {
      lib.calls == old(lib.calls) + (if font == null then [] else [name])
    }

    method GetStyle(lib: Library) returns (style: int, err: Option<Error>)
      requires Usable()
      modifies lib
      ensures Guarded(lib, "TTF_GetFontStyle")
      ensures font == null ==> style == 0 && err == Some(InvalidFont)
      ensures font != null ==> style == font.style && err == None
    {
      if font == null {
        return 0, Some(InvalidFont);
      }
      lib.Call("TTF_GetFontStyle");
      return font.style, None;
    }

    method SetStyle(style: int, lib: Library) returns (err: Option<Error>)
      requires Usable()
      modifies lib, font
      ensures Guarded(lib, "TTF_SetFontStyle")
      ensures font == null ==> err == Some(InvalidFont)
      ensures font != null ==> (err == None && font.style == CInt(style) &&
        font.outline == old(font.outline) && font.hinting == old(font.hinting) &&
        font.kerning == old(font.kerning) && font.open)
    {
      if font == null {
        return Some(InvalidFont);
      }
      lib.Call("TTF_SetFontStyle");
      font.style := CInt(style);
      return None;
    }

    method GetOutline(lib: Library) returns (outline: int, err: Option<Error>)
      requires Usable()
      modifies lib
      ensures Guarded(lib, "TTF_GetFontOutline")
      ensures font == null ==> outline == 0 && err == Some(InvalidFont)
      ensures font != null ==> outline == font.outline && err == None
    {
      if font == null {
        return 0, Some(InvalidFont);
      }
      lib.Call("TTF_GetFontOutline");
      return font.outline, None;
    }

    method SetOutline(outline: int, lib: Library) returns (err: Option<Error>)
      requires Usable()
      modifies lib, font
      ensures Guarded(lib, "TTF_SetFontOutline")
      ensures font == null ==> err == Some(InvalidFont)
      ensures font != null ==> (err == None && font.outline == CInt(outline) &&
        font.style == old(font.style) && font.hinting == old(font.hinting) &&
        font.kerning == old(font.kerning) && font.open)
    {
      if font == null {
        return Some(InvalidFont);
      }
      lib.Call("TTF_SetFontOutline");
      font.outline := CInt(outline);
      return None;
    }

    method GetHinting(lib: Library) returns (hinting: int, err: Option<Error>)
      requires Usable()
      modifies lib
      ensures Guarded(lib, "TTF_GetFontHinting")
      ensures font == null ==> hinting == 0 && err == Some(InvalidFont)
      ensures font != null ==> hinting == font.hinting && err == None
    {
      if font == null {
        return 0, Some(InvalidFont);
      }
      lib.Call("TTF_GetFontHinting");
      return font.hinting, None;
    }

    method SetHinting(hinting: int, lib: Library) returns (err: Option<Error>)
      requires Usable()
      modifies lib, font
      ensures Guarded(lib, "TTF_SetFontHinting")
      ensures font == null ==> err == Some(InvalidFont)
      ensures font != null ==> (err == None && font.hinting == CInt(hinting) &&
        font.style == old(font.style) && font.outline == old(font.outline) &&
        font.kerning == old(font.kerning) && font.open)
    {
      if font == null {
        return Some(InvalidFont);
      }
      lib.Call("TTF_SetFontHinting");
      font.hinting := CInt(hinting);
      return None;
    }

    method Height(lib: Library) returns (h: int, err: Option<Error>)
      requires Usable()
      modifies lib
      ensures Guarded(lib, "TTF_FontHeight")
      ensures font == null ==> h == 0 && err == Some(InvalidFont)
      ensures font != null ==> h == font.height && err == None
    {
      if font == null {
        return 0, Some(InvalidFont);
      }
      lib.Call("TTF_FontHeight");
      return font.height, None;
    }

    method Ascent(lib: Library) returns (a: int, err: Option<Error>)
      requires Usable()
      modifies lib
      ensures Guarded(lib, "TTF_FontAscent")
      ensures font == null ==> a == 0 && err == Some(InvalidFont)
      ensures font != null ==> a == font.ascent && err == None
    {
      if font == null {
        return 0, Some(InvalidFont);
      }
      lib.Call("TTF_FontAscent");
      return font.ascent, None;
    }

    method Descent(lib: Library) returns (d: int, err: Option<Error>)
      requires Usable()
      modifies lib
      ensures Guarded(lib, "TTF_FontDescent")
      ensures font == null ==> d == 0 && err == Some(InvalidFont)
      ensures font != null ==> d == font.descent && err == None
    {
      if font == null {
        return 0, Some(InvalidFont);
      }
      lib.Call("TTF_FontDescent");
      return font.descent, None;
    }

    method LineSkip(lib: Library) returns (s: int, err: Option<Error>)
      requires Usable()
      modifies lib
      ensures Guarded(lib, "TTF_FontLineSkip")
      ensures font == null ==> s == 0 && err == Some(InvalidFont)
      ensures font != null ==> s == font.lineSkip && err == None
    {
      if font == null {
        return 0, Some(InvalidFont);
      }
      lib.Call("TTF_FontLineSkip");
      return font.lineSkip, None;
    }

    method GetKerning(lib: Library) returns (allowed: bool, err: Option<Error>)
      requires Usable()
      modifies lib
      ensures Guarded(lib, "TTF_GetFontKerning")
      ensures font == null ==> !allowed && err == Some(InvalidFont)
      ensures font != null ==> allowed == CBool(font.kerning) && err == None
    {
      if font == null {
        return false, Some(InvalidFont);
      }
      lib.Call("TTF_GetFontKerning");
      if font.kerning == 0 {
        return false, None;
      }
      return true, None;
    }

    method SetKerning(allowed: bool, lib: Library) returns (err: Option<Error>)
      requires Usable()
      modifies lib, font
      ensures Guarded(lib, "TTF_SetFontKerning")
      ensures font == null ==> err == Some(InvalidFont)
      ensures font != null ==> (err == None && font.kerning == KerningArg(allowed) &&
        font.style == old(font.style) && font.outline == old(font.outline) &&
        font.hinting == old(font.hinting) && font.open)
    {
      if font == null {
        return Some(InvalidFont);
      }
      var i: int32 := 0;
      if allowed {
        i := 1;
      }
      lib.Call("TTF_SetFontKerning");
      font.kerning := i;
      return None;
    }

    method Faces(lib: Library) returns (n: int, err: Option<Error>)
      requires Usable()
      modifies lib
      ensures Guarded(lib, "TTF_FontFaces")
      ensures font == null ==> n == 0 && err == Some(InvalidFont)
      ensures font != null ==> n == font.faces && err == None
    {
      if font == null {
        return 0, Some(InvalidFont);
      }
      lib.Call("TTF_FontFaces");
      return font.faces, None;
    }

    method FaceIsFixedWidth(lib: Library) returns (fixed: bool, err: Option<Error>)
      requires Usable()
      modifies lib
      ensures Guarded(lib, "TTF_FontFaceIsFixedWidth")
      ensures font == null ==> !fixed && err == Some(InvalidFont)
      ensures font != null ==> fixed == CBool(font.fixedWidth) && err == None
    {
      if font == null {
        return false, Some(InvalidFont);
      }
      lib.Call("TTF_FontFaceIsFixedWidth");
      if font.fixedWidth == 0 {
        return false, None;
      }
      return true, None;
    }

    method FaceFamilyName(lib: Library) returns (name: string, err: Option<Error>)
      requires Usable()
      modifies lib
      ensures Guarded(lib, "TTF_FontFaceFamilyName")
      ensures font == null ==> name == "" && err == Some(InvalidFont)
      ensures font != null ==> name == CPrefix(font.familyName) && err == None
    {
      if font == null {
        return "", Some(InvalidFont);
      }
      lib.Call("TTF_FontFaceFamilyName");
      return CPrefix(font.familyName), None;
    }

    method FaceStyleName(lib: Library) returns (name: string, err: Option<Error>)
      requires Usable()
      modifies lib
      ensures Guarded(lib, "TTF_FontFaceStyleName")
      ensures font == null ==> name == "" && err == Some(InvalidFont)
      ensures font != null ==> name == CPrefix(font.styleName) && err == None
    {
      if font == null {
        return "", Some(InvalidFont);
      }
      lib.Call("TTF_FontFaceStyleName");
      return CPrefix(font.styleName), None;
    }

    /** `provided` is what TTF_GlyphIsProvided answers for `ch`. */
    method GlyphIsProvided(ch: uint16, lib: Library, provided: int32) returns (yes: bool, err: Option<Error>)
      requires Usable()
      modifies lib
      ensures Guarded(lib, "TTF_GlyphIsProvided")
      ensures font == null ==> !yes && err == Some(InvalidFont)
      ensures font != null ==> yes == CBool(provided) && err == None
    {
      if font == null {
        return false, Some(InvalidFont);
      }
      lib.Call("TTF_GlyphIsProvided");
      if provided == 0 {
        return false, None;
      }
      return true, None;
    }

    /**
     * `native` is what TTF_GlyphMetrics reports for `ch`; the values it
     * wrote are returned even with an error, as the named results are.
     */
    method GlyphMetrics(ch: uint16, lib: Library, native: GlyphResult)
        returns (minx: int, maxx: int, miny: int, maxy: int, advance: int, err: Option<Error>)
      requires Usable()
      modifies lib
      ensures Guarded(lib, "TTF_GlyphMetrics")
      ensures font == null ==> (minx, maxx, miny, maxy, advance) == (0, 0, 0, 0, 0) && err == Some(InvalidFont)
      ensures font != null ==>
        (minx, maxx, miny, maxy, advance) == (native.minx, native.maxx, native.miny, native.maxy, native.advance)
      ensures font != null ==> err == if native.status == 0 then None else Some(SDLError(lib.lastError, native.status))
    {
      if font == null {
        return 0, 0, 0, 0, 0, Some(InvalidFont);
      }
      lib.Call("TTF_GlyphMetrics");
      minx, maxx, miny, maxy, advance := native.minx, native.maxx, native.miny, native.maxy, native.advance;
      err := None;
      if native.status != 0 {
        err := Some(SdlError(lib, native.status));
      }
    }

    /** `native` is what TTF_SizeUTF8 reports for the text. */
    method Size(text: string, lib: Library, native: SizeResult) returns (w: int, h: int, err: Option<Error>)
      requires Usable()
      modifies lib
      ensures Guarded(lib, "TTF_SizeUTF8")
      ensures font == null ==> w == 0 && h == 0 && err == Some(InvalidFont)
      ensures font != null ==> w == native.w && h == native.h
      ensures font != null ==> err == if native.status == 0 then None else Some(SDLError(lib.lastError, native.status))
    {
      if font == null {
        return 0, 0, Some(InvalidFont);
      }
      lib.Call("TTF_SizeUTF8");
      w, h := native.w, native.h;
      err := None;
      if native.status != 0 {
        err := Some(SdlError(lib, native.status));
      }
    }

    /** `rendered` is the surface TTF_RenderUTF8_Solid returns. */
    method RenderTextSolid(text: string, fg: (uint8, uint8, uint8, uint8), lib: Library, rendered: Ptr)
        returns (s: Ptr, err: Option<Error>)
      requires Usable()
      modifies lib
      ensures Guarded(lib, "TTF_RenderUTF8_Solid")
      ensures font == null ==> s == Nil && err == Some(InvalidFont)
      ensures font != null ==> (s, err) == RenderResult(lib, rendered)
    {
      if font == null {
        return Nil, Some(InvalidFont);
      }
      lib.Call("TTF_RenderUTF8_Solid");
      s, err := RenderResult(lib, rendered).0, RenderResult(lib, rendered).1;
    }

    /** `rendered` is the surface TTF_RenderUTF8_Shaded returns. */
    method RenderTextShaded(text: string, fg: (uint8, uint8, uint8, uint8), bg: (uint8, uint8, uint8, uint8),
                            lib: Library, rendered: Ptr)
        returns (s: Ptr, err: Option<Error>)
      requires Usable()
      modifies lib
      ensures Guarded(lib, "TTF_RenderUTF8_Shaded")
      ensures font == null ==> s == Nil && err == Some(InvalidFont)
      ensures font != null ==> (s, err) == RenderResult(lib, rendered)
    {
      if font == null {
        return Nil, Some(InvalidFont);
      }
      lib.Call("TTF_RenderUTF8_Shaded");
      s, err := RenderResult(lib, rendered).0, RenderResult(lib, rendered).1;
    }

    /** `rendered` is the surface TTF_RenderUTF8_Blended returns. */
    method RenderTextBlended(text: string, fg: (uint8, uint8, uint8, uint8), lib: Library, rendered: Ptr)
        returns (s: Ptr, err: Option<Error>)
      requires Usable()
      modifies lib
      ensures Guarded(lib, "TTF_RenderUTF8_Blended")
      ensures font == null ==> s == Nil && err == Some(InvalidFont)
      ensures font != null ==> (s, err) == RenderResult(lib, rendered)
    {
      if font == null {
        return Nil, Some(InvalidFont);
      }
      lib.Call("TTF_RenderUTF8_Blended");
      s, err := RenderResult(lib, rendered).0, RenderResult(lib, rendered).1;
    }

    /** `rendered` is the surface TTF_RenderUTF8_Blended_Wrapped returns. */
    method RenderTextBlendedWrapped(text: string, fg: (uint8, uint8, uint8, uint8), wrapLength: uint32,
                                    lib: Library, rendered: Ptr)
        returns (s: Ptr, err: Option<Error>)
      requires Usable()
      modifies lib
      ensures Guarded(lib, "TTF_RenderUTF8_Blended_Wrapped")
      ensures font == null ==> s == Nil && err == Some(InvalidFont)
      ensures font != null ==> (s, err) == RenderResult(lib, rendered)
    {
      if font == null {
        return Nil, Some(InvalidFont);
      }
      lib.Call("TTF_RenderUTF8_Blended_Wrapped");
      s, err := RenderResult(lib, rendered).0, RenderResult(lib, rendered).1;
    }

    /** Close: a nil handle is ignored; otherwise the native font is released. */
    method Close(lib: Library)
      requires Usable()
      modifies lib, font
      ensures Guarded(lib, "TTF_CloseFont")
      ensures font != null ==> (!font.open && font.style == old(font.style) &&
        font.outline == old(font.outline) && font.hinting == old(font.hinting) &&
        font.kerning == old(font.kerning))
    {
      if font == null {
        return;
      }
      lib.Call("TTF_CloseFont");
      font.open := false;
    }

    /** `kern` is what TTF_GetFontKerningSize answers for the two glyph indices. */
    method GetkerningSize(prevIndex: int, index: int, lib: Library, kern: int32) returns (size: int, err: Option<Error>)
      requires Usable()
      modifies lib
      ensures Guarded(lib, "TTF_GetFontKerningSize")
      ensures font == null ==> size == 0 && err == Some(InvalidFont)
      ensures font != null ==> size == kern && err == None
    {
      if font == null {
        return 0, Some(InvalidFont);
      }
      lib.Call("TTF_GetFontKerningSize");
      return kern, None;
    }
  }
}
