# A verified model of the grategames/sdl binding core

This project models the core of the Go SDL2 binding `sdl` (with its `ttf`
sub-package) and proves properties of that model. The core has these parts:

- **The event bridge** (`events.go`). SDL delivers every event as a 56-byte
  `SDL_Event` union, which is `EventUnion` here. `validEventType` accepts or
  refuses a tag. `Convert` reinterprets the union as the typed record its
  tag names. `CopyEventToEventUnion` copies a typed record's bytes back into
  the union. `EventType.String` names a tag. `DropEvent` owns a C string:
  `File`, `SetFile` and `FreeFile` read, replace and free it.
- **The 386 ABI tables** (`structs_386.go`). These are the Go mirrors of the
  C structs. Every field's offset and every struct size is computed from
  Go's alignment rules and proved. The ABI comparison helper `abiTest`, with
  `filterField`, `TestStructs` and `TestUnions` (`structs_test.go`), is
  modelled over these layouts.
- **Game-controller binds** (`gamecontroller.c`, `gamecontroller.go`). The C
  helper `extractBind` unpacks the native bind through out-pointers.
  `buildBind` turns the result into a Go bind record, or panics.
- **Surfaces** (`surface.go`, `pixels.go`). This covers the `Pixels` slice
  view, `MustLock`, `Palette.SetColors`, and `CreateRGBSurfaceFromImage`,
  which dispatches on the kind of Go image.
- **The `ttf` Font wrapper** (`ttf/ttf.go`). Every method checks for a nil
  handle first. On a nil handle it makes no native call, and every method
  except `Close` returns `InvalidFont`. Otherwise it makes one native call
  and converts the result.
- **Small helpers**: versions (`version.go`), `Button` and `GetMouseFocus`
  (`mouse.go`), and `Rect.Empty` (`rect.go`).

Native calls are not modelled as code. What a native function returns is a
parameter of the operation that calls it. The ttf `Library` object records
which entry points were called, and SDL's error text is a parameter.

## Model

| member | source | states |
|---|---|---|
| Base.WrapInt32 | surface.go:33 | A Go int32 product is the true value when that value fits in 32 bits, and is congruent to it modulo 2^32 otherwise |
| Base.DecodeEncode | events.go:140-194 | A value stored little-endian in w bytes reads back as the same value, which is what reinterpreting event memory relies on |
| Base.EncodeDecode | events.go:196-284 | Reading a byte run little-endian and storing the value back rebuilds the same bytes |
| Base.DecimalRoundTrip | events.go:388 | The `%d` digits of a natural number denote that number |
| Base.CPrefix | events.go:99-101 | C.GoString reads everything before the first NUL: the result has no NUL, is a prefix of the buffer, stops at a NUL or at the end, and a NUL-free string comes back whole |
| Layout.PackedLayout | structs_386.go:11-21 | When every field is naturally aligned at the running sum of the widths before it, each Go offset equals that running sum and the struct size equals the sum of the widths |
| Layout.ReadImage | events.go:140-194 | Reading field i of a struct's byte image gives back the value stored there, and the field lies inside the image |
| Layout.ReadPrefix | events.go:196-284 | A field of a record is read the same from the whole union as from the record-sized prefix of it |
| Structs386.WindowEventLayout | structs_386.go:11-21 | WindowEvent is packed, Data1 sits at offset 16, and the size is 24 |
| Structs386.KeysymLayout | structs_386.go:272-278 | Keysym is packed and 16 bytes long |
| Structs386.KeyboardEventLayout | structs_386.go:24-33 | KeyboardEvent is packed, the nested Keysym sits at offset 16, and the size is 32 |
| Structs386.TextEditingEventLayout | structs_386.go:36-43 | TextEditingEvent is packed, has a 32-byte Text array, and is 52 bytes long, which makes it the largest record |
| Structs386.TextInputEventLayout | structs_386.go:46-51 | TextInputEvent is packed and 44 bytes long |
| Structs386.MouseMotionEventLayout | structs_386.go:54-67 | MouseMotionEvent is packed and 36 bytes long |
| Structs386.MouseButtonEventLayout | structs_386.go:70-81 | MouseButtonEvent is packed and 28 bytes long |
| Structs386.MouseWheelEventLayout | structs_386.go:84-91 | MouseWheelEvent is packed and 24 bytes long |
| Structs386.JoyAxisEventLayout | structs_386.go:94-104 | JoyAxisEvent is packed and 20 bytes long |
| Structs386.JoyBallEventLayout | structs_386.go:107-117 | JoyBallEvent is packed and 20 bytes long |
| Structs386.JoyHatEventLayout | structs_386.go:120-134 | JoyHatEvent is packed and 16 bytes long |
| Structs386.JoyButtonEventLayout | structs_386.go:137-145 | JoyButtonEvent is packed and 16 bytes long |
| Structs386.JoyDeviceEventLayout | structs_386.go:148-152 | JoyDeviceEvent is packed and 12 bytes long |
| Structs386.ControllerAxisEventLayout | structs_386.go:155-165 | ControllerAxisEvent is packed and 20 bytes long |
| Structs386.ControllerButtonEventLayout | structs_386.go:168-176 | ControllerButtonEvent is packed and 16 bytes long |
| Structs386.ControllerDeviceEventLayout | structs_386.go:179-183 | ControllerDeviceEvent is packed and 12 bytes long |
| Structs386.TouchFingerEventLayout | structs_386.go:186-197 | TouchFingerEvent is packed and 48 bytes long |
| Structs386.MultiGestureEventLayout | structs_386.go:200-211 | MultiGestureEvent is packed and 40 bytes long |
| Structs386.DollarGestureEventLayout | structs_386.go:213-222 | DollarGestureEvent is packed and 40 bytes long |
| Structs386.DropEventLayout | structs_386.go:228-232 | DropEvent is packed, its 4-byte file pointer sits at offset 8, and the size is 12 |
| Structs386.QuitEventLayout | structs_386.go:235-238 | QuitEvent is packed and 8 bytes long |
| Structs386.UserEventLayout | structs_386.go:241-248 | UserEvent is packed, its Data1 and Data2 pointers are 4 bytes each, and the size is 24 |
| Structs386.SysWMEventLayout | structs_386.go:252-256 | SysWMEvent is packed and 12 bytes long |
| Structs386.EventUnionLayout | structs_386.go:261-264 | EventUnion is a 4-byte Type followed by 52 opaque bytes, 56 in all |
| Structs386.EventHeader | structs_386.go:11-256 | Every event record starts with Type at offset 0 and Timestamp at offset 4, each a uint32 |
| Structs386.KeysymNested | structs_386.go:24-33 | The Keysym field of KeyboardEvent is the Keysym struct itself |
| Structs386.JoystickGUIDLayout | structs_386.go:267-269 | JoystickGUID is packed and 16 bytes long |
| Structs386.ColorLayout | structs_386.go:280-285 | Color is packed and 4 bytes long |
| Structs386.PaletteLayout | structs_386.go:290-295 | Palette is packed and 16 bytes long |
| Structs386.PixelFormatLayout | structs_386.go:298-318 | PixelFormat is packed and 44 bytes long |
| Structs386.PointLayout | structs_386.go:321-324 | Point is packed and 8 bytes long |
| Structs386.RectLayout | structs_386.go:327-332 | Rect is packed and 16 bytes long |
| Structs386.SurfaceLayout | structs_386.go:338-360 | Surface is packed and 60 bytes long |
| Structs386.ClipRectNested | structs_386.go:338-360 | The clip_rect field of Surface is the Rect struct itself |
| Structs386.VersionLayout | structs_386.go:363-367 | Version is packed and 3 bytes long |
| Structs386.DisplayModeLayout | structs_386.go:370-376 | DisplayMode is packed and 20 bytes long |
| AbiTest.IsPtr | structs_test.go:16-21 | The pointer-like kinds Ptr, UnsafePointer and Uintptr are all basic 4-byte words on 386 |
| AbiTest.KindsMatchEquivalence | structs_test.go:16-21 | Kind matching, where any two pointer kinds match, is reflexive, symmetric and transitive, and two different kinds match only if both are pointers |
| AbiTest.StripUnderscores | structs_test.go:105 | No underscore is left, no other character is lost or gained, and a string without underscores is unchanged |
| AbiTest.StripAppend | structs_test.go:105 | Stripping works character by character: an underscore becomes nothing, any other character stays, and a concatenation is stripped piece by piece, so the kept characters keep their order and number |
| AbiTest.ToLower | structs_test.go:106 | Same length, with each upper-case ASCII letter lowered and every other character kept |
| AbiTest.FilterField | structs_test.go:100-109 | The blank field and fields named pad... are dropped; any other name gives its key, lower-cased with underscores removed |
| AbiTest.FilterFieldIdempotent | structs_test.go:100-109 | Filtering a key a second time gives the same key, unless the key begins with "pad" (the name "Pad_x" gives the key "padx", and "padx" is dropped) |
| AbiTest.BlankFiltered | structs_test.go:101-103 | `_` is dropped |
| AbiTest.PadFiltered | structs_test.go:101-103 | A name beginning with pad is dropped |
| AbiTest.LastWithKey | structs_test.go:38-52 | The last field, if any, whose filtered name is a given key |
| AbiTest.KeyMapContents | structs_test.go:38-52 | A key is in the field map iff some field filters to it, and then it maps to the name of the last such field |
| AbiTest.KeyMapNamesFound | structs_test.go:74-81 | Every name in the field map is found by FieldByName |
| AbiTest.BuildKeyMap | structs_test.go:38-52 | The loop that builds the map produces exactly the field map |
| AbiTest.HeaderCheck | structs_test.go:26-36 | The header passes iff both types are structs of equal size |
| AbiTest.Abi | structs_test.go:23-98 | abiTest reports nothing iff the header, the key count and every key's offset, size and kind agree; a header failure and a count mismatch are reported themselves; otherwise some key fails |
| AbiTest.AbiReflexive | structs_test.go:23-98 | Every struct passes against itself |
| AbiTest.AbiSymmetric | structs_test.go:54-96 | A passing pair passes with its sides swapped |
| AbiTest.AsStructs | structs_test.go:116-149 | One struct type per table entry, in order |
| AbiTest.StructTests | structs_test.go:116-149 | Each Go struct is paired with the native struct in the same position |
| AbiTest.TestStructs | structs_test.go:151-159 | The set of failing positions is exactly the set of pairs for which abiTest reports a failure |
| AbiTest.TestStructsSelf | structs_test.go:116-159 | Every modelled Go struct passes abiTest against an identical native struct |
| AbiTest.TestUnions | structs_test.go:161-165 | The union check passes iff the native union is 56 bytes, which is the size of EventUnion |
| Events.ValidEventType | events.go:393-463 | A tag is valid iff it is one of the named event tags or lies in USEREVENT..LASTEVENT |
| Events.RefusedTags | events.go:393-463 | FIRSTEVENT, DOLLARRECORD and CLIPBOARDUPDATE are refused, and so are the tags just outside the user range; both ends of the user range are accepted |
| Events.KindForTag | events.go:145-191 | Convert's switch: a valid tag selects a record kind that lists it, and exactly the tags outside the named set fall to the default UserEvent case |
| Events.DispatchComplete | events.go:145-191 | Every valid tag selects a record kind that lists that tag |
| Events.DispatchSound | events.go:145-191 | A tag listed by a record kind is valid and selects exactly that kind |
| Events.RecordLayout | structs_386.go:11-256 | Every record kind's field table is packed and has the size used for copying |
| Events.RecordsFit | structs_386.go:36-43 | No record is longer than TextEditingEvent's 52 bytes, and that is less than the 56-byte union |
| Events.RecordHeader | structs_386.go:11-256 | Every record has at least two fields, Type at offset 0 and Timestamp at offset 4 |
| Events.TypeFieldIsType | events.go:22-96 | GetType of any record reads the same four bytes as the union's Type |
| Events.UnionTypeField | events.go:129-131 | GetType of the union reads its first four bytes |
| Events.RecordTypeName | events.go:278 | The `%T` text of a typed record is a `*sdl.` pointer type whose name ends in Event |
| Events.TypeName | events.go:278 | The `%T` text of an event: a typed record or the union prints as a `*sdl.` pointer type, and any other implementation as its own type name |
| Events.Convert | events.go:140-194 | An invalid tag returns the union itself; a valid tag returns a record of the kind its tag selects, of that kind's size |
| Events.ConvertIsPrefix | events.go:145-190 | The converted record is a view of the first bytes of the union |
| Events.ConvertKeepsTag | events.go:140-194 | The converted event reports the same tag as the union |
| Events.CopyError | events.go:196-279 | Copying fails iff the tag is invalid or the event is not one of the typed records |
| Events.CopyToUnion | events.go:280-282 | The record's bytes overwrite the start of the union, and the rest keeps its old contents |
| Events.CopyEventToEventUnion | events.go:196-284 | The error is as above; a failed copy leaves the union unchanged, and a successful one writes the record over its start |
| Events.CopyIgnoresKind | events.go:201-279 | Any typed record with a valid tag is copied, whichever kind it is, even one its tag does not select |
| Events.ConvertAfterCopy | events.go:140-284 | Converting a union just written from a record whose tag selects its own kind gives that record back |
| Events.CopyAfterConvert | events.go:140-284 | Writing a converted union back over itself changes nothing |
| Events.EventTypeName | events.go:343-379 | The name table has entries for exactly the named tags plus FIRSTEVENT, DOLLARRECORD, CLIPBOARDUPDATE, USEREVENT and LASTEVENT |
| Events.EventTypeString | events.go:381-391 | Never empty: a tag from USEREVENT up to but not including LASTEVENT prints as USEREVENT, any other named tag as its table name, and an unnamed tag as "Unknown (" with its decimal value and ")" |
| Events.StringUserRange | events.go:381-391 | Every tag from USEREVENT up to but not including LASTEVENT prints as USEREVENT, and LASTEVENT prints as LASTEVENT |
| Events.StringUnknown | events.go:386-389 | A tag with no name outside the user range prints as "Unknown (", then decimal digits that read back as the tag, then ")" |
| DropFiles.CHeap.CString | events.go:107 | C.CString places a copy of the string in a fresh block and leaves every other block as it was |
| DropFiles.CHeap.Free | events.go:113 | SDL_free releases exactly that block; freeing nil changes nothing |
| DropFiles.DropEvent.File | events.go:99-101 | The name read back contains no NUL, and a nil pointer reads as "" |
| DropFiles.DropEvent.FreeFile | events.go:112-115 | The event's block is released, the pointer becomes nil, and the other fields and blocks are unchanged |
| DropFiles.DropEvent.SetFile | events.go:105-109 | The old block is freed first, the new name goes into a fresh block the event now owns, and File then reads the name up to its first NUL |
| DropFiles.DropEvent.Bytes | structs_386.go:228-232 | The event's 12-byte image in memory |
| DropFiles.DropEvent.AsEvent | events.go:187-188 | The event viewed as a DROPFILE record of the right size |
| DropFiles.DropEventType | events.go:94-96 | GetType through the union view gives the event's own Type |
| DropFiles.DropImageType | structs_386.go:228-232 | The first four bytes of a DropEvent image hold its Type |
| Controller.BindCells.constructor | gamecontroller.go:198-199 | Go's locals typ, v1 and v2 start at zero |
| Controller.Extracted | gamecontroller.c:7-20 | A button or an axis is written to v1, a hat to v1 with its mask in v2, any other type writes nothing, and the type cell is never written |
| Controller.ExtractBind | gamecontroller.c:7-20 | The helper leaves the cells as Extracted describes |
| Controller.BuildBind | gamecontroller.go:42-55 | A record is returned iff the type is BUTTON, AXIS or HAT, with the values for that type; any other type panics with "Unhandled ControllerBindtype: " and the type |
| Controller.BuildKeepsType | gamecontroller.go:42-55 | A returned record carries its type, and its variant matches that type |
| Controller.GetBind | gamecontroller.go:195-202 | As written, every call panics with "Unhandled ControllerBindtype: 0", whatever the native bind holds |
| Controller.ExtractedFixed | gamecontroller.c:7-20 | The corrected helper also copies the native bind type into the type cell, and writes the value cells as the original does |
| Controller.ExtractBindFixed | gamecontroller.c:7-20 | The corrected helper leaves the cells as ExtractedFixed describes |
| Controller.BoundButtonLost | gamecontroller.go:250-257 | A button bind (button 5) decodes to its ButtonBind when the type is passed through |
| Controller.Decoded | gamecontroller.go:42-55 | The record a native bind should give: handled types give a record of their own type and variant carrying the native values; any other type panics with "Unhandled ControllerBindtype: " and the type |
| Controller.GetBindFixed | gamecontroller.go:195-202 | With the corrected helper, the result is the decoding of the native bind |
| Controller.DecodedFaithful | gamecontroller.go:42-55 | The decoding returns a record iff the type is handled; the record carries that type, and encoding it again restores the native bind |
| Controller.DecodeEncoded | gamecontroller.go:26-40 | Every well-formed Go bind record survives being encoded to its native form and decoded again |
| Surfaces.Palette.SetColors | pixels.go:132-144 | Status 0 stores the colours from index 0 and returns nil; any other status returns SDLError of it and leaves the palette unchanged |
| Surfaces.Stored | pixels.go:138-139 | The palette after the store: the new colours first, then the old entries past them when the palette is longer |
| Surfaces.Surface.Pixels | surface.go:24-37 | A nil pixel pointer gives an empty slice; otherwise the slice views the pixel buffer itself, with capacity equal to length and length H*Pitch computed in int32 |
| Surfaces.Surface.MustLock | surface.go:40-42 | A lock is needed iff the RLEACCEL bit (value 2) of the flags is set |
| Surfaces.RleBit | surface.go:40-42 | Masking with RLEACCEL tests bit 1 of the flags |
| Surfaces.Surface.CopyPixels | surface.go:394 | copy writes min(len(dst), len(src)) bytes from the start of the source, returns that count, and leaves the rest of the buffer alone |
| Surfaces.Copied | surface.go:394 | The result of copy: same length as the destination, the copied prefix from the source, and the rest from the destination |
| Surfaces.Requested | surface.go:383-464 | For a known image kind, the surface has the image's width and height: 32-bit RGBA masks for the direct kinds, and depth 8 with zero masks for a paletted image; an unknown kind asks for nothing |
| Surfaces.Staged | surface.go:396-416 | As written, an NRGBA64 image stages an all-zero buffer, and every other kind stages its reference pixels |
| Surfaces.NRGBA64Blank | surface.go:406-413 | An NRGBA64 image whose drawn copy has a non-zero byte loses its pixels |
| Surfaces.StagedFixed | surface.go:406-413 | With the NRGBA64 case restored, every kind stages its reference pixels |
| Surfaces.PaletteColor | surface.go:429-450 | Each palette entry keeps A at zero; NRGBA and RGBA colours copy their R, G and B |
| Surfaces.PaletteColors | surface.go:428-452 | The loop yields one colour per palette entry, in order |
| Surfaces.PaletteOf | surface.go:428-452 | One colour per entry, the i-th being that entry's converted colour |
| Surfaces.CreateRGBSurfaceFromImage | surface.go:383-464 | An unknown kind gives "unknown image type" and touches nothing; a failed create gives SDLError 0; otherwise the staged pixels are copied in; a paletted image then stores its converted palette, and a failing store returns nil with that error; the palette changes only on a successful store |
| Ttf.CInt | ttf/ttf.go:122 | C.int of a Go int keeps the value when it fits and wraps it modulo 2^32 otherwise |
| Ttf.KerningArg | ttf/ttf.go:220-223 | The flag passed to SDL_ttf is 0 or 1 |
| Ttf.KerningRoundTrip | ttf/ttf.go:205-226 | A flag survives SetKerning followed by GetKerning, and a native value survives the reverse iff it is 0 or 1 |
| Ttf.SettingRoundTrip | ttf/ttf.go:118-132 | C.int(x) is x iff x fits in an int32 |
| Ttf.RenderResult | ttf/ttf.go:324-327 | A nil surface gives nil with SDLError 0; any other surface is returned without error |
| Ttf.OpenFont | ttf/ttf.go:74-83 | TTF_OpenFont is called once; a null result gives the nil Font and SDLError 0, otherwise a Font wrapping the handle |
| Ttf.OpenFontIndex | ttf/ttf.go:87-96 | As OpenFont, through TTF_OpenFontIndex |
| Ttf.Font.GetStyle | ttf/ttf.go:110-115 | A nil handle gives 0 and InvalidFont with no native call; otherwise one TTF_GetFontStyle call and the font's style |
| Ttf.Font.SetStyle | ttf/ttf.go:118-124 | A nil handle gives InvalidFont with no call; otherwise the style becomes C.int(style) and no other setting changes |
| Ttf.Font.GetOutline | ttf/ttf.go:127-132 | The nil guard, then the font's outline |
| Ttf.Font.SetOutline | ttf/ttf.go:135-141 | The nil guard, then the outline becomes C.int(outline) and no other setting changes |
| Ttf.Font.GetHinting | ttf/ttf.go:154-159 | The nil guard, then the font's hinting |
| Ttf.Font.SetHinting | ttf/ttf.go:162-168 | The nil guard, then the hinting becomes C.int(hinting) and no other setting changes |
| Ttf.Font.Height | ttf/ttf.go:171-176 | The nil guard, then the font's height |
| Ttf.Font.Ascent | ttf/ttf.go:180-185 | The nil guard, then the font's ascent |
| Ttf.Font.Descent | ttf/ttf.go:189-194 | The nil guard, then the font's descent |
| Ttf.Font.LineSkip | ttf/ttf.go:197-202 | The nil guard, then the font's line skip |
| Ttf.Font.GetKerning | ttf/ttf.go:205-213 | The nil guard giving false, then whether the native kerning value is non-zero |
| Ttf.Font.SetKerning | ttf/ttf.go:216-226 | The nil guard, then the native kerning becomes 1 or 0 for the flag and nothing else changes |
| Ttf.Font.Faces | ttf/ttf.go:229-234 | The nil guard, then the font's face count |
| Ttf.Font.FaceIsFixedWidth | ttf/ttf.go:238-246 | The nil guard giving false, then whether the native answer is non-zero |
| Ttf.Font.FaceFamilyName | ttf/ttf.go:249-254 | The nil guard giving "", then the family name up to its first NUL |
| Ttf.Font.FaceStyleName | ttf/ttf.go:257-262 | The nil guard giving "", then the style name up to its first NUL |
| Ttf.Font.GlyphIsProvided | ttf/ttf.go:265-273 | The nil guard giving false, then whether the native answer is non-zero |
| Ttf.Font.GlyphMetrics | ttf/ttf.go:278-293 | The nil guard giving five zeros; otherwise the five metrics SDL_ttf wrote, with SDLError of the status when it is not 0 |
| Ttf.Font.Size | ttf/ttf.go:296-310 | The nil guard giving 0 by 0; otherwise the width and height written, with SDLError of the status when it is not 0 |
| Ttf.Font.RenderTextSolid | ttf/ttf.go:315-328 | The nil guard giving a nil surface; otherwise the rendered surface, or SDLError 0 when it is nil |
| Ttf.Font.RenderTextShaded | ttf/ttf.go:333-347 | As RenderTextSolid, through TTF_RenderUTF8_Shaded |
| Ttf.Font.RenderTextBlended | ttf/ttf.go:351-364 | As RenderTextSolid, through TTF_RenderUTF8_Blended |
| Ttf.Font.RenderTextBlendedWrapped | ttf/ttf.go:370-383 | As RenderTextSolid, through TTF_RenderUTF8_Blended_Wrapped |
| Ttf.Font.Close | ttf/ttf.go:386-392 | A nil handle makes no call; otherwise TTF_CloseFont releases the font and none of its settings change |
| Ttf.Font.GetkerningSize | ttf/ttf.go:408-413 | The nil guard giving 0, then the kerning size SDL_ttf reports |
| Versions.Version.constructor | version.go:47 | A zero Version, as new(Version) gives |
| Versions.VERSION | version.go:22-26 | VERSION writes the compile-time major, minor and patch numbers and nothing else |
| Versions.VersionNum | version.go:34-36 | For a minor number below 10 and a patch number below 100, the thousands, hundreds and units of the result give back the major, minor and patch numbers |
| Versions.VersionAtleast | version.go:38-41 | True iff COMPILEDVERSION is at least the numeric form of x.y.z |
| Versions.VersionExamples | version.go:28-36 | VersionNum(1, 2, 3) is 1203, COMPILEDVERSION is 2000, the compiled version is at least itself, and 2.0.1 and 3.0.0 are above it |
| Versions.VersionNumMonotone | version.go:34-36 | Raising any component never lowers the numeric form |
| Versions.AtleastDownwardClosed | version.go:38-41 | If VersionAtleast holds for a version, it holds for every componentwise smaller one |
| Versions.VersionNumLexicographic | version.go:30-36 | For minor numbers below 10 and patch numbers below 100, the numeric order is the lexicographic order of the triples |
| Mouse.Button | mouse.go:181-183 | For buttons 1 to 32 the mask is 2^(button-1); for 0, whose shift wraps around, and for any button above 32, the shift leaves nothing of the 32-bit value |
| Mouse.Pow2Bound | mouse.go:181-183 | Powers of two below 2^32 fit in a uint32 |
| Mouse.OneBit | mouse.go:181-183 | 2^s has exactly bit s set |
| Mouse.ButtonMask | mouse.go:181-183 | The mask for a button from 1 to 32 has exactly bit button-1 set, and Button(1) is 1 |
| Mouse.GetMouseFocus | mouse.go:37-43 | The window wraps SDL's pointer, and focus holds iff that pointer is not nil |
| Rects.Empty | rect.go:15-20 | A nil rect is empty; otherwise a rect is empty iff its width or its height is not positive |
| Rects.EmptyIffNoPixel | rect.go:14-20 | A rect is empty iff it covers no pixel |

## Left out

- No SDL or SDL_ttf function is modelled, apart from the state the model
  keeps: the palette colours, the four font settings and the font's open
  flag. Every other native result is a parameter of the operation that
  makes it: the created surface, the status of SDL_SetPaletteColors, the
  font handle, the glyph metrics, the rendered surface, and SDL_GetError's
  text.
- Ttf.Font.SetStyle, Ttf.Font.SetOutline, Ttf.Font.SetHinting,
  Ttf.Font.SetKerning: the model's NativeFont holds the last value set, so
  each getter reads back exactly what its setter passed. SDL_ttf's own
  handling of these values is not modelled. For example, it maps an unknown
  hinting value to normal and ORs the face's own style into the style.
- The event queue functions in `events.go` (PumpEvents, PeepEvents,
  PollEvent, WaitEvent, PushEvent and the filters) are not modelled. They
  only pass buffers to SDL.
- Floats in events (touch, gesture) and in the layouts are bytes of the
  right width. Nothing reads them as numbers.
- AbiTest.ToLower: lowers ASCII letters only. Go's strings.ToLower also
  lowers other Unicode letters. The struct field names the test meets are
  ASCII.
- AbiTest.Abi: the texts of abiTest's error messages are abstracted into
  the AbiFailure datatype. This includes the message that prints a `$s`
  verb. The test reports the first failing key in Go's map order, which is
  unspecified; the model promises only that some failing key is reported.
- Events.Convert: the Go code returns a pointer over the same memory. The
  model returns a value, the record's bytes, so writes through the converted
  pointer showing up in the union are not modelled. CopyToUnion states the
  reverse direction explicitly.
- Temporary C strings: OpenFont, Size and the Render functions allocate
  them with C.CString and free them afterwards. They are not modelled.
- Surfaces.Palette.SetColors: SDL's own range check and clamping in
  SDL_SetPaletteColors are not modelled. The status stands for them.
- Surfaces.Staged: the colour conversion draw.Draw performs for RGBA and
  RGBA64 images is an input (the `drawn` bytes). It is not computed, and
  neither is the image/color conversion of NRGBA64 and other palette
  colours.
- Versions.VersionNum: computed on unbounded integers. Go's int overflow is
  not reachable for version numbers and is not modelled.
- Versions: SDL_version.h is not part of this model. The compile-time
  version is taken to be 2.0.0.
- Nil receivers and nil arguments are not modelled. In the source,
  Events.CopyEventToEventUnion panics on a nil event or a nil union, and
  DropFiles.DropEvent.File, DropFiles.DropEvent.SetFile,
  DropFiles.DropEvent.FreeFile and Surfaces.Surface.Pixels panic on a nil
  receiver. The model's Event datatype has no nil, and its arrays and objects
  are non-null references, so these panics cannot arise there.
- Ttf.Font methods after Close: every Ttf.Font method requires Usable(), so
  the model does not cover calling a method on a font that has already been
  closed. The source allows such a call, and SDL_ttf then uses freed memory.
- Ttf.Font.GlyphMetrics and Ttf.Font.Size: the Go ints passed as *C.int
  are modelled for the 386 ABI only, where both are 32 bits wide.
- DropFiles and the ttf names: C strings are byte strings, but the model
  holds them as Dafny strings (sequences of characters). No encoding is
  modelled, and a NUL is the character '\0'.
- Surfaces.CreateRGBSurfaceFromImage: when SetColors fails, the source
  returns nil without freeing the surface it created, so the surface leaks.
  Surface allocation and freeing are not modelled, so the model does not
  show the leak.
- Font.Close and GameController.Close also set the receiver's pointer to
  nil. Both have value receivers, so that write is lost when the method
  returns and is not modelled. Ttf.Font.Close models the release of the
  native font.
- The rest of `gamecontroller.go` (open, mapping strings, axis and button
  queries) only forwards to SDL and is not modelled. The same holds for the
  other one-line wrappers in `surface.go`, such as CreateRGBSurface, Free,
  Lock and blitting, and in the rest of the package.
- Layouts for platforms other than 386 (`structs.go` on amd64 and the
  others) are not modelled.

## Findings

| source | as written | input that shows it | evidently intended | confidence | as-written member | corrected member |
|---|---|---|---|---|---|---|
| gamecontroller.c:7-20 | extractBind writes only the value cells and never stores the bind type through its `type` out-pointer, so GetBindForAxis and GetBindForButton pass the zero type to buildBind, which panics | a native button bind, bindType 1 with button 5 | the type is stored too, and the call returns ButtonBind{1, 5} | not executed | Controller.GetBind | Controller.GetBindFixed |
| surface.go:406-413 | the inner type switch names `*image.NRGBA` where the outer case admits `*image.NRGBA64`, so an NRGBA64 image is never drawn and its surface receives an all-zero buffer | an NRGBA64 image with any non-zero pixel | a `*image.NRGBA64` case that draws the image like the RGBA and RGBA64 cases | not executed | Surfaces.Staged | Surfaces.StagedFixed |
