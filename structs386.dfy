/**
 * The 386 field lists of every record that crosses the C boundary, as the
 * Go declarations in structs_386.go give them (named types replaced by their
 * underlying reflect kinds: EventType, Scancode uint32; WindowEventID uint8;
 * Keycode int32; Keymod uint16), with the explicit `_` padding fields.
 *
 * The padding in those declarations lines every group of small fields up on
 * a 4-byte word, so each list is written as the concatenation of its word
 * groups (the event header of Type and Timestamp is one group shared by all
 * events). A struct-typed field is written with the size and alignment of
 * the nested struct; the link lemmas show they are that struct's.
 */
module Structs386 {
  import opened Base
  import opened Layout

  // ---------------------------------------------------------------------
  // Word groups.

  /** The two words every event record starts with. */
  const Header: Fields := [Basic("Type", Uint32), Basic("Timestamp", Uint32)]

  const WindowIdent: Fields := [
    Basic("WindowID", Uint32), Basic("Event", Uint8), Basic("_", Uint8), Basic("_", Uint8),
    Basic("_", Uint8)]

  const WindowData: Fields := [Basic("Data1", Int32), Basic("Data2", Int32)]

  const Keysym: Fields := [
    Basic("Scancode", Uint32), Basic("Sym", Int32), Basic("Mod", Uint16), ArrayOf("_", Uint8, 2),
    Basic("unicode", Uint32)]

  const KeyboardState: Fields := [
    Basic("WindowID", Uint32), Basic("State", Uint8), Basic("Repeat", Uint8), Basic("_", Uint8),
    Basic("_", Uint8)]

  const KeyboardKeysym: Fields := [Field("Keysym", Struct, 16, 4)]

  const TextEditingBody: Fields := [
    Basic("WindowID", Uint32), ArrayOf("Text", Int8, 32), Basic("Start", Int32),
    Basic("Length", Int32)]

  const TextInputBody: Fields := [Basic("WindowID", Uint32), ArrayOf("Text", Int8, 32)]

  const MouseIds: Fields := [Basic("WindowID", Uint32), Basic("Which", Uint32)]

  const MouseMotionState: Fields := [
    Basic("State", Uint8), Basic("_", Uint8), Basic("_", Uint8), Basic("_", Uint8)]

  const MouseMotionCoords: Fields := [
    Basic("X", Int32), Basic("Y", Int32), Basic("Xrel", Int32), Basic("Yrel", Int32)]

  const MouseButtonState: Fields := [
    Basic("Button", Uint8), Basic("State", Uint8), Basic("_", Uint8), Basic("_", Uint8)]

  const MousePosition: Fields := [Basic("X", Int32), Basic("Y", Int32)]

  const AxisSelect: Fields := [
    Basic("Which", Int32), Basic("Axis", Uint8), Basic("_", Uint8), Basic("_", Uint8),
    Basic("_", Uint8)]

  const AxisValue: Fields := [Basic("Value", Int16), Basic("_", Uint16)]

  const BallSelect: Fields := [
    Basic("Which", Int32), Basic("Ball", Uint8), Basic("_", Uint8), Basic("_", Uint8),
    Basic("_", Uint8)]

  const BallMotion: Fields := [Basic("Xrel", Int16), Basic("Yrel", Int16)]

  const HatBody: Fields := [
    Basic("Which", Int32), Basic("Hat", Uint8), Basic("Value", Uint8), Basic("_", Uint8),
    Basic("_", Uint8)]

  const ButtonBody: Fields := [
    Basic("Which", Int32), Basic("Button", Uint8), Basic("State", Uint8), Basic("_", Uint8),
    Basic("_", Uint8)]

  const DeviceBody: Fields := [Basic("Which", Int32)]

  const FingerIds: Fields := [Basic("TouchId", Int64), Basic("FingerId", Int64)]

  const FingerMotion: Fields := [
    Basic("X", Float32), Basic("Y", Float32), Basic("Dx", Float32), Basic("Dy", Float32)]

  const FingerPressure: Fields := [Basic("Pressure", Float32), ArrayOf("_", Uint8, 4)]

  const MultiGestureMotion: Fields := [
    Basic("TouchId", Int64), Basic("DTheta", Float32), Basic("DDist", Float32)]

  const MultiGestureCentre: Fields := [
    Basic("X", Float32), Basic("Y", Float32), Basic("NumFingers", Uint16), Basic("_", Uint16),
    ArrayOf("_", Uint8, 4)]

  const DollarGestureIds: Fields := [Basic("TouchId", Int64), Basic("GestureId", Int64)]

  const DollarGestureResult: Fields := [
    Basic("NumFingers", Uint32), Basic("Error", Float32), Basic("X", Float32), Basic("Y", Float32)]

  const DropBody: Fields := [Basic("file", Ptr)]

  const UserBody: Fields := [
    Basic("WindowID", Uint32), Basic("Code", Int32), Basic("Data1", Uintptr),
    Basic("Data2", Uintptr)]

  const SysWMBody: Fields := [Basic("Msg", Ptr)]

  const PixelFormatHead: Fields := [
    Basic("Format", Uint32), Basic("Palette", Ptr), Basic("BitsPerPixel", Uint8),
    Basic("BytesPerPixel", Uint8), ArrayOf("_", Uint8, 2)]

  const PixelFormatMasks: Fields := [
    Basic("Rmask", Uint32), Basic("Gmask", Uint32), Basic("Bmask", Uint32), Basic("Amask", Uint32)]

  const PixelFormatLoss: Fields := [
    Basic("Rloss", Uint8), Basic("Gloss", Uint8), Basic("Bloss", Uint8), Basic("Aloss", Uint8)]

  const PixelFormatShift: Fields := [
    Basic("Rshift", Uint8), Basic("Gshift", Uint8), Basic("Bshift", Uint8), Basic("Ashift", Uint8)]

  const PixelFormatLinks: Fields := [Basic("refcount", Int32), Basic("next", Ptr)]

  const SurfaceHead: Fields := [
    Basic("flags", Uint32), Basic("Format", Ptr), Basic("W", Int32), Basic("H", Int32)]

  const SurfacePixels: Fields := [
    Basic("Pitch", Int32), Basic("pixels", Uintptr), Basic("Userdata", Uintptr),
    Basic("locked", Int32)]

  const SurfaceTail: Fields := [
    Basic("lock_data", Uintptr), Field("Clip_rect", Struct, 16, 4), Basic("_map", Uintptr),
    Basic("Refcount", Int32)]

  // ---------------------------------------------------------------------
  // The records.

  const WindowEvent: Fields := Header + (WindowIdent + WindowData)

  const KeyboardEvent: Fields := Header + (KeyboardState + KeyboardKeysym)

  const TextEditingEvent: Fields := Header + TextEditingBody

  const TextInputEvent: Fields := Header + TextInputBody

  const MouseMotionEvent: Fields := Header + (MouseIds + MouseMotionState + MouseMotionCoords)

  const MouseButtonEvent: Fields := Header + (MouseIds + MouseButtonState + MousePosition)

  const MouseWheelEvent: Fields := Header + (MouseIds + MousePosition)

  const JoyAxisEvent: Fields := Header + (AxisSelect + AxisValue)

  const JoyBallEvent: Fields := Header + (BallSelect + BallMotion)

  const JoyHatEvent: Fields := Header + HatBody

  const JoyButtonEvent: Fields := Header + ButtonBody

  const JoyDeviceEvent: Fields := Header + DeviceBody

  const ControllerAxisEvent: Fields := Header + (AxisSelect + AxisValue)

  const ControllerButtonEvent: Fields := Header + ButtonBody

  const ControllerDeviceEvent: Fields := Header + DeviceBody

  /** Float fields are opaque 4-byte cells: their kind is recorded, not their meaning. */
  const TouchFingerEvent: Fields := Header + (FingerIds + FingerMotion + FingerPressure)

  const MultiGestureEvent: Fields := Header + (MultiGestureMotion + MultiGestureCentre)

  const DollarGestureEvent: Fields := Header + (DollarGestureIds + DollarGestureResult)

  const DropEvent: Fields := Header + DropBody

  const QuitEvent: Fields := Header

  const UserEvent: Fields := Header + UserBody

  const SysWMEvent: Fields := Header + SysWMBody

  const PixelFormat: Fields := PixelFormatHead + PixelFormatMasks + PixelFormatLoss + PixelFormatShift + PixelFormatLinks

  const Surface: Fields := SurfaceHead + SurfacePixels + SurfaceTail

  const EventUnion: Fields := [Basic("Type", Uint32), ArrayOf("_", Uint8, 52)]

  const JoystickGUID: Fields := [ArrayOf("Data", Uint8, 16)]

  const Color: Fields := [Basic("R", Uint8), Basic("G", Uint8), Basic("B", Uint8), Basic("A", Uint8)]

  const Palette: Fields := [
    Basic("ncolors", Int32), Basic("colors", Uintptr), Basic("version", Uint32),
    Basic("refcount", Int32)]

  const Point: Fields := [Basic("X", Int32), Basic("Y", Int32)]

  const Rect: Fields := [Basic("X", Int32), Basic("Y", Int32), Basic("W", Int32), Basic("H", Int32)]

  const Version: Fields := [Basic("Major", Uint8), Basic("Minor", Uint8), Basic("Patch", Uint8)]

  const DisplayMode: Fields := [
    Basic("Format", Uint32), Basic("W", Int32), Basic("H", Int32),
    Basic("RefreshRate", Int32), Basic("Driverdata", Ptr)]

  // ---------------------------------------------------------------------
  // Each word group needs no padding, so the Go compiler adds none anywhere:
  // every offset is the running sum of the widths before it.

  lemma HeaderWords()
    ensures Words(Header, 8)
  {
  }

  lemma WindowIdentWords()
    ensures Words(WindowIdent, 8)
  {
    assert RunningOffset(WindowIdent, 2) == 5 && PackedTo(WindowIdent, 2);
    assert RunningOffset(WindowIdent, 4) == 7 && PackedTo(WindowIdent, 4);
  }

  lemma WindowDataWords()
    ensures Words(WindowData, 8)
  {
  }

  lemma KeysymWords()
    ensures Words(Keysym, 16)
  {
    assert RunningOffset(Keysym, 2) == 8 && PackedTo(Keysym, 2);
    assert RunningOffset(Keysym, 4) == 12 && PackedTo(Keysym, 4);
  }

  lemma KeyboardStateWords()
    ensures Words(KeyboardState, 8)
  {
    assert RunningOffset(KeyboardState, 2) == 5 && PackedTo(KeyboardState, 2);
    assert RunningOffset(KeyboardState, 4) == 7 && PackedTo(KeyboardState, 4);
  }

  lemma KeyboardKeysymWords()
    ensures Words(KeyboardKeysym, 16)
  {
  }

  lemma TextEditingBodyWords()
    ensures Words(TextEditingBody, 44)
  {
    assert RunningOffset(TextEditingBody, 2) == 36 && PackedTo(TextEditingBody, 2);
  }

  lemma TextInputBodyWords()
    ensures Words(TextInputBody, 36)
  {
  }

  lemma MouseIdsWords()
    ensures Words(MouseIds, 8)
  {
  }

  lemma MouseMotionStateWords()
    ensures Words(MouseMotionState, 4)
  {
    assert RunningOffset(MouseMotionState, 2) == 2 && PackedTo(MouseMotionState, 2);
  }

  lemma MouseMotionCoordsWords()
    ensures Words(MouseMotionCoords, 16)
  {
    assert RunningOffset(MouseMotionCoords, 2) == 8 && PackedTo(MouseMotionCoords, 2);
  }

  lemma MouseButtonStateWords()
    ensures Words(MouseButtonState, 4)
  {
    assert RunningOffset(MouseButtonState, 2) == 2 && PackedTo(MouseButtonState, 2);
  }

  lemma MousePositionWords()
    ensures Words(MousePosition, 8)
  {
  }

  lemma AxisSelectWords()
    ensures Words(AxisSelect, 8)
  {
    assert RunningOffset(AxisSelect, 2) == 5 && PackedTo(AxisSelect, 2);
    assert RunningOffset(AxisSelect, 4) == 7 && PackedTo(AxisSelect, 4);
  }

  lemma AxisValueWords()
    ensures Words(AxisValue, 4)
  {
  }

  lemma BallSelectWords()
    ensures Words(BallSelect, 8)
  {
    assert RunningOffset(BallSelect, 2) == 5 && PackedTo(BallSelect, 2);
    assert RunningOffset(BallSelect, 4) == 7 && PackedTo(BallSelect, 4);
  }

  lemma BallMotionWords()
    ensures Words(BallMotion, 4)
  {
  }

  lemma HatBodyWords()
    ensures Words(HatBody, 8)
  {
    assert RunningOffset(HatBody, 2) == 5 && PackedTo(HatBody, 2);
    assert RunningOffset(HatBody, 4) == 7 && PackedTo(HatBody, 4);
  }

  lemma ButtonBodyWords()
    ensures Words(ButtonBody, 8)
  {
    assert RunningOffset(ButtonBody, 2) == 5 && PackedTo(ButtonBody, 2);
    assert RunningOffset(ButtonBody, 4) == 7 && PackedTo(ButtonBody, 4);
  }

  lemma DeviceBodyWords()
    ensures Words(DeviceBody, 4)
  {
  }

  lemma FingerIdsWords()
    ensures Words(FingerIds, 16)
  {
  }

  lemma FingerMotionWords()
    ensures Words(FingerMotion, 16)
  {
    assert RunningOffset(FingerMotion, 2) == 8 && PackedTo(FingerMotion, 2);
  }

  lemma FingerPressureWords()
    ensures Words(FingerPressure, 8)
  {
  }

  lemma MultiGestureMotionWords()
    ensures Words(MultiGestureMotion, 16)
  {
    assert RunningOffset(MultiGestureMotion, 2) == 12 && PackedTo(MultiGestureMotion, 2);
  }

  lemma MultiGestureCentreWords()
    ensures Words(MultiGestureCentre, 16)
  {
    assert RunningOffset(MultiGestureCentre, 2) == 8 && PackedTo(MultiGestureCentre, 2);
    assert RunningOffset(MultiGestureCentre, 4) == 12 && PackedTo(MultiGestureCentre, 4);
  }

  lemma DollarGestureIdsWords()
    ensures Words(DollarGestureIds, 16)
  {
  }

  lemma DollarGestureResultWords()
    ensures Words(DollarGestureResult, 16)
  {
    assert RunningOffset(DollarGestureResult, 2) == 8 && PackedTo(DollarGestureResult, 2);
  }

  lemma DropBodyWords()
    ensures Words(DropBody, 4)
  {
  }

  lemma UserBodyWords()
    ensures Words(UserBody, 16)
  {
    assert RunningOffset(UserBody, 2) == 8 && PackedTo(UserBody, 2);
  }

  lemma SysWMBodyWords()
    ensures Words(SysWMBody, 4)
  {
  }

  lemma PixelFormatHeadWords()
    ensures Words(PixelFormatHead, 12)
  {
    assert RunningOffset(PixelFormatHead, 2) == 8 && PackedTo(PixelFormatHead, 2);
    assert RunningOffset(PixelFormatHead, 4) == 10 && PackedTo(PixelFormatHead, 4);
  }

  lemma PixelFormatMasksWords()
    ensures Words(PixelFormatMasks, 16)
  {
    assert RunningOffset(PixelFormatMasks, 2) == 8 && PackedTo(PixelFormatMasks, 2);
  }

  lemma PixelFormatLossWords()
    ensures Words(PixelFormatLoss, 4)
  {
    assert RunningOffset(PixelFormatLoss, 2) == 2 && PackedTo(PixelFormatLoss, 2);
  }

  lemma PixelFormatShiftWords()
    ensures Words(PixelFormatShift, 4)
  {
    assert RunningOffset(PixelFormatShift, 2) == 2 && PackedTo(PixelFormatShift, 2);
  }

  lemma PixelFormatLinksWords()
    ensures Words(PixelFormatLinks, 8)
  {
  }

  lemma SurfaceHeadWords()
    ensures Words(SurfaceHead, 16)
  {
    assert RunningOffset(SurfaceHead, 2) == 8 && PackedTo(SurfaceHead, 2);
  }

  lemma SurfacePixelsWords()
    ensures Words(SurfacePixels, 16)
  {
    assert RunningOffset(SurfacePixels, 2) == 8 && PackedTo(SurfacePixels, 2);
  }

  lemma SurfaceTailWords()
    ensures Words(SurfaceTail, 28)
  {
    assert RunningOffset(SurfaceTail, 2) == 20 && PackedTo(SurfaceTail, 2);
  }

  lemma WindowEventLayout()
    ensures Packed(WindowEvent) && SizeOf(WindowEvent) == 24
    ensures WindowEvent[7].name == "Data1" && Offset(WindowEvent, 7) == 16
  {
    WindowIdentWords();
    WindowDataWords();
    PackedAppend(WindowIdent, WindowData, 8, 8);
    HeaderWords();
    PackedAppend(Header, WindowIdent + WindowData, 8, 16);
    PackedWords(WindowEvent, 24);
    PackedOffset(WindowEvent, 7);
    PackedPrefix(WindowIdent + WindowData, 5, 7);
    AppendSuffix(Header, WindowIdent + WindowData, 8, 5);
    AppendSuffix(WindowIdent, WindowData, 8, 0);
  }

  lemma KeysymLayout()
    ensures Packed(Keysym) && SizeOf(Keysym) == 16
  {
    KeysymWords();
    PackedWords(Keysym, 16);
  }

  lemma KeyboardEventLayout()
    ensures Packed(KeyboardEvent) && SizeOf(KeyboardEvent) == 32
    ensures KeyboardEvent[7].name == "Keysym" && Offset(KeyboardEvent, 7) == 16
  {
    KeyboardStateWords();
    KeyboardKeysymWords();
    PackedAppend(KeyboardState, KeyboardKeysym, 8, 16);
    HeaderWords();
    PackedAppend(Header, KeyboardState + KeyboardKeysym, 8, 24);
    PackedWords(KeyboardEvent, 32);
    PackedOffset(KeyboardEvent, 7);
    PackedPrefix(KeyboardState + KeyboardKeysym, 5, 6);
    AppendSuffix(Header, KeyboardState + KeyboardKeysym, 8, 5);
    AppendSuffix(KeyboardState, KeyboardKeysym, 8, 0);
  }

  lemma TextEditingEventLayout()
    ensures Packed(TextEditingEvent) && SizeOf(TextEditingEvent) == 52
    ensures TextEditingEvent[3].name == "Text" && TextEditingEvent[3].size == 32
  {
    HeaderWords();
    TextEditingBodyWords();
    PackedAppend(Header, TextEditingBody, 8, 44);
    PackedWords(TextEditingEvent, 52);
  }

  lemma TextInputEventLayout()
    ensures Packed(TextInputEvent) && SizeOf(TextInputEvent) == 44
  {
    HeaderWords();
    TextInputBodyWords();
    PackedAppend(Header, TextInputBody, 8, 36);
    PackedWords(TextInputEvent, 44);
  }

  lemma MouseMotionEventLayout()
    ensures Packed(MouseMotionEvent) && SizeOf(MouseMotionEvent) == 36
  {
    MouseIdsWords();
    MouseMotionStateWords();
    PackedAppend(MouseIds, MouseMotionState, 8, 4);
    MouseMotionCoordsWords();
    PackedAppend(MouseIds + MouseMotionState, MouseMotionCoords, 12, 16);
    HeaderWords();
    PackedAppend(Header, MouseIds + MouseMotionState + MouseMotionCoords, 8, 28);
    PackedWords(MouseMotionEvent, 36);
  }

  lemma MouseButtonEventLayout()
    ensures Packed(MouseButtonEvent) && SizeOf(MouseButtonEvent) == 28
  {
    MouseIdsWords();
    MouseButtonStateWords();
    PackedAppend(MouseIds, MouseButtonState, 8, 4);
    MousePositionWords();
    PackedAppend(MouseIds + MouseButtonState, MousePosition, 12, 8);
    HeaderWords();
    PackedAppend(Header, MouseIds + MouseButtonState + MousePosition, 8, 20);
    PackedWords(MouseButtonEvent, 28);
  }

  lemma MouseWheelEventLayout()
    ensures Packed(MouseWheelEvent) && SizeOf(MouseWheelEvent) == 24
  {
    MouseIdsWords();
    MousePositionWords();
    PackedAppend(MouseIds, MousePosition, 8, 8);
    HeaderWords();
    PackedAppend(Header, MouseIds + MousePosition, 8, 16);
    PackedWords(MouseWheelEvent, 24);
  }

  lemma JoyAxisEventLayout()
    ensures Packed(JoyAxisEvent) && SizeOf(JoyAxisEvent) == 20
  {
    AxisSelectWords();
    AxisValueWords();
    PackedAppend(AxisSelect, AxisValue, 8, 4);
    HeaderWords();
    PackedAppend(Header, AxisSelect + AxisValue, 8, 12);
    PackedWords(JoyAxisEvent, 20);
  }

  lemma JoyBallEventLayout()
    ensures Packed(JoyBallEvent) && SizeOf(JoyBallEvent) == 20
  {
    BallSelectWords();
    BallMotionWords();
    PackedAppend(BallSelect, BallMotion, 8, 4);
    HeaderWords();
    PackedAppend(Header, BallSelect + BallMotion, 8, 12);
    PackedWords(JoyBallEvent, 20);
  }

  lemma JoyHatEventLayout()
    ensures Packed(JoyHatEvent) && SizeOf(JoyHatEvent) == 16
  {
    HeaderWords();
    HatBodyWords();
    PackedAppend(Header, HatBody, 8, 8);
    PackedWords(JoyHatEvent, 16);
  }

  lemma JoyButtonEventLayout()
    ensures Packed(JoyButtonEvent) && SizeOf(JoyButtonEvent) == 16
  {
    HeaderWords();
    ButtonBodyWords();
    PackedAppend(Header, ButtonBody, 8, 8);
    PackedWords(JoyButtonEvent, 16);
  }

  lemma JoyDeviceEventLayout()
    ensures Packed(JoyDeviceEvent) && SizeOf(JoyDeviceEvent) == 12
  {
    HeaderWords();
    DeviceBodyWords();
    PackedAppend(Header, DeviceBody, 8, 4);
    PackedWords(JoyDeviceEvent, 12);
  }

  lemma ControllerAxisEventLayout()
    ensures Packed(ControllerAxisEvent) && SizeOf(ControllerAxisEvent) == 20
  {
    AxisSelectWords();
    AxisValueWords();
    PackedAppend(AxisSelect, AxisValue, 8, 4);
    HeaderWords();
    PackedAppend(Header, AxisSelect + AxisValue, 8, 12);
    PackedWords(ControllerAxisEvent, 20);
  }

  lemma ControllerButtonEventLayout()
    ensures Packed(ControllerButtonEvent) && SizeOf(ControllerButtonEvent) == 16
  {
    HeaderWords();
    ButtonBodyWords();
    PackedAppend(Header, ButtonBody, 8, 8);
    PackedWords(ControllerButtonEvent, 16);
  }

  lemma ControllerDeviceEventLayout()
    ensures Packed(ControllerDeviceEvent) && SizeOf(ControllerDeviceEvent) == 12
  {
    HeaderWords();
    DeviceBodyWords();
    PackedAppend(Header, DeviceBody, 8, 4);
    PackedWords(ControllerDeviceEvent, 12);
  }

  lemma TouchFingerEventLayout()
    ensures Packed(TouchFingerEvent) && SizeOf(TouchFingerEvent) == 48
  {
    FingerIdsWords();
    FingerMotionWords();
    PackedAppend(FingerIds, FingerMotion, 16, 16);
    FingerPressureWords();
    PackedAppend(FingerIds + FingerMotion, FingerPressure, 32, 8);
    HeaderWords();
    PackedAppend(Header, FingerIds + FingerMotion + FingerPressure, 8, 40);
    PackedWords(TouchFingerEvent, 48);
  }

  lemma MultiGestureEventLayout()
    ensures Packed(MultiGestureEvent) && SizeOf(MultiGestureEvent) == 40
  {
    MultiGestureMotionWords();
    MultiGestureCentreWords();
    PackedAppend(MultiGestureMotion, MultiGestureCentre, 16, 16);
    HeaderWords();
    PackedAppend(Header, MultiGestureMotion + MultiGestureCentre, 8, 32);
    PackedWords(MultiGestureEvent, 40);
  }

  lemma DollarGestureEventLayout()
    ensures Packed(DollarGestureEvent) && SizeOf(DollarGestureEvent) == 40
  {
    DollarGestureIdsWords();
    DollarGestureResultWords();
    PackedAppend(DollarGestureIds, DollarGestureResult, 16, 16);
    HeaderWords();
    PackedAppend(Header, DollarGestureIds + DollarGestureResult, 8, 32);
    PackedWords(DollarGestureEvent, 40);
  }

  lemma DropEventLayout()
    ensures Packed(DropEvent) && SizeOf(DropEvent) == 12
    ensures DropEvent[2].name == "file" && DropEvent[2].kind == Ptr
    ensures Offset(DropEvent, 2) == 8 && DropEvent[2].size == 4
  {
    HeaderWords();
    DropBodyWords();
    PackedAppend(Header, DropBody, 8, 4);
    PackedWords(DropEvent, 12);
    PackedOffset(DropEvent, 2);
    AppendSuffix(Header, DropBody, 8, 0);
  }

  lemma QuitEventLayout()
    ensures Packed(QuitEvent) && SizeOf(QuitEvent) == 8
  {
    HeaderWords();
    PackedWords(QuitEvent, 8);
  }

  lemma UserEventLayout()
    ensures Packed(UserEvent) && SizeOf(UserEvent) == 24
    ensures UserEvent[4].name == "Data1" && UserEvent[4].kind == Uintptr && UserEvent[4].size == 4
    ensures UserEvent[5].name == "Data2" && UserEvent[5].kind == Uintptr && UserEvent[5].size == 4
  {
    HeaderWords();
    UserBodyWords();
    PackedAppend(Header, UserBody, 8, 16);
    PackedWords(UserEvent, 24);
  }

  lemma SysWMEventLayout()
    ensures Packed(SysWMEvent) && SizeOf(SysWMEvent) == 12
  {
    HeaderWords();
    SysWMBodyWords();
    PackedAppend(Header, SysWMBody, 8, 4);
    PackedWords(SysWMEvent, 12);
  }

  lemma PixelFormatLayout()
    ensures Packed(PixelFormat) && SizeOf(PixelFormat) == 44
  {
    PixelFormatHeadWords();
    PixelFormatMasksWords();
    PackedAppend(PixelFormatHead, PixelFormatMasks, 12, 16);
    PixelFormatLossWords();
    PackedAppend(PixelFormatHead + PixelFormatMasks, PixelFormatLoss, 28, 4);
    PixelFormatShiftWords();
    PackedAppend(PixelFormatHead + PixelFormatMasks + PixelFormatLoss, PixelFormatShift, 32, 4);
    PixelFormatLinksWords();
    PackedAppend(PixelFormatHead + PixelFormatMasks + PixelFormatLoss + PixelFormatShift, PixelFormatLinks, 36, 8);
    PackedWords(PixelFormat, 44);
  }

  lemma SurfaceLayout()
    ensures Packed(Surface) && SizeOf(Surface) == 60
  {
    SurfaceHeadWords();
    SurfacePixelsWords();
    PackedAppend(SurfaceHead, SurfacePixels, 16, 16);
    SurfaceTailWords();
    PackedAppend(SurfaceHead + SurfacePixels, SurfaceTail, 32, 28);
    PackedWords(Surface, 60);
  }

  /** Every event record starting with the header has Type at offset 0 and Timestamp at offset 4. */
  lemma EventHeader(rest: Fields)
    ensures |Header + rest| >= 2
    ensures (Header + rest)[0] == Basic("Type", Uint32) && Offset(Header + rest, 0) == 0
    ensures (Header + rest)[1] == Basic("Timestamp", Uint32) && Offset(Header + rest, 1) == 4
  {
  }

  /** The Keysym field of KeyboardEvent is the Keysym struct, laid out as a unit: 16 bytes, 4-aligned. */
  lemma KeysymNested()
    ensures KeyboardEvent[7] == Nested("Keysym", Keysym)
  {
    KeysymLayout();
  }

  lemma EventUnionLayout()
    ensures Packed(EventUnion) && SizeOf(EventUnion) == 56
    ensures EventUnion[0].name == "Type" && EventUnion[0].size == 4
    ensures EventUnion[1].name == "_" && Offset(EventUnion, 1) == 4 && EventUnion[1].size == 52
  {
    assert RunningOffset(EventUnion, 1) == 4 && PackedTo(EventUnion, 1);
    assert Words(EventUnion, 56);
    PackedWords(EventUnion, 56);
    PackedOffset(EventUnion, 1);
  }

  lemma JoystickGUIDLayout()
    ensures Packed(JoystickGUID) && SizeOf(JoystickGUID) == 16
  {
    assert RunningOffset(JoystickGUID, 1) == 16 && PackedTo(JoystickGUID, 1);
    PackedLayout(JoystickGUID);
  }

  lemma ColorLayout()
    ensures Packed(Color) && SizeOf(Color) == 4
  {
    assert RunningOffset(Color, 2) == 2 && PackedTo(Color, 2);
    assert RunningOffset(Color, 4) == 4 && PackedTo(Color, 4);
    PackedLayout(Color);
  }

  lemma PaletteLayout()
    ensures Packed(Palette) && SizeOf(Palette) == 16
  {
    assert RunningOffset(Palette, 2) == 8 && PackedTo(Palette, 2);
    assert Words(Palette, 16);
    PackedWords(Palette, 16);
  }

  lemma PointLayout()
    ensures Packed(Point) && SizeOf(Point) == 8
  {
    assert RunningOffset(Point, 1) == 4 && PackedTo(Point, 1);
    assert Words(Point, 8);
    PackedWords(Point, 8);
  }

  lemma RectLayout()
    ensures Packed(Rect) && SizeOf(Rect) == 16
  {
    assert RunningOffset(Rect, 2) == 8 && PackedTo(Rect, 2);
    assert Words(Rect, 16);
    PackedWords(Rect, 16);
  }

  /** The Clip_rect field of Surface is the Rect struct, laid out as a unit. */
  lemma ClipRectNested()
    ensures Surface[9] == Nested("Clip_rect", Rect)
  {
    RectLayout();
  }

  lemma VersionLayout()
    ensures Packed(Version) && SizeOf(Version) == 3
  {
    assert RunningOffset(Version, 3) == 3 && PackedTo(Version, 3);
    PackedLayout(Version);
  }

  lemma DisplayModeLayout()
    ensures Packed(DisplayMode) && SizeOf(DisplayMode) == 20
  {
    assert RunningOffset(DisplayMode, 2) == 8 && PackedTo(DisplayMode, 2);
    assert RunningOffset(DisplayMode, 4) == 16 && PackedTo(DisplayMode, 4);
    assert Words(DisplayMode, 20);
    PackedWords(DisplayMode, 20);
  }
}
