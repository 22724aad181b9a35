/**
 * The event bridge of events.go: which 32-bit tags the binding accepts,
 * how a generic 56-byte SDL_Event buffer is reinterpreted as one of the 22
 * concrete records, how a concrete record is copied back into a buffer,
 * how a tag is named, and the one C string a DropEvent owns.
 *
 * The tag values are SDL2's (SDL_events.h), which the binding re-exports.
 */
module Events {
  import opened Base
  import opened Layout
  import opened Structs386

  type EventType = uint32

  const FIRSTEVENT: EventType := 0
  const QUIT: EventType := 0x100
  const WINDOWEVENT: EventType := 0x200
  const SYSWMEVENT: EventType := 0x201
  const KEYDOWN: EventType := 0x300
  const KEYUP: EventType := 0x301
  const TEXTEDITING: EventType := 0x302
  const TEXTINPUT: EventType := 0x303
  const MOUSEMOTION: EventType := 0x400
  const MOUSEBUTTONDOWN: EventType := 0x401
  const MOUSEBUTTONUP: EventType := 0x402
  const MOUSEWHEEL: EventType := 0x403
  const JOYAXISMOTION: EventType := 0x600
  const JOYBALLMOTION: EventType := 0x601
  const JOYHATMOTION: EventType := 0x602
  const JOYBUTTONDOWN: EventType := 0x603
  const JOYBUTTONUP: EventType := 0x604
  const JOYDEVICEADDED: EventType := 0x605
  const JOYDEVICEREMOVED: EventType := 0x606
  const CONTROLLERAXISMOTION: EventType := 0x650
  const CONTROLLERBUTTONDOWN: EventType := 0x651
  const CONTROLLERBUTTONUP: EventType := 0x652
  const CONTROLLERDEVICEADDED: EventType := 0x653
  const CONTROLLERDEVICEREMOVED: EventType := 0x654
  const CONTROLLERDEVICEREMAPPED: EventType := 0x655
  const FINGERDOWN: EventType := 0x700
  const FINGERUP: EventType := 0x701
  const FINGERMOTION: EventType := 0x702
  const DOLLARGESTURE: EventType := 0x800
  const DOLLARRECORD: EventType := 0x801
  const MULTIGESTURE: EventType := 0x802
  const CLIPBOARDUPDATE: EventType := 0x900
  const DROPFILE: EventType := 0x1000
  const USEREVENT: EventType := 0x8000
  const LASTEVENT: EventType := 0xFFFF

  /** Button states carried by keyboard, mouse, joystick and controller events. */
  const RELEASED: uint8 := 0
  const PRESSED: uint8 := 1

  /** The named tags the bridge accepts: every named tag except FIRSTEVENT, DOLLARRECORD, CLIPBOARDUPDATE. */
  const NamedTags: set<EventType> := {
    QUIT, WINDOWEVENT, SYSWMEVENT,
    KEYDOWN, KEYUP, TEXTEDITING, TEXTINPUT,
    MOUSEMOTION, MOUSEBUTTONDOWN, MOUSEBUTTONUP, MOUSEWHEEL,
    JOYAXISMOTION, JOYBALLMOTION, JOYHATMOTION, JOYBUTTONDOWN, JOYBUTTONUP,
    JOYDEVICEADDED, JOYDEVICEREMOVED,
    CONTROLLERAXISMOTION, CONTROLLERBUTTONDOWN, CONTROLLERBUTTONUP,
    CONTROLLERDEVICEADDED, CONTROLLERDEVICEREMOVED, CONTROLLERDEVICEREMAPPED,
    FINGERDOWN, FINGERUP, FINGERMOTION,
    DOLLARGESTURE, MULTIGESTURE, DROPFILE}

  predicate InUserRange(t: EventType)
  {
    USEREVENT <= t <= LASTEVENT
  }

  /** validEventType: the switch of the binding, case by case. */
  function ValidEventType(t: EventType): (ok: bool)
    ensures ok <==> t in NamedTags || InUserRange(t)
  {
    if t == QUIT then true
    else if t == WINDOWEVENT then true
    else if t == SYSWMEVENT then true
    else if t == KEYDOWN then true
    else if t == KEYUP then true
    else if t == TEXTEDITING then true
    else if t == TEXTINPUT then true
    else if t == MOUSEMOTION then true
    else if t == MOUSEBUTTONDOWN then true
    else if t == MOUSEBUTTONUP then true
    else if t == MOUSEWHEEL then true
    else if t == JOYAXISMOTION then true
    else if t == JOYBALLMOTION then true
    else if t == JOYHATMOTION then true
    else if t == JOYBUTTONDOWN then true
    else if t == JOYBUTTONUP then true
    else if t == JOYDEVICEADDED then true
    else if t == JOYDEVICEREMOVED then true
    else if t == CONTROLLERAXISMOTION then true
    else if t == CONTROLLERBUTTONDOWN then true
    else if t == CONTROLLERBUTTONUP then true
    else if t == CONTROLLERDEVICEADDED then true
    else if t == CONTROLLERDEVICEREMOVED then true
    else if t == CONTROLLERDEVICEREMAPPED then true
    else if t == FINGERDOWN then true
    else if t == FINGERUP then true
    else if t == FINGERMOTION then true
    else if t == DOLLARGESTURE then true
    else if t == DOLLARRECORD then false
    else if t == MULTIGESTURE then true
    else if t == CLIPBOARDUPDATE then false
    else if t == DROPFILE then true
    else if t >= USEREVENT && t <= LASTEVENT then true
    else false
  }

  /** The three named tags that are refused, and the bounds of the user range. */
  lemma RefusedTags()
    ensures !ValidEventType(FIRSTEVENT) && !ValidEventType(DOLLARRECORD)
    ensures !ValidEventType(CLIPBOARDUPDATE)
    ensures ValidEventType(USEREVENT) && ValidEventType(LASTEVENT)
    ensures !ValidEventType(USEREVENT - 1) && !ValidEventType(LASTEVENT + 1)
  {
  }

  // ---------------------------------------------------------------------
  // The 22 concrete records.

  datatype RecordKind =
    | Quit | Window | SysWM | Keyboard | TextEditing | TextInput
    | MouseMotion | MouseButton | MouseWheel
    | JoyAxis | JoyBall | JoyHat | JoyButton | JoyDevice
    | ControllerAxis | ControllerButton | ControllerDevice
    | TouchFinger | MultiGesture | DollarGesture | Drop | User

  /** The case of Convert's switch that a valid tag falls into; the default is UserEvent. */
  function KindForTag(t: EventType): (k: RecordKind)
    ensures ValidEventType(t) ==> t in Tags(k)
    ensures k == User <==> t !in NamedTags
  {
    if t == QUIT then Quit
    else if t == WINDOWEVENT then Window
    else if t == SYSWMEVENT then SysWM
    else if t == KEYDOWN || t == KEYUP then Keyboard
    else if t == TEXTEDITING then TextEditing
    else if t == TEXTINPUT then TextInput
    else if t == MOUSEMOTION then MouseMotion
    else if t == MOUSEBUTTONDOWN || t == MOUSEBUTTONUP then MouseButton
    else if t == MOUSEWHEEL then MouseWheel
    else if t == JOYAXISMOTION then JoyAxis
    else if t == JOYBALLMOTION then JoyBall
    else if t == JOYHATMOTION then JoyHat
    else if t == JOYBUTTONDOWN || t == JOYBUTTONUP then JoyButton
    else if t == JOYDEVICEADDED || t == JOYDEVICEREMOVED then JoyDevice
    else if t == CONTROLLERAXISMOTION then ControllerAxis
    else if t == CONTROLLERBUTTONDOWN || t == CONTROLLERBUTTONUP then ControllerButton
    else if t == CONTROLLERDEVICEADDED || t == CONTROLLERDEVICEREMOVED
         || t == CONTROLLERDEVICEREMAPPED then ControllerDevice
    else if t == FINGERMOTION || t == FINGERDOWN || t == FINGERUP then TouchFinger
    else if t == MULTIGESTURE then MultiGesture
    else if t == DOLLARGESTURE then DollarGesture
    else if t == DROPFILE then Drop
    else User
  }

  /** The accepted tags that SDL stores in each record, as SDL's documentation pairs them. */
  function Tags(k: RecordKind): set<EventType>
  {
    match k
    case Quit => {QUIT}
    case Window => {WINDOWEVENT}
    case SysWM => {SYSWMEVENT}
    case Keyboard => {KEYDOWN, KEYUP}
    case TextEditing => {TEXTEDITING}
    case TextInput => {TEXTINPUT}
    case MouseMotion => {MOUSEMOTION}
    case MouseButton => {MOUSEBUTTONDOWN, MOUSEBUTTONUP}
    case MouseWheel => {MOUSEWHEEL}
    case JoyAxis => {JOYAXISMOTION}
    case JoyBall => {JOYBALLMOTION}
    case JoyHat => {JOYHATMOTION}
    case JoyButton => {JOYBUTTONDOWN, JOYBUTTONUP}
    case JoyDevice => {JOYDEVICEADDED, JOYDEVICEREMOVED}
    case ControllerAxis => {CONTROLLERAXISMOTION}
    case ControllerButton => {CONTROLLERBUTTONDOWN, CONTROLLERBUTTONUP}
    case ControllerDevice => {CONTROLLERDEVICEADDED, CONTROLLERDEVICEREMOVED, CONTROLLERDEVICEREMAPPED}
    case TouchFinger => {FINGERDOWN, FINGERUP, FINGERMOTION}
    case MultiGesture => {MULTIGESTURE}
    case DollarGesture => {DOLLARGESTURE}
    case Drop => {DROPFILE}
    case User => set t: EventType | InUserRange(t)
  }

  /** Every accepted tag is dispatched to the record SDL stores it in. */
  lemma DispatchComplete(t: EventType)
    requires ValidEventType(t)
    ensures t in Tags(KindForTag(t))
  {
  }

  /** Every tag of a record is accepted and dispatched to that record, and to no other. */
  lemma DispatchSound(t: EventType, k: RecordKind)
    requires t in Tags(k)
    ensures ValidEventType(t) && KindForTag(t) == k
  {
  }

  /** The Go field list of each record. */
  function RecordFields(k: RecordKind): Fields
  {
    match k
    case Quit => QuitEvent
    case Window => WindowEvent
    case SysWM => SysWMEvent
    case Keyboard => KeyboardEvent
    case TextEditing => TextEditingEvent
    case TextInput => TextInputEvent
    case MouseMotion => MouseMotionEvent
    case MouseButton => MouseButtonEvent
    case MouseWheel => MouseWheelEvent
    case JoyAxis => JoyAxisEvent
    case JoyBall => JoyBallEvent
    case JoyHat => JoyHatEvent
    case JoyButton => JoyButtonEvent
    case JoyDevice => JoyDeviceEvent
    case ControllerAxis => ControllerAxisEvent
    case ControllerButton => ControllerButtonEvent
    case ControllerDevice => ControllerDeviceEvent
    case TouchFinger => TouchFingerEvent
    case MultiGesture => MultiGestureEvent
    case DollarGesture => DollarGestureEvent
    case Drop => DropEvent
    case User => UserEvent
  }

  /** unsafe.Sizeof of each record on 386. */
  function RecordSize(k: RecordKind): nat
  {
    match k
    case Quit => 8
    case Window => 24
    case SysWM => 12
    case Keyboard => 32
    case TextEditing => 52
    case TextInput => 44
    case MouseMotion => 36
    case MouseButton => 28
    case MouseWheel => 24
    case JoyAxis => 20
    case JoyBall => 20
    case JoyHat => 16
    case JoyButton => 16
    case JoyDevice => 12
    case ControllerAxis => 20
    case ControllerButton => 16
    case ControllerDevice => 12
    case TouchFinger => 48
    case MultiGesture => 40
    case DollarGesture => 40
    case Drop => 12
    case User => 24
  }

  /** The sizes are those of the field lists, and every list is padding-free. */
  lemma RecordLayout(k: RecordKind)
    ensures Packed(RecordFields(k)) && SizeOf(RecordFields(k)) == RecordSize(k)
  {
    match k
    case Quit => QuitEventLayout();
    case Window => WindowEventLayout();
    case SysWM => SysWMEventLayout();
    case Keyboard => KeyboardEventLayout();
    case TextEditing => TextEditingEventLayout();
    case TextInput => TextInputEventLayout();
    case MouseMotion => MouseMotionEventLayout();
    case MouseButton => MouseButtonEventLayout();
    case MouseWheel => MouseWheelEventLayout();
    case JoyAxis => JoyAxisEventLayout();
    case JoyBall => JoyBallEventLayout();
    case JoyHat => JoyHatEventLayout();
    case JoyButton => JoyButtonEventLayout();
    case JoyDevice => JoyDeviceEventLayout();
    case ControllerAxis => ControllerAxisEventLayout();
    case ControllerButton => ControllerButtonEventLayout();
    case ControllerDevice => ControllerDeviceEventLayout();
    case TouchFinger => TouchFingerEventLayout();
    case MultiGesture => MultiGestureEventLayout();
    case DollarGesture => DollarGestureEventLayout();
    case Drop => DropEventLayout();
    case User => UserEventLayout();
  }

  /** Every record fits in the 56-byte union; TextEditingEvent, at 52 bytes, is the largest. */
  lemma RecordsFit(k: RecordKind)
    ensures RecordSize(k) <= RecordSize(TextEditing) == 52 < SizeOf(EventUnion) == 56
  {
    EventUnionLayout();
  }

  /** Every record starts with the 4-byte Type at offset 0 and the 4-byte Timestamp at offset 4. */
  lemma RecordHeader(k: RecordKind)
    ensures |RecordFields(k)| >= 2
    ensures RecordFields(k)[0] == Basic("Type", Uint32) && Offset(RecordFields(k), 0) == 0
    ensures RecordFields(k)[1] == Basic("Timestamp", Uint32) && Offset(RecordFields(k), 1) == 4
  {
    match k
    case Quit => assert Header + [] == Header; EventHeader([]);
    case Window => EventHeader(WindowIdent + WindowData);
    case SysWM => EventHeader(SysWMBody);
    case Keyboard => EventHeader(KeyboardState + KeyboardKeysym);
    case TextEditing => EventHeader(TextEditingBody);
    case TextInput => EventHeader(TextInputBody);
    case MouseMotion => EventHeader(MouseIds + MouseMotionState + MouseMotionCoords);
    case MouseButton => EventHeader(MouseIds + MouseButtonState + MousePosition);
    case MouseWheel => EventHeader(MouseIds + MousePosition);
    case JoyAxis => EventHeader(AxisSelect + AxisValue);
    case JoyBall => EventHeader(BallSelect + BallMotion);
    case JoyHat => EventHeader(HatBody);
    case JoyButton => EventHeader(ButtonBody);
    case JoyDevice => EventHeader(DeviceBody);
    case ControllerAxis => EventHeader(AxisSelect + AxisValue);
    case ControllerButton => EventHeader(ButtonBody);
    case ControllerDevice => EventHeader(DeviceBody);
    case TouchFinger => EventHeader(FingerIds + FingerMotion + FingerPressure);
    case MultiGesture => EventHeader(MultiGestureMotion + MultiGestureCentre);
    case DollarGesture => EventHeader(DollarGestureIds + DollarGestureResult);
    case Drop => EventHeader(DropBody);
    case User => EventHeader(UserBody);
  }

  /** The Go type name of each record, without its package and the "Event" suffix. */
  function RecordStem(k: RecordKind): (stem: string)
    ensures |stem| > 0
  {
    match k
    case Quit => "Quit"
    case Window => "Window"
    case SysWM => "SysWM"
    case Keyboard => "Keyboard"
    case TextEditing => "TextEditing"
    case TextInput => "TextInput"
    case MouseMotion => "MouseMotion"
    case MouseButton => "MouseButton"
    case MouseWheel => "MouseWheel"
    case JoyAxis => "JoyAxis"
    case JoyBall => "JoyBall"
    case JoyHat => "JoyHat"
    case JoyButton => "JoyButton"
    case JoyDevice => "JoyDevice"
    case ControllerAxis => "ControllerAxis"
    case ControllerButton => "ControllerButton"
    case ControllerDevice => "ControllerDevice"
    case TouchFinger => "TouchFinger"
    case MultiGesture => "MultiGesture"
    case DollarGesture => "DollarGesture"
    case Drop => "Drop"
    case User => "User"
  }

  /** %T of a pointer to each record. */
  function RecordTypeName(k: RecordKind): (name: string)
    ensures |name| > 10 && name[..5] == "*sdl." && name[|name| - 5..] == "Event"
  {
    "*sdl." + RecordStem(k) + "Event"
  }

  // ---------------------------------------------------------------------
  // Events as the Go side holds them.

  /**
   * A value of the Event interface: a pointer to one of the 22 records, a
   * pointer to the generic union, or a pointer to some other type with a
   * GetType method. A record or union is given by its bytes.
   */
  datatype Event =
    | Record(kind: RecordKind, bytes: seq<byte>)
    | Union(bytes: seq<byte>)
    | Foreign(typeName: string, tag: EventType)

  /** The bytes of a record or union are exactly as long as its Go type. */
  predicate WellSized(e: Event)
  {
    match e
    case Record(k, b) => |b| == RecordSize(k)
    case Union(b) => |b| == 56
    case Foreign(_, _) => true
  }

  /** The Type word at the start of a record or union image. */
  function TypeField(mem: seq<byte>): EventType
    requires |mem| >= 4
  {
    assert Pow256(4) == 0x1_0000_0000;
    LeDecode(mem[..4])
  }

  /** The Type word is the record's field "Type", read at its Go offset. */
  lemma TypeFieldIsType(k: RecordKind, mem: seq<byte>)
    requires |mem| == RecordSize(k)
    ensures |mem| >= 4 && ReadField(RecordFields(k), mem, 0) == TypeField(mem)
  {
    RecordHeader(k);
    RecordLayout(k);
  }

  /** The union's own Type field is the same word. */
  lemma UnionTypeField(u: seq<byte>)
    requires |u| == 56
    ensures ReadField(EventUnion, u, 0) == TypeField(u)
  {
    EventUnionLayout();
  }

  /** GetType: every implementation returns its Type field. */
  function GetType(e: Event): EventType
    requires WellSized(e)
  {
    match e
    case Record(k, b) => RecordsFit(k); TypeField(b)
    case Union(b) => TypeField(b)
    case Foreign(_, t) => t
  }

  /** %T of an Event value. */
  function TypeName(e: Event): (name: string)
    ensures !e.Foreign? ==> |name| > 5 && name[..5] == "*sdl."
    ensures e.Record? ==> name[|name| - 5..] == "Event"
    ensures e.Foreign? ==> name == e.typeName
  {
    match e
    case Record(k, _) => RecordTypeName(k)
    case Union(_) => "*sdl.EventUnion"
    case Foreign(name, _) => name
  }

  /**
   * Convert: an invalid tag gives back the union itself; a valid one views
   * the union's first bytes as the record its tag selects.
   */
  function Convert(u: seq<byte>): (e: Event)
    requires |u| == 56
    ensures WellSized(e)
    ensures !ValidEventType(TypeField(u)) ==> e == Union(u)
    ensures ValidEventType(TypeField(u)) ==> e.Record? && e.kind == KindForTag(TypeField(u))
  {
    var t := TypeField(u);
    if !ValidEventType(t) then Union(u)
    else
      var k := KindForTag(t);
      RecordsFit(k);
      Record(k, u[..RecordSize(k)])
  }

  /** Convert does not copy: the record it returns is the union's own leading bytes. */
  lemma ConvertIsPrefix(u: seq<byte>)
    requires |u| == 56 && ValidEventType(TypeField(u))
    ensures Convert(u).bytes == u[..RecordSize(Convert(u).kind)]
  {
  }

  /** The tag of what Convert returns is the union's tag. */
  lemma ConvertKeepsTag(u: seq<byte>)
    requires |u| == 56
    ensures GetType(Convert(u)) == TypeField(u)
  {
    var e := Convert(u);
    if e.Record? {
      RecordsFit(e.kind);
      assert e.bytes[..4] == u[..4];
    }
  }

  /** The error CopyEventToEventUnion returns for an event, if any. */
  function CopyError(e: Event): (r: Option<Error>)
    requires WellSized(e)
    ensures r.None? <==> ValidEventType(GetType(e)) && e.Record?
  {
    if !ValidEventType(GetType(e)) then
      Some(Errorf("Invalid EventType: " + EventTypeString(GetType(e))))
    else if !e.Record? then
      Some(Errorf("Unknown type: " + TypeName(e)))
    else
      None
  }

  /** The union after a successful copy: the record's bytes, then the union's old tail. */
  function CopyToUnion(u: seq<byte>, e: Event): (r: seq<byte>)
    requires |u| == 56 && e.Record? && WellSized(e)
    ensures |r| == 56
    ensures r[..|e.bytes|] == e.bytes && r[|e.bytes|..] == u[|e.bytes|..]
  {
    RecordsFit(e.kind);
    e.bytes + u[|e.bytes|..]
  }

  /**
   * CopyEventToEventUnion: refuse an invalid tag or a non-record, else
   * overwrite the first sizeof(record) bytes of the caller's union.
   */
  method CopyEventToEventUnion(e: Event, evu: array<byte>) returns (err: Option<Error>)
    requires evu.Length == 56 && WellSized(e)
    modifies evu
    ensures err == CopyError(e)
    ensures err.Some? ==> evu[..] == old(evu[..])
    ensures err.None? ==> evu[..] == CopyToUnion(old(evu[..]), e)
  {
    if !ValidEventType(GetType(e)) {
      return Some(Errorf("Invalid EventType: " + EventTypeString(GetType(e))));
    }
    if !e.Record? {
      return Some(Errorf("Unknown type: " + TypeName(e)));
    }
    RecordsFit(e.kind);
    var src := e.bytes;
    var i := 0;
    while i < |src|
      invariant 0 <= i <= |src| <= evu.Length
      invariant evu[..i] == src[..i]
      invariant evu[i..] == old(evu[i..])
    {
      evu[i] := src[i];
      i := i + 1;
      assert evu[..i] == evu[..i - 1] + [src[i - 1]];
    }
    assert evu[..] == evu[..i] + evu[i..];
    err := None;
  }

  /** The copy accepts any record with a valid tag, whether or not the tag belongs to that record. */
  lemma CopyIgnoresKind(e: Event)
    requires e.Record? && WellSized(e) && ValidEventType(GetType(e))
    ensures CopyError(e) == None
  {
  }

  /** A record whose tag selects its own kind survives a copy into a union and a Convert back. */
  lemma ConvertAfterCopy(u: seq<byte>, e: Event)
    requires |u| == 56 && e.Record? && WellSized(e)
    requires ValidEventType(GetType(e)) && KindForTag(GetType(e)) == e.kind
    ensures Convert(CopyToUnion(u, e)) == e
  {
    var r := CopyToUnion(u, e);
    RecordsFit(e.kind);
    assert r[..4] == e.bytes[..4] by {
      assert r[..|e.bytes|][..4] == r[..4];
    }
  }

  /** Copying the record Convert made back into its union leaves the union as it was. */
  lemma CopyAfterConvert(u: seq<byte>)
    requires |u| == 56 && ValidEventType(TypeField(u))
    ensures CopyToUnion(u, Convert(u)) == u
  {
    var e := Convert(u);
    RecordsFit(e.kind);
    assert u == u[..|e.bytes|] + u[|e.bytes|..];
  }

  // ---------------------------------------------------------------------
  // Naming a tag.

  /** The lookup in eventTypeStrings: every named tag under its Go identifier. */
  function EventTypeName(t: EventType): (r: Option<string>)
    ensures r.Some? <==> t in NamedTags || t in {FIRSTEVENT, DOLLARRECORD, CLIPBOARDUPDATE, USEREVENT, LASTEVENT}
  {
    if t == FIRSTEVENT then Some("FIRSTEVENT")
    else if t == QUIT then Some("QUIT")
    else if t == WINDOWEVENT then Some("WINDOWEVENT")
    else if t == SYSWMEVENT then Some("SYSWMEVENT")
    else if t == KEYDOWN then Some("KEYDOWN")
    else if t == KEYUP then Some("KEYUP")
    else if t == TEXTEDITING then Some("TEXTEDITING")
    else if t == TEXTINPUT then Some("TEXTINPUT")
    else if t == MOUSEMOTION then Some("MOUSEMOTION")
    else if t == MOUSEBUTTONDOWN then Some("MOUSEBUTTONDOWN")
    else if t == MOUSEBUTTONUP then Some("MOUSEBUTTONUP")
    else if t == MOUSEWHEEL then Some("MOUSEWHEEL")
    else if t == JOYAXISMOTION then Some("JOYAXISMOTION")
    else if t == JOYBALLMOTION then Some("JOYBALLMOTION")
    else if t == JOYHATMOTION then Some("JOYHATMOTION")
    else if t == JOYBUTTONDOWN then Some("JOYBUTTONDOWN")
    else if t == JOYBUTTONUP then Some("JOYBUTTONUP")
    else if t == JOYDEVICEADDED then Some("JOYDEVICEADDED")
    else if t == JOYDEVICEREMOVED then Some("JOYDEVICEREMOVED")
    else if t == CONTROLLERAXISMOTION then Some("CONTROLLERAXISMOTION")
    else if t == CONTROLLERBUTTONDOWN then Some("CONTROLLERBUTTONDOWN")
    else if t == CONTROLLERBUTTONUP then Some("CONTROLLERBUTTONUP")
    else if t == CONTROLLERDEVICEADDED then Some("CONTROLLERDEVICEADDED")
    else if t == CONTROLLERDEVICEREMOVED then Some("CONTROLLERDEVICEREMOVED")
    else if t == CONTROLLERDEVICEREMAPPED then Some("CONTROLLERDEVICEREMAPPED")
    else if t == FINGERDOWN then Some("FINGERDOWN")
    else if t == FINGERUP then Some("FINGERUP")
    else if t == FINGERMOTION then Some("FINGERMOTION")
    else if t == DOLLARGESTURE then Some("DOLLARGESTURE")
    else if t == DOLLARRECORD then Some("DOLLARRECORD")
    else if t == MULTIGESTURE then Some("MULTIGESTURE")
    else if t == CLIPBOARDUPDATE then Some("CLIPBOARDUPDATE")
    else if t == DROPFILE then Some("DROPFILE")
    else if t == USEREVENT then Some("USEREVENT")
    else if t == LASTEVENT then Some("LASTEVENT")
    else None
  }

  /** EventType.String: the user range first, then the table, else the number. */
  function EventTypeString(t: EventType): (s: string)
    ensures |s| > 0
    ensures USEREVENT <= t < LASTEVENT ==> s == "USEREVENT"
    ensures !(USEREVENT <= t < LASTEVENT) && EventTypeName(t).Some? ==> s == EventTypeName(t).value
    ensures !(USEREVENT <= t < LASTEVENT) && EventTypeName(t).None? ==>
      s == "Unknown (" + DecimalString(t) + ")"
  {
    if t >= USEREVENT && t < LASTEVENT then "USEREVENT"
    else if EventTypeName(t).Some? then EventTypeName(t).value
    else "Unknown (" + DecimalString(t) + ")"
  }

  /** Every tag of the user range prints as USEREVENT, except LASTEVENT, which has its own name. */
  lemma StringUserRange(t: EventType)
    ensures USEREVENT <= t < LASTEVENT ==> EventTypeString(t) == "USEREVENT"
    ensures EventTypeString(LASTEVENT) == "LASTEVENT"
    ensures EventTypeString(USEREVENT) == "USEREVENT"
  {
  }

  /** A tag outside the table and the user range prints as its decimal value, which reads back. */
  lemma StringUnknown(t: EventType)
    requires EventTypeName(t).None? && !(USEREVENT <= t < LASTEVENT)
    ensures var s := EventTypeString(t);
      |s| > 10 && s[..9] == "Unknown (" && s[|s| - 1] == ')'
      && DecimalValue(s[9..|s| - 1]) == t
  {
    var d := DecimalString(t);
    var s := "Unknown (" + d + ")";
    assert s[9..|s| - 1] == d;
    DecimalRoundTrip(t);
  }
}

/**
 * The one C string an event owns: DropEvent.file, allocated by C.CString
 * and released with SDL_free.
 */
module DropFiles {
  import opened Base
  import opened Layout
  import Structs386
  import opened Events

  /** The C allocator as the binding sees it: the live blocks and what they hold. */
  class CHeap {
    var blocks: map<nat, string>
    var next: nat

    predicate Valid()
      reads this
    {
      forall a :: a in blocks ==> a < next
    }

    constructor()
      ensures Valid() && blocks == map[]
    {
      blocks := map[];
      next := 0;
    }

    /** C.CString: a fresh block holding a copy of the Go string. */
    method CString(s: string) returns (p: Ptr)
      requires Valid()
      modifies this
      ensures Valid() && p.Addr? && p.address !in old(blocks)
      ensures blocks == old(blocks)[p.address := s]
      ensures old(next) <= p.address < next
    {
      p := Addr(next);
      blocks := blocks[next := s];
      next := next + 1;
    }

    /** SDL_free: releases a live block; a nil pointer is ignored. */
    method Free(p: Ptr)
      requires Valid() && (p.Addr? ==> p.address in blocks)
      modifies this
      ensures Valid() && blocks == Released(old(blocks), p) && next == old(next)
    {
      if p.Addr? {
        blocks := blocks - {p.address};
      }
    }

    /** C.GoString: nil reads as the empty string. */
    function GoString(p: Ptr): string
      reads this
      requires p.Addr? ==> p.address in blocks
    {
      if p.Nil? then "" else CPrefix(blocks[p.address])
    }
  }

  function Released(blocks: map<nat, string>, p: Ptr): map<nat, string>
  {
    if p.Nil? then blocks else blocks - {p.address}
  }

  /** The Go DropEvent: its header words and the file pointer it owns. */
  class DropEvent {
    var Type: EventType
    var Timestamp: uint32
    var file: Ptr

    constructor(t: EventType, ts: uint32)
      ensures Type == t && Timestamp == ts && file == Nil
    {
      Type := t;
      Timestamp := ts;
      file := Nil;
    }

    /** The pointer is nil or names a live block of `heap`. */
    predicate Owns(heap: CHeap)
      reads this, heap
    {
      file.Addr? ==> file.address in heap.blocks
    }

    function GetType(): EventType
      reads this
    {
      Type
    }

    /** File: the C string the event points at, as a Go string. */
    function File(heap: CHeap): (s: string)
      reads this, heap
      requires Owns(heap)
      ensures '\0' !in s
      ensures file.Nil? ==> s == ""
    {
      heap.GoString(file)
    }

    /** FreeFile: release the string and forget the pointer. */
    method FreeFile(heap: CHeap)
      requires heap.Valid() && Owns(heap)
      modifies this, heap
      ensures heap.Valid() && file == Nil && Owns(heap)
      ensures heap.blocks == Released(old(heap.blocks), old(file)) && heap.next == old(heap.next)
      ensures Type == old(Type) && Timestamp == old(Timestamp)
    {
      heap.Free(file);
      file := Nil;
    }

    /** SetFile: free the old string first, then point at a fresh copy of the new one. */
    method SetFile(name: string, heap: CHeap)
      requires heap.Valid() && Owns(heap)
      modifies this, heap
      ensures heap.Valid() && Owns(heap) && file.Addr?
      ensures file.address !in old(heap.blocks)
      ensures heap.blocks == Released(old(heap.blocks), old(file))[file.address := name]
      ensures File(heap) == CPrefix(name)
      ensures old(file).Addr? ==> old(file).address !in heap.blocks
      ensures Type == old(Type) && Timestamp == old(Timestamp)
    {
      FreeFile(heap);
      var p := heap.CString(name);
      file := p;
    }

    /** The event's 12 bytes, as Convert or CopyEventToEventUnion see them. */
    function Bytes(): (b: seq<byte>)
      reads this
      requires file.Addr? ==> file.address < 0x1_0000_0000
      ensures |b| == 12
    {
      Structs386.DropEventLayout();
      PackedLayout(Structs386.DropEvent);
      assert Pow256(4) == 0x1_0000_0000;
      var vals: seq<nat> := [Type as nat, Timestamp as nat, if file.Nil? then 0 else file.address];
      Image(Structs386.DropEvent, vals)
    }

    /** The event as a value of the Event interface. */
    function AsEvent(): (e: Event)
      reads this
      requires file.Addr? ==> file.address < 0x1_0000_0000
      ensures e.Record? && e.kind == Drop && WellSized(e)
    {
      Record(Drop, Bytes())
    }
  }

  /** Reading the Type field of a DropEvent's image gives its Type. */
  lemma DropEventType(e: DropEvent)
    requires e.file.Addr? ==> e.file.address < 0x1_0000_0000
    ensures GetType(e.AsEvent()) == e.GetType()
  {
    var vals: seq<nat> := [e.Type as nat, e.Timestamp as nat, if e.file.Nil? then 0 else e.file.address];
    assert Pow256(4) == 0x1_0000_0000;
    assert e.Bytes() == Image(Structs386.DropEvent, vals);
    DropImageType(vals);
  }

  /** The Type word of a DropEvent image is the first field value. */
  lemma DropImageType(vals: seq<nat>)
    requires Fits(Structs386.DropEvent, vals)
    ensures |Image(Structs386.DropEvent, vals)| == 12
    ensures TypeField(Image(Structs386.DropEvent, vals)) == vals[0]
  {
    Structs386.DropEventLayout();
    PackedLayout(Structs386.DropEvent);
    ReadImage(Structs386.DropEvent, vals, 0);
    TypeFieldIsType(Drop, Image(Structs386.DropEvent, vals));
  }
}
