/**
 * Game-controller binds (gamecontroller.go, gamecontroller.c): the native
 * SDL_GameControllerButtonBind is unpacked by the C helper extractBind
 * through out-pointers and repacked on the Go side by buildBind into one of
 * three bind records, or a panic for a bind type it does not handle.
 */
module Controller {
  import opened Base

  type ControllerBindtype = int32

  const CONTROLLER_BINDTYPE_NONE: ControllerBindtype := 0
  const CONTROLLER_BINDTYPE_BUTTON: ControllerBindtype := 1
  const CONTROLLER_BINDTYPE_AXIS: ControllerBindtype := 2
  const CONTROLLER_BINDTYPE_HAT: ControllerBindtype := 3

  /**
   * The native bind. Its `value` is a C union whose members button, axis
   * and hat.hat all occupy the first int, and hat.hat_mask the second.
   */
  datatype NativeBind = NativeBind(bindType: int32, first: int32, second: int32)
  {
    function Button(): int32 { first }
    function Axis(): int32 { first }
    function Hat(): int32 { first }
    function HatMask(): int32 { second }
  }

  /** The three Go bind records. */
  datatype Bind =
    | ButtonBind(BindType: ControllerBindtype, Button: int32)
    | AxisBind(BindType: ControllerBindtype, Axis: int32)
    | HatBind(BindType: ControllerBindtype, Hat: int32, HatMask: int32)

  /** What a Go call does: return a value, or panic with a message. */
  datatype Outcome<T> = Returned(value: T) | Panicked(msg: string)

  /** fmt's %v of a signed integer. */
  function IntString(i: int): string
  {
    if i < 0 then "-" + DecimalString(-i) else DecimalString(i)
  }

  /** The three caller-owned cells extractBind writes through: *type, *v1 and *v2. */
  class BindCells {
    var typ: int32
    var v1: int32
    var v2: int32

    /** Go's zero-initialised locals `var typ ...; var v1, v2 C.int`. */
    constructor()
      ensures typ == 0 && v1 == 0 && v2 == 0
    {
      typ := 0;
      v1 := 0;
      v2 := 0;
    }
  }

  /**
   * The cells after extractBind, given what they held before: the button or
   * axis goes to v1, a hat to v1 and its mask to v2, any other bind type
   * writes nothing, and the type cell is never written.
   */
  function Extracted(bind: NativeBind, typ: int32, v1: int32, v2: int32): (r: (int32, int32, int32))
    ensures r.0 == typ
    ensures bind.bindType == CONTROLLER_BINDTYPE_BUTTON ==> r == (typ, bind.Button(), v2)
    ensures bind.bindType == CONTROLLER_BINDTYPE_AXIS ==> r == (typ, bind.Axis(), v2)
    ensures bind.bindType == CONTROLLER_BINDTYPE_HAT ==> r == (typ, bind.Hat(), bind.HatMask())
    ensures bind.bindType !in {CONTROLLER_BINDTYPE_BUTTON, CONTROLLER_BINDTYPE_AXIS, CONTROLLER_BINDTYPE_HAT} ==>
      r == (typ, v1, v2)
  {
    match bind.bindType
    case 1 => (typ, bind.first, v2)
    case 2 => (typ, bind.first, v2)
    case 3 => (typ, bind.first, bind.second)
    case _ => (typ, v1, v2)
  }

  /** extractBind, writing through the out-pointers. */
  method ExtractBind(bind: NativeBind, out: BindCells)
    modifies out
    ensures (out.typ, out.v1, out.v2) == Extracted(bind, old(out.typ), old(out.v1), old(out.v2))
  {
    if bind.bindType == CONTROLLER_BINDTYPE_BUTTON {
      out.v1 := bind.Button();
    } else if bind.bindType == CONTROLLER_BINDTYPE_AXIS {
      out.v1 := bind.Axis();
    } else if bind.bindType == CONTROLLER_BINDTYPE_HAT {
      out.v1 := bind.Hat();
      out.v2 := bind.HatMask();
    }
  }

  /** buildBind: one record per handled bind type, a panic for every other type. */
  function BuildBind(typ: ControllerBindtype, v1: int32, v2: int32): (r: Outcome<Bind>)
    ensures r.Returned? <==> typ in {CONTROLLER_BINDTYPE_BUTTON, CONTROLLER_BINDTYPE_AXIS, CONTROLLER_BINDTYPE_HAT}
    ensures typ == CONTROLLER_BINDTYPE_BUTTON ==> r == Returned(ButtonBind(typ, v1))
    ensures typ == CONTROLLER_BINDTYPE_AXIS ==> r == Returned(AxisBind(typ, v1))
    ensures typ == CONTROLLER_BINDTYPE_HAT ==> r == Returned(HatBind(typ, v1, v2))
    ensures r.Panicked? ==> r.msg == "Unhandled ControllerBindtype: " + IntString(typ)
  {
    if typ == CONTROLLER_BINDTYPE_BUTTON then Returned(ButtonBind(typ, v1))
    else if typ == CONTROLLER_BINDTYPE_AXIS then Returned(AxisBind(typ, v1))
    else if typ == CONTROLLER_BINDTYPE_HAT then Returned(HatBind(typ, v1, v2))
    else Panicked("Unhandled ControllerBindtype: " + IntString(typ))
  }

  /** A returned record carries the bind type it was built for. */
  lemma BuildKeepsType(typ: ControllerBindtype, v1: int32, v2: int32)
    requires BuildBind(typ, v1, v2).Returned?
    ensures BuildBind(typ, v1, v2).value.BindType == typ
    ensures BuildBind(typ, v1, v2).value.ButtonBind? <==> typ == CONTROLLER_BINDTYPE_BUTTON
    ensures BuildBind(typ, v1, v2).value.AxisBind? <==> typ == CONTROLLER_BINDTYPE_AXIS
    ensures BuildBind(typ, v1, v2).value.HatBind? <==> typ == CONTROLLER_BINDTYPE_HAT
  {
  }

  /**
   * GetBindForAxis and GetBindForButton as written: `bind` is what the
   * native SDL_GameControllerGetBindForAxis or ...ForButton returned. The
   * type cell starts at zero and extractBind never writes it, so buildBind
   * always sees CONTROLLER_BINDTYPE_NONE and panics.
   */
  method GetBind(bind: NativeBind) returns (r: Outcome<Bind>)
    ensures r == Panicked("Unhandled ControllerBindtype: 0")
  {
    var cells := new BindCells();
    ExtractBind(bind, cells);
    r := BuildBind(cells.typ, cells.v1, cells.v2);
  }

  /** The intended helper: also copy the native bind type into *type. */
  function ExtractedFixed(bind: NativeBind, typ: int32, v1: int32, v2: int32): (r: (int32, int32, int32))
    ensures r.0 == bind.bindType
    ensures (r.1, r.2) == (Extracted(bind, typ, v1, v2).1, Extracted(bind, typ, v1, v2).2)
  {
    var (_, w1, w2) := Extracted(bind, typ, v1, v2);
    (bind.bindType, w1, w2)
  }

  method ExtractBindFixed(bind: NativeBind, out: BindCells)
    modifies out
    ensures (out.typ, out.v1, out.v2) == ExtractedFixed(bind, old(out.typ), old(out.v1), old(out.v2))
  {
    ExtractBind(bind, out);
    out.typ := bind.bindType;
  }

  /** The binding the Go side should hand back for a native bind. */
  function Decoded(bind: NativeBind): (r: Outcome<Bind>)
    ensures r.Returned? <==>
      bind.bindType in {CONTROLLER_BINDTYPE_BUTTON, CONTROLLER_BINDTYPE_AXIS, CONTROLLER_BINDTYPE_HAT}
    ensures r.Returned? ==> r.value.BindType == bind.bindType
    ensures bind.bindType == CONTROLLER_BINDTYPE_BUTTON ==> r.value.ButtonBind? && r.value.Button == bind.Button()
    ensures bind.bindType == CONTROLLER_BINDTYPE_AXIS ==> r.value.AxisBind? && r.value.Axis == bind.Axis()
    ensures bind.bindType == CONTROLLER_BINDTYPE_HAT ==>
      r.value.HatBind? && r.value.Hat == bind.Hat() && r.value.HatMask == bind.HatMask()
    ensures r.Panicked? ==> r.msg == "Unhandled ControllerBindtype: " + IntString(bind.bindType)
  {
    if bind.bindType == CONTROLLER_BINDTYPE_BUTTON then Returned(ButtonBind(bind.bindType, bind.Button()))
    else if bind.bindType == CONTROLLER_BINDTYPE_AXIS then Returned(AxisBind(bind.bindType, bind.Axis()))
    else if bind.bindType == CONTROLLER_BINDTYPE_HAT then Returned(HatBind(bind.bindType, bind.Hat(), bind.HatMask()))
    else Panicked("Unhandled ControllerBindtype: " + IntString(bind.bindType))
  }

  /**
   * A bound button: the corrected call returns its ButtonBind, where GetBind
   * panics with "Unhandled ControllerBindtype: 0".
   */
  lemma BoundButtonLost()
    ensures Decoded(NativeBind(CONTROLLER_BINDTYPE_BUTTON, 5, 0)) == Returned(ButtonBind(CONTROLLER_BINDTYPE_BUTTON, 5))
  {
  }

  /** GetBindForAxis and GetBindForButton with the corrected helper. */
  method GetBindFixed(bind: NativeBind) returns (r: Outcome<Bind>)
    ensures r == Decoded(bind)
  {
    var cells := new BindCells();
    ExtractBindFixed(bind, cells);
    r := BuildBind(cells.typ, cells.v1, cells.v2);
  }

  /**
   * With the corrected helper every button, axis or hat bind is returned
   * with its own type and values, and reading the record back gives the
   * native bind's fields.
   */
  lemma DecodedFaithful(bind: NativeBind)
    ensures Decoded(bind).Returned? <==>
      bind.bindType in {CONTROLLER_BINDTYPE_BUTTON, CONTROLLER_BINDTYPE_AXIS, CONTROLLER_BINDTYPE_HAT}
    ensures Decoded(bind).Returned? ==> Decoded(bind).value.BindType == bind.bindType
    ensures Decoded(bind).Returned? && bind.bindType != CONTROLLER_BINDTYPE_HAT ==>
      Encoded(Decoded(bind).value) == NativeBind(bind.bindType, bind.first, 0)
    ensures bind.bindType == CONTROLLER_BINDTYPE_HAT ==> Encoded(Decoded(bind).value) == bind
  {
  }

  /** The native bind a Go record stands for (the unused union half as zero). */
  function Encoded(b: Bind): NativeBind
  {
    match b
    case ButtonBind(t, button) => NativeBind(t, button, 0)
    case AxisBind(t, axis) => NativeBind(t, axis, 0)
    case HatBind(t, hat, mask) => NativeBind(t, hat, mask)
  }

  /** Every Go record comes back from its native form unchanged. */
  lemma DecodeEncoded(b: Bind)
    requires b.BindType in {CONTROLLER_BINDTYPE_BUTTON, CONTROLLER_BINDTYPE_AXIS, CONTROLLER_BINDTYPE_HAT}
    requires b.ButtonBind? <==> b.BindType == CONTROLLER_BINDTYPE_BUTTON
    requires b.AxisBind? <==> b.BindType == CONTROLLER_BINDTYPE_AXIS
    ensures Decoded(Encoded(b)) == Returned(b)
  {
  }
}
