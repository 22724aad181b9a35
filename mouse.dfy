/**
 * Mouse helpers (mouse.go): the button mask of a button number, computed in
 * uint32 arithmetic, and the focus flag of GetMouseFocus.
 */
module Mouse {
  import opened Base

  function Pow2(n: nat): (r: pos)
  {
    if n == 0 then 1 else 2 * Pow2(n - 1)
  }

  /** Bit `k` of `v`, counting from the least significant. */
  function Bit(v: nat, k: nat): bool
  {
    if k == 0 then v % 2 == 1 else Bit(v / 2, k - 1)
  }

  /**
   * Button: 1 << (button - 1) on uint32. The subtraction wraps (button 0
   * gives a shift of 2^32 - 1) and Go's shift by 32 or more gives 0.
   */
  function Button(button: uint32): (r: uint32)
    ensures 1 <= button <= 32 ==> r == Pow2(button - 1)
    ensures button == 0 || button > 32 ==> r == 0
  {
    var shift := (button - 1) % 0x1_0000_0000;
    if shift >= 32 then 0
    else
      Pow2Bound(shift);
      Pow2(shift)
  }

  lemma Pow2Bound(n: nat)
    requires n < 32
    ensures Pow2(n) < 0x1_0000_0000
  {
    Pow2Add(n, 31 - n);
    Pow2Exact31();
  }

  lemma Pow2Exact31()
    ensures Pow2(31) == 0x8000_0000
  {
    assert Pow2(2) == 4;
    Pow2Add(2, 2);
    Pow2Add(4, 4);
    Pow2Add(8, 8);
    Pow2Add(16, 8);
    Pow2Add(24, 4);
    Pow2Add(28, 2);
    Pow2Add(30, 1);
  }

  lemma {:induction false} Pow2Add(a: nat, b: nat)
    ensures Pow2(a + b) == Pow2(a) * Pow2(b)
  {
    if b > 0 {
      Pow2Add(a, b - 1);
    }
  }

  lemma {:induction false} NoBitOfZero(k: nat)
    ensures !Bit(0, k)
  {
    if k > 0 {
      NoBitOfZero(k - 1);
    }
  }

  /** Pow2(s) has bit k set exactly when k == s. */
  lemma {:induction false} OneBit(s: nat, k: nat)
    ensures Bit(Pow2(s), k) <==> k == s
  {
    if k == 0 {
      if s > 0 {
        assert Pow2(s) == 2 * Pow2(s - 1);
      }
    } else if s == 0 {
      NoBitOfZero(k - 1);
    } else {
      assert Pow2(s) / 2 == Pow2(s - 1);
      OneBit(s - 1, k - 1);
    }
  }

  /** For the 32 button numbers, the mask has exactly bit button-1 set; Button(1) is 1. */
  lemma ButtonMask(button: uint32, k: nat)
    requires 1 <= button <= 32
    ensures Bit(Button(button), k) <==> k == button - 1
    ensures Button(1) == 1
  {
    OneBit(button - 1, k);
  }

  /** A window handle: the SDL_Window pointer it wraps. */
  datatype Window = Window(ptr: Ptr)

  /**
   * GetMouseFocus, given what SDL_GetMouseFocus returned: the window wraps
   * that pointer, and focus says whether it is non-nil.
   */
  function GetMouseFocus(native: Ptr): (r: (Window, bool))
    ensures r.0.ptr == native
    ensures r.1 <==> native != Nil
  {
    var window := Window(native);
    (window, window.ptr.Addr?)
  }
}
