/**
 * The layout-equivalence check of structs_test.go: field names are reduced
 * to keys, each struct's keys are collected into a map, and the two structs
 * must agree on size, key set, and per key on offset, kind and width.
 * The "native" side (the cgo-generated test_* types) is any second GoType.
 */
module AbiTest {
  import opened Base
  import opened Layout
  import opened Structs386

  /** The kinds abiTest treats as interchangeable pointer-sized words. */
  predicate IsPtr(k: Kind)
    ensures IsPtr(k) ==> IsBasic(k) && BasicSize(k) == 4
  {
    k == Ptr || k == UnsafePointer || k == Uintptr
  }

  /** Two field kinds pass abiTest's kind check: equal, or both pointer-like. */
  predicate KindsMatch(k1: Kind, k2: Kind)
  {
    k1 == k2 || (IsPtr(k1) && IsPtr(k2))
  }

  /** The kind check is an equivalence: pointer-likes form one class, every other kind its own. */
  lemma KindsMatchEquivalence(a: Kind, b: Kind, c: Kind)
    ensures KindsMatch(a, a)
    ensures KindsMatch(a, b) ==> KindsMatch(b, a)
    ensures KindsMatch(a, b) && KindsMatch(b, c) ==> KindsMatch(a, c)
    ensures KindsMatch(a, b) && a != b ==> IsPtr(a) && IsPtr(b)
  {
  }

  // ---------------------------------------------------------------------
  // Field-name keys.

  predicate HasPrefix(s: string, p: string)
  {
    |p| <= |s| && s[..|p|] == p
  }

  /** strings.Replace(s, "_", "", -1). */
  function StripUnderscores(s: string): (r: string)
    ensures '_' !in r
    ensures |r| <= |s|
    ensures '_' !in s ==> r == s
    ensures forall c :: c != '_' ==> (c in r <==> c in s)
  {
    if s == [] then []
    else
      assert s == [s[0]] + s[1..];
      if s[0] == '_' then StripUnderscores(s[1..]) else [s[0]] + StripUnderscores(s[1..])
  }

  /**
   * StripUnderscores works character by character: one underscore becomes
   * nothing, any other character stays, and the pieces of a concatenation
   * are stripped separately, so the kept characters keep their order and
   * their number.
   */
  lemma {:induction false} StripAppend(a: string, b: string)
    ensures StripUnderscores(['_']) == []
    ensures forall c :: c != '_' ==> StripUnderscores([c]) == [c]
    ensures StripUnderscores(a + b) == StripUnderscores(a) + StripUnderscores(b)
  {
    if a == [] {
      assert a + b == b;
    } else {
      assert (a + b)[0] == a[0];
      assert (a + b)[1..] == a[1..] + b;
      StripAppend(a[1..], b);
    }
  }

  predicate IsUpper(c: char) { 'A' <= c <= 'Z' }

  function LowerChar(c: char): (d: char)
    ensures !IsUpper(d)
    ensures !IsUpper(c) ==> d == c
    ensures IsUpper(c) ==> d as int == c as int + 32
  {
    if IsUpper(c) then (c as int + 32) as char else c
  }

  /** strings.ToLower, on the ASCII letters that struct field names use. */
  function ToLower(s: string): (r: string)
    ensures |r| == |s|
    ensures forall i :: 0 <= i < |s| ==> r[i] == LowerChar(s[i])
  {
    if s == [] then [] else [LowerChar(s[0])] + ToLower(s[1..])
  }

  /** filterField: blank and "pad" fields have no key; any other name's key is lower-case without underscores. */
  function FilterField(field: string): (r: Option<string>)
    ensures r.None? <==> field == "_" || HasPrefix(field, "pad")
    ensures r.Some? ==> r.value == ToLower(StripUnderscores(field))
    ensures r.Some? ==> '_' !in r.value && forall i :: 0 <= i < |r.value| ==> !IsUpper(r.value[i])
  {
    if field == "_" || HasPrefix(field, "pad") then None
    else
      var key := ToLower(StripUnderscores(field));
      assert forall i :: 0 <= i < |key| ==> key[i] != '_' by {
        var stripped := StripUnderscores(field);
        forall i | 0 <= i < |key| ensures key[i] != '_' {
          assert stripped[i] in stripped;
        }
      }
      Some(key)
  }

  /** A key is its own key, unless it happens to begin with "pad". */
  lemma {:induction false} FilterFieldIdempotent(field: string)
    requires FilterField(field).Some?
    ensures var key := FilterField(field).value;
      !HasPrefix(key, "pad") ==> FilterField(key) == Some(key)
  {
    var key := FilterField(field).value;
    if !HasPrefix(key, "pad") {
      assert key != "_" by {
        assert "_"[0] == '_';
      }
      var lowered := ToLower(StripUnderscores(key));
      assert StripUnderscores(key) == key;
      assert lowered == key;
    }
  }

  /** "_" has no key. */
  lemma BlankFiltered()
    ensures FilterField("_") == None
  {
  }

  /** Every name that begins with "pad" (padding fields) has no key. */
  lemma PadFiltered(field: string)
    requires HasPrefix(field, "pad")
    ensures FilterField(field) == None
  {
  }

  // ---------------------------------------------------------------------
  // The key maps abiTest builds (t1Fields, t2Fields).

  /** The map after the first `n` fields: each kept key maps to the last field name carrying it. */
  function KeyMapTo(fs: Fields, n: nat): map<string, string>
    requires n <= |fs|
  {
    if n == 0 then map[]
    else
      var m := KeyMapTo(fs, n - 1);
      match FilterField(fs[n - 1].name)
      case None => m
      case Some(key) => m[key := fs[n - 1].name]
  }

  function KeyMap(fs: Fields): map<string, string>
  {
    KeyMapTo(fs, |fs|)
  }

  /** The last of the first `n` fields whose name has key `key`. */
  function LastWithKey(fs: Fields, n: nat, key: string): (r: Option<nat>)
    requires n <= |fs|
    ensures r.Some? ==> r.value < n && FilterField(fs[r.value].name) == Some(key)
    ensures r.Some? ==> forall j :: r.value < j < n ==> FilterField(fs[j].name) != Some(key)
    ensures r.None? ==> forall j :: 0 <= j < n ==> FilterField(fs[j].name) != Some(key)
  {
    if n == 0 then None
    else if FilterField(fs[n - 1].name) == Some(key) then Some(n - 1)
    else LastWithKey(fs, n - 1, key)
  }

  /** A key is in the map exactly when some field has it, and it maps to the last such field's name. */
  lemma {:induction false} KeyMapContents(fs: Fields, n: nat, key: string)
    requires n <= |fs|
    ensures key in KeyMapTo(fs, n) <==> LastWithKey(fs, n, key).Some?
    ensures key in KeyMapTo(fs, n) ==> KeyMapTo(fs, n)[key] == fs[LastWithKey(fs, n, key).value].name
    decreases n
  {
    if n > 0 {
      KeyMapContents(fs, n - 1, key);
    }
  }

  /** Every name in the map is the name of a field, so FieldByName finds it. */
  lemma KeyMapNamesFound(fs: Fields, key: string)
    requires key in KeyMap(fs)
    ensures IndexOf(fs, KeyMap(fs)[key]).Some?
  {
    KeyMapContents(fs, |fs|, key);
    var i := LastWithKey(fs, |fs|, key).value;
    assert fs[i].name == KeyMap(fs)[key];
  }

  /** The map-filling loop of abiTest. */
  method BuildKeyMap(fs: Fields) returns (m: map<string, string>)
    ensures m == KeyMap(fs)
  {
    m := map[];
    var i := 0;
    while i < |fs|
      invariant 0 <= i <= |fs|
      invariant m == KeyMapTo(fs, i)
    {
      var field := fs[i].name;
      var filtered := FilterField(field);
      if filtered.Some? {
        m := m[filtered.value := field];
      }
      i := i + 1;
    }
  }

  // ---------------------------------------------------------------------
  // The comparison.

  /** Which check failed (the source formats each into an error message). */
  datatype AbiFailure =
    | NotStruct(typeName: string)
    | SizeMismatch(name1: string, name2: string, size1: nat, size2: nat)
    | CountMismatch(keys1: set<string>, keys2: set<string>)
    | MissingField(typeName: string, key: string)
    | FieldNotFound(fieldName: string, typeName: string)
    | OffsetMismatch(key: string, offset1: nat, offset2: nat)
    | KindMismatch(key: string, kind1: Kind, kind2: Kind)
    | FieldSizeMismatch(key: string, size1: nat, size2: nat)

  /** The checks made before any field is looked at, in the source's order. */
  function HeaderCheck(t1: GoType, t2: GoType): (r: Option<AbiFailure>)
    ensures r.None? <==> t1.StructType? && t2.StructType? && SizeOf(t1.fields) == SizeOf(t2.fields)
  {
    if !t1.StructType? then Some(NotStruct(t1.name))
    else if !t2.StructType? then Some(NotStruct(t2.name))
    else if SizeOf(t1.fields) != SizeOf(t2.fields) then
      Some(SizeMismatch(t1.name, t2.name, SizeOf(t1.fields), SizeOf(t2.fields)))
    else None
  }

  /** The checks for one key of the first struct, in the source's order. */
  function KeyCheck(t1: GoType, t2: GoType, key: string): Option<AbiFailure>
    requires t1.StructType? && t2.StructType? && key in KeyMap(t1.fields)
  {
    var m1, m2 := KeyMap(t1.fields), KeyMap(t2.fields);
    if key !in m2 then Some(MissingField(t2.name, key))
    else
      match IndexOf(t1.fields, m1[key])
      case None => Some(FieldNotFound(m1[key], t1.name))
      case Some(i) =>
        match IndexOf(t2.fields, m2[key])
        // the source names t1 in this message too
        case None => Some(FieldNotFound(m2[key], t1.name))
        case Some(j) =>
          var f1, f2 := t1.fields[i], t2.fields[j];
          if Offset(t1.fields, i) != Offset(t2.fields, j) then
            Some(OffsetMismatch(key, Offset(t1.fields, i), Offset(t2.fields, j)))
          else if !KindsMatch(f1.kind, f2.kind) then Some(KindMismatch(key, f1.kind, f2.kind))
          else if f1.size != f2.size then Some(FieldSizeMismatch(key, f1.size, f2.size))
          else None
  }

  /** abiTest returns nil: every check passes. */
  predicate AbiOk(t1: GoType, t2: GoType)
  {
    HeaderCheck(t1, t2).None?
    && |KeyMap(t1.fields)| == |KeyMap(t2.fields)|
    && forall key :: key in KeyMap(t1.fields) ==> KeyCheck(t1, t2, key).None?
  }

  /**
   * abiTest. The keys of t1Fields are visited in Go's unspecified map order,
   * so when several keys fail, which one is reported is left open: the
   * result is the failure of some failing key.
   */
  method Abi(t1: GoType, t2: GoType) returns (err: Option<AbiFailure>)
    ensures err.None? <==> AbiOk(t1, t2)
    ensures HeaderCheck(t1, t2).Some? ==> err == HeaderCheck(t1, t2)
    ensures HeaderCheck(t1, t2).None? && |KeyMap(t1.fields)| != |KeyMap(t2.fields)| ==>
      err == Some(CountMismatch(KeyMap(t1.fields).Keys, KeyMap(t2.fields).Keys))
    ensures HeaderCheck(t1, t2).None? && |KeyMap(t1.fields)| == |KeyMap(t2.fields)| && err.Some? ==>
      exists key :: key in KeyMap(t1.fields) && err == KeyCheck(t1, t2, key)
  {
    if !t1.StructType? {
      return Some(NotStruct(t1.name));
    }
    if !t2.StructType? {
      return Some(NotStruct(t2.name));
    }
    var size1, size2 := SizeOf(t1.fields), SizeOf(t2.fields);
    if size1 != size2 {
      return Some(SizeMismatch(t1.name, t2.name, size1, size2));
    }
    var t1Fields := BuildKeyMap(t1.fields);
    var t2Fields := BuildKeyMap(t2.fields);
    if |t1Fields| != |t2Fields| {
      return Some(CountMismatch(t1Fields.Keys, t2Fields.Keys));
    }
    var todo := t1Fields.Keys;
    while todo != {}
      invariant todo <= t1Fields.Keys
      invariant forall key :: key in t1Fields && key !in todo ==> KeyCheck(t1, t2, key).None?
      decreases |todo|
    {
      var k :| k in todo;
      if k !in t2Fields {
        return Some(MissingField(t2.name, k));
      }
      var i := IndexOf(t1.fields, t1Fields[k]);
      if i.None? {
        return Some(FieldNotFound(t1Fields[k], t1.name));
      }
      var j := IndexOf(t2.fields, t2Fields[k]);
      if j.None? {
        return Some(FieldNotFound(t2Fields[k], t1.name));
      }
      var offset1, offset2 := Offset(t1.fields, i.value), Offset(t2.fields, j.value);
      if offset1 != offset2 {
        return Some(OffsetMismatch(k, offset1, offset2));
      }
      var kind1, kind2 := t1.fields[i.value].kind, t2.fields[j.value].kind;
      if kind1 != kind2 {
        if !IsPtr(kind1) || !IsPtr(kind2) {
          return Some(KindMismatch(k, kind1, kind2));
        }
      }
      var fsize1, fsize2 := t1.fields[i.value].size, t2.fields[j.value].size;
      if fsize1 != fsize2 {
        return Some(FieldSizeMismatch(k, fsize1, fsize2));
      }
      todo := todo - {k};
    }
    return None;
  }

  /** Any struct layout passes abiTest against itself. */
  lemma AbiReflexive(t: GoType)
    requires t.StructType?
    ensures AbiOk(t, t)
  {
    forall key | key in KeyMap(t.fields) ensures KeyCheck(t, t, key).None? {
      KeyMapNamesFound(t.fields, key);
    }
  }

  lemma SubsetSameSize(a: set<string>, b: set<string>)
    requires a <= b && |a| == |b|
    ensures a == b
  {
    if a != b {
      var x :| x in b && x !in a;
      assert a <= b - {x};
      assert |a| <= |b - {x}| by {
        SubsetSize(a, b - {x});
      }
    }
  }

  lemma {:induction false} SubsetSize(a: set<string>, b: set<string>)
    requires a <= b
    ensures |a| <= |b|
    decreases |b|
  {
    if a != {} {
      var x :| x in a;
      SubsetSize(a - {x}, b - {x});
    }
  }

  /** Passing abiTest does not depend on which struct comes first. */
  lemma AbiSymmetric(t1: GoType, t2: GoType)
    requires AbiOk(t1, t2)
    ensures AbiOk(t2, t1)
  {
    var m1, m2 := KeyMap(t1.fields), KeyMap(t2.fields);
    assert m1.Keys <= m2.Keys by {
      forall key | key in m1 ensures key in m2 {
        assert KeyCheck(t1, t2, key).None?;
      }
    }
    SubsetSameSize(m1.Keys, m2.Keys);
    forall key | key in m2 ensures KeyCheck(t2, t1, key).None? {
      assert key in m1;
      assert KeyCheck(t1, t2, key).None?;
    }
  }

  // ---------------------------------------------------------------------
  // TestStructs and TestUnions.

  /** Each Go record type of structTests, named as reflect names it. */
  function AsStructs(entries: seq<(string, Fields)>): (r: seq<GoType>)
    ensures |r| == |entries|
    ensures forall i :: 0 <= i < |r| ==> r[i] == StructType(entries[i].0, entries[i].1)
  {
    seq(|entries|, i requires 0 <= i < |entries| => StructType(entries[i].0, entries[i].1))
  }

  /** The Go side of structTests, in its order. */
  function GoStructs(): seq<GoType>
  {
    AsStructs([
      ("WindowEvent", WindowEvent), ("KeyboardEvent", KeyboardEvent),
      ("TextEditingEvent", TextEditingEvent), ("TextInputEvent", TextInputEvent),
      ("MouseMotionEvent", MouseMotionEvent), ("MouseButtonEvent", MouseButtonEvent),
      ("MouseWheelEvent", MouseWheelEvent), ("JoyAxisEvent", JoyAxisEvent),
      ("JoyBallEvent", JoyBallEvent), ("JoyHatEvent", JoyHatEvent), ("JoyButtonEvent", JoyButtonEvent),
      ("JoyDeviceEvent", JoyDeviceEvent), ("ControllerAxisEvent", ControllerAxisEvent),
      ("ControllerButtonEvent", ControllerButtonEvent),
      ("ControllerDeviceEvent", ControllerDeviceEvent), ("TouchFingerEvent", TouchFingerEvent),
      ("MultiGestureEvent", MultiGestureEvent), ("DollarGestureEvent", DollarGestureEvent),
      ("DropEvent", DropEvent), ("QuitEvent", QuitEvent), ("UserEvent", UserEvent),
      ("SysWMEvent", SysWMEvent), ("JoystickGUID", JoystickGUID), ("Keysym", Keysym), ("Color", Color),
      ("Palette", Palette), ("PixelFormat", PixelFormat), ("Point", Point), ("Rect", Rect),
      ("Surface", Surface), ("Version", Version), ("DisplayMode", DisplayMode)])
  }

  /**
   * TestStructs: run abiTest on every pair, logging each failure and going
   * on; the test fails when any pair fails. Returns the indices that failed.
   */
  method TestStructs(pairs: seq<(GoType, GoType)>) returns (failed: set<nat>)
    ensures forall i: nat :: i in failed <==> i < |pairs| && !AbiOk(pairs[i].0, pairs[i].1)
  {
    failed := {};
    var i := 0;
    while i < |pairs|
      invariant 0 <= i <= |pairs|
      invariant forall n: nat :: n in failed <==> n < i && !AbiOk(pairs[n].0, pairs[n].1)
    {
      var err := Abi(pairs[i].0, pairs[i].1);
      if err.Some? {
        failed := failed + {i};
      }
      i := i + 1;
    }
  }

  /** The pairs of structTests, given the native layouts the cgo side reports. */
  function StructTests(natives: seq<GoType>): (r: seq<(GoType, GoType)>)
    requires |natives| == |GoStructs()|
    ensures |r| == |GoStructs()|
    ensures forall i :: 0 <= i < |r| ==> r[i] == (GoStructs()[i], natives[i])
  {
    seq(|GoStructs()|, i requires 0 <= i < |GoStructs()| => (GoStructs()[i], natives[i]))
  }

  /** When the native layouts are the Go layouts themselves, every pair passes. */
  lemma TestStructsSelf()
    ensures forall i :: 0 <= i < |GoStructs()| ==>
      AbiOk(StructTests(GoStructs())[i].0, StructTests(GoStructs())[i].1)
  {
    forall i | 0 <= i < |GoStructs()|
      ensures AbiOk(StructTests(GoStructs())[i].0, StructTests(GoStructs())[i].1)
    {
      AbiReflexive(GoStructs()[i]);
    }
  }

  /** TestUnions: the Go EventUnion is as long as the native SDL_Event, 56 bytes. */
  function TestUnions(nativeLen: nat): (ok: bool)
    ensures ok <==> nativeLen == 56
  {
    EventUnionLayout();
    SizeOf(EventUnion) == nativeLen
  }
}
