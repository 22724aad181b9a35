/**
 * SDL version numbers (version.go): the compile-time version triple, its
 * numeric form and the "at least" test against it.
 */
module Versions {
  import opened Base

  /**
   * SDL_MAJOR_VERSION, SDL_MINOR_VERSION and SDL_PATCHLEVEL of the SDL2
   * headers the binding is compiled against; SDL_version.h is not part of
   * this model, and 2.0.0 is the release the binding was written for.
   */
  const MAJOR_VERSION: int := 2
  const MINOR_VERSION: int := 0
  const PATCHLEVEL: int := 0

  /** sdl.Version: three bytes. */
  class Version {
    var Major: uint8
    var Minor: uint8
    var Patch: uint8

    constructor()
      ensures Major == 0 && Minor == 0 && Patch == 0
    {
      Major, Minor, Patch := 0, 0, 0;
    }
  }

  /** VERSION: store the compile-time triple in `v`, and nothing else. */
  method VERSION(v: Version)
    modifies v
    ensures v.Major == MAJOR_VERSION && v.Minor == MINOR_VERSION && v.Patch == PATCHLEVEL
  {
    v.Major := MAJOR_VERSION;
    v.Minor := MINOR_VERSION;
    v.Patch := PATCHLEVEL;
  }

  /** VersionNum: x.y.z as x*1000 + y*100 + z. */
  function VersionNum(x: int, y: int, z: int): (n: int)
    ensures 0 <= x && 0 <= y < 10 && 0 <= z < 100 ==>
      n / 1000 == x && n % 1000 / 100 == y && n % 100 == z
  {
    x * 1000 + y * 100 + z
  }

  const COMPILEDVERSION: int := VersionNum(MAJOR_VERSION, MINOR_VERSION, PATCHLEVEL)

  /** VersionAtleast: the compiled version is at least x.y.z. */
  function VersionAtleast(x: int, y: int, z: int): (b: bool)
    ensures b <==> COMPILEDVERSION >= VersionNum(x, y, z)
  {
    COMPILEDVERSION >= VersionNum(x, y, z)
  }

  /** The worked example of the documentation, and the compiled version itself. */
  lemma VersionExamples()
    ensures VersionNum(1, 2, 3) == 1203
    ensures COMPILEDVERSION == 2000
    ensures VersionAtleast(MAJOR_VERSION, MINOR_VERSION, PATCHLEVEL)
    ensures VersionAtleast(2, 0, 0) && !VersionAtleast(2, 0, 1) && !VersionAtleast(3, 0, 0)
  {
  }

  /** VersionNum does not decrease when any one component grows. */
  lemma {:induction false} VersionNumMonotone(x: int, y: int, z: int, x': int, y': int, z': int)
    requires x <= x' && y <= y' && z <= z'
    ensures VersionNum(x, y, z) <= VersionNum(x', y', z')
  {
  }

  /** What VersionAtleast accepts is closed downwards, component by component. */
  lemma AtleastDownwardClosed(x: int, y: int, z: int, x': int, y': int, z': int)
    requires VersionAtleast(x', y', z') && x <= x' && y <= y' && z <= z'
    ensures VersionAtleast(x, y, z)
  {
    VersionNumMonotone(x, y, z, x', y', z');
  }

  /**
   * For minor versions below 10 and patch levels below 100, VersionNum
   * orders versions exactly as comparing major, then minor, then patch.
   */
  lemma {:induction false} VersionNumLexicographic(x: int, y: int, z: int, x': int, y': int, z': int)
    requires 0 <= y < 10 && 0 <= y' < 10 && 0 <= z < 100 && 0 <= z' < 100
    ensures VersionNum(x, y, z) <= VersionNum(x', y', z') <==>
      x < x' || (x == x' && (y < y' || (y == y' && z <= z')))
  {
    if x < x' {
      assert VersionNum(x, y, z) < (x + 1) * 1000 <= VersionNum(x', y', z');
    } else if x' < x {
      assert VersionNum(x', y', z') < (x' + 1) * 1000 <= VersionNum(x, y, z);
    }
  }
}
