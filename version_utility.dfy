/**
 * `VersionUtility.ParseSdlVersion` from the example application: splits SDL's packed
 * version number `major * 1000000 + minor * 1000 + patch` into a `System.Version`.
 */
module VersionUtility {
  import opened Wrappers

  /** C#'s `int`. */
  type int32 = x: int | -0x8000_0000 <= x < 0x8000_0000

  /** `System.Version(major, minor, build)`. */
  datatype Version = Version(major: int, minor: int, build: int)

  /** The `ArgumentOutOfRangeException` the `Version` constructor throws for a negative component. */
  datatype Error = ArgumentOutOfRange

  /** C#'s `a / b` on `int`: the quotient truncated toward zero. */
  function Quot(a: int, b: int): int
    requires b > 0
  {
    if a >= 0 then a / b else -((-a) / b)
  }

  /** C#'s `a % b` on `int`: the remainder takes the sign of `a`. */
  function Rem(a: int, b: int): int
    requires b > 0
  {
    a - b * Quot(a, b)
  }

  /** `new Version(major, minor, build)`. */
  function NewVersion(major: int, minor: int, build: int): Result<Version, Error>
  {
    if major < 0 || minor < 0 || build < 0 then Err(ArgumentOutOfRange)
    else Ok(Version(major, minor, build))
  }

  function ParseSdlVersion(version: int32): Result<Version, Error>
  {
    NewVersion(Quot(version, 1000000), Rem(Quot(version, 1000), 1000), Rem(version, 1000))
  }

  /** Every negative input makes some component negative, so parsing throws exactly for negative inputs. */
  lemma ParseFailsIffNegative(version: int32)
    ensures ParseSdlVersion(version).Err? <==> version < 0
  {
    if version < 0 {
      var u: int := -(version as int);
      assert Rem(version, 1000) == -(u % 1000);
      if u % 1000 == 0 {
        var k := u / 1000;
        assert Quot(version, 1000) == -k;
        assert Rem(-k, 1000) == -(k % 1000);
        if k % 1000 == 0 {
          assert u == (k / 1000) * 1000000;
          assert Quot(version, 1000000) == -(k / 1000);
          assert k / 1000 > 0;
        }
      }
    }
  }

  /** For a non-negative input: the major part is `v / 1000000`, minor and patch lie in [0, 999], and they recombine to `v`. */
  lemma ParseNonNegative(version: int32)
    requires version >= 0
    ensures ParseSdlVersion(version).Ok?
    ensures ParseSdlVersion(version).value.major == version / 1000000
    ensures 0 <= ParseSdlVersion(version).value.minor <= 999
    ensures 0 <= ParseSdlVersion(version).value.build <= 999
    ensures var v := ParseSdlVersion(version).value;
            v.major * 1000000 + v.minor * 1000 + v.build == version
  {
    var q := version / 1000;
    assert version == q * 1000 + version % 1000;
    assert q == (version / 1000000) * 1000 + q % 1000;
  }

  /** Decoding `M * 1000000 + m * 1000 + p` with minor and patch below 1000 gives back (M, m, p). */
  lemma ParseEncoded(major: nat, minor: nat, patch: nat)
    requires minor < 1000 && patch < 1000
    requires major * 1000000 + minor * 1000 + patch < 0x8000_0000
    ensures ParseSdlVersion(major * 1000000 + minor * 1000 + patch) == Ok(Version(major, minor, patch))
  {
    var v := major * 1000000 + minor * 1000 + patch;
    assert v / 1000 == major * 1000 + minor;
    assert v / 1000000 == major;
  }
}
