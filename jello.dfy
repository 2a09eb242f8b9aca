/** The frame driver of the jello cube (jello.cpp `idle`): once per frame it names the next
    snapshot `picNNNN.ppm`, saves one screenshot when asked to, stops the program after 300
    snapshots and, unless paused, advances the world by one step of the integrator the world
    names. The screenshot itself is recorded by name only; pixels and files are not modelled. */
module Jello {
  import opened Vectors
  import opened Lattice
  import opened Physics

  /** Number of snapshots after which the program exits. */
  const MaxSnapshots := 300

  /** The character `48 + x` stored into a C `char`: the low byte of the sum. */
  function DigitChar(x: int): char
  {
    ((48 + x) % 256) as char
  }

  /** The name `idle` builds for snapshot `sprite`: "picxxxx.ppm" with characters 3 to 6
      replaced by 48 + the thousands, hundreds, tens and units of `sprite`. */
  function SnapshotName(sprite: nat): (s: string)
    ensures |s| == 11 && s[..3] == "pic" && s[7..] == ".ppm"
  {
    "pic" + [DigitChar(sprite / 1000), DigitChar(sprite % 1000 / 100), DigitChar(sprite % 100 / 10), DigitChar(sprite % 10)] + ".ppm"
  }

  /** The value of the decimal digit character ch. */
  function DigitValue(ch: char): int
  {
    ch as int - 48
  }

  /** The number written in characters 3 to 6 of a snapshot name, read as four decimal digits. */
  function SpriteOf(name: string): int
    requires |name| == 11
  {
    1000 * DigitValue(name[3]) + 100 * DigitValue(name[4]) + 10 * DigitValue(name[5]) + DigitValue(name[6])
  }

  /** For sprite below 10000 characters 3 to 6 of the name are decimal digits, they spell
      sprite zero-padded to four places, and so different snapshots get different names. */
  lemma SnapshotNameDigits(sprite: nat)
    requires sprite < 10000
    ensures forall m :: 3 <= m < 7 ==> '0' <= SnapshotName(sprite)[m] <= '9'
    ensures SpriteOf(SnapshotName(sprite)) == sprite
  {
    var s := SnapshotName(sprite);
    var a, b, c, d := sprite / 1000, sprite % 1000 / 100, sprite % 100 / 10, sprite % 10;
    FourDigits(sprite);
    DigitRoundTrip(a);
    DigitRoundTrip(b);
    DigitRoundTrip(c);
    DigitRoundTrip(d);
    assert s[3] == DigitChar(a) && s[4] == DigitChar(b) && s[5] == DigitChar(c) && s[6] == DigitChar(d);
  }

  /** The thousands, hundreds, tens and units of a number below 10000 are decimal digits and
      make up the number. */
  lemma FourDigits(n: nat)
    requires n < 10000
    ensures 0 <= n / 1000 < 10 && 0 <= n % 1000 / 100 < 10 && 0 <= n % 100 / 10 < 10 && 0 <= n % 10 < 10
    ensures 1000 * (n / 1000) + 100 * (n % 1000 / 100) + 10 * (n % 100 / 10) + n % 10 == n
  {
    var a, r := n / 1000, n % 1000;
    var b, t := r / 100, r % 100;
    assert n == 1000 * a + r;
    assert r == 100 * b + t;
    assert n / 100 == 10 * a + b;
    assert n % 100 == t;
  }

  /** A single decimal digit x is stored as the character '0' + x and read back as x. */
  lemma DigitRoundTrip(x: int)
    requires 0 <= x < 10
    ensures '0' <= DigitChar(x) <= '9' && DigitValue(DigitChar(x)) == x
  {
  }

  /** Snapshots 0 to 9999 have pairwise different names. */
  lemma SnapshotNameInjective(a: nat, b: nat)
    requires a < 10000 && b < 10000 && a != b
    ensures SnapshotName(a) != SnapshotName(b)
  {
    SnapshotNameDigits(a);
    SnapshotNameDigits(b);
  }

  /** Below the 300-snapshot cap the leading digit of every name is '0'. */
  lemma LeadingDigitBelowCap(sprite: nat)
    requires sprite < MaxSnapshots
    ensures SnapshotName(sprite)[3] == '0'
  {
    assert SnapshotName(sprite)[3] == DigitChar(sprite / 1000);
  }

  /** While fewer than 300 snapshots exist, the names pic0000.ppm, pic0001.ppm, ... all have
      '0' as their thousands digit: every name begins "pic0". */
  lemma NamesBelowCap(names: seq<string>)
    requires |names| < MaxSnapshots
    requires forall m :: 0 <= m < |names| ==> names[m] == SnapshotName(m)
    ensures forall m :: 0 <= m < |names| ==> |names[m]| == 11 && names[m][..4] == "pic0"
  {
    forall m | 0 <= m < |names|
      ensures |names[m]| == 11 && names[m][..4] == "pic0"
    {
      LeadingDigitBelowCap(m);
    }
  }

  /** `char s[20] = "picxxxx.ppm"` with its four digits then written in place: the first 11
      characters are the snapshot name, the remaining 9 the terminating zeros. */
  method FormatSnapshotName(sprite: nat) returns (s: array<char>)
    ensures s.Length == 20
    ensures s[..11] == SnapshotName(sprite)
    ensures forall m :: 11 <= m < 20 ==> s[m] == '\0'
  {
    var template := "picxxxx.ppm";
    s := new char[20](m => if 0 <= m < 11 then template[m] else '\0');
    s[3] := DigitChar(sprite / 1000);
    s[4] := DigitChar(sprite % 1000 / 100);
    s[5] := DigitChar(sprite % 100 / 10);
    s[6] := DigitChar(sprite % 10);
  }

  /** The program state `idle` works on: the globals `sprite`, `pause` and `saveScreenToFile`
      and the world `jello`. `screenshots` lists the file names passed to `saveScreenshot`, in
      order. */
  class Simulation {
    var sprite: int
    var saveScreenToFile: int
    var pause: int
    var jello: World
    var screenshots: seq<string>

    /** The world is well formed, and exactly `sprite` screenshots have been saved, named
        pic0000.ppm, pic0001.ppm, ... in turn. */
    ghost predicate Valid()
      reads this, jello
    {
      jello.Valid() && 0 <= sprite && |screenshots| == sprite &&
      forall m :: 0 <= m < |screenshots| ==> screenshots[m] == SnapshotName(m)
    }

    /** The globals as the program starts (jello.cpp:28-37), around a loaded world. */
    constructor(world: World)
      requires world.Valid()
      ensures Valid()
      ensures sprite == 0 && saveScreenToFile == 0 && pause == 0 && jello == world && screenshots == []
    {
      sprite, saveScreenToFile, pause, jello, screenshots := 0, 0, 0, world, [];
    }

    /** One call of `idle`. When the flag is 1 it saves one screenshot under the current name,
        clears the flag and counts the snapshot. It then stops (`exited`) once 300 snapshots
        exist. Otherwise, unless paused, it takes one step of `Euler` when the world names
        "EULER", one of `RK4` when it names "RK4", and none for any other name. Only the
        positions and velocities of the world change. */
    method Idle(accel: Acceleration) returns (exited: bool)
      requires Valid()
      modifies this, jello.p, jello.v
      ensures Valid() && jello == old(jello) && unchanged(jello) && pause == old(pause)
      ensures old(saveScreenToFile) == 1 ==>
        saveScreenToFile == 0 && sprite == old(sprite) + 1 && screenshots == old(screenshots) + [SnapshotName(old(sprite))]
      ensures old(saveScreenToFile) != 1 ==>
        saveScreenToFile == old(saveScreenToFile) && sprite == old(sprite) && screenshots == old(screenshots)
      ensures exited <==> sprite >= MaxSnapshots
      ensures !exited ==> forall m :: 0 <= m < |screenshots| ==> |screenshots[m]| == 11 && screenshots[m][..4] == "pic0"
      ensures exited || pause != 0 || (jello.integrator != "EULER" && jello.integrator != "RK4") ==>
        jello.Phase() == old(jello.Phase())
      ensures !exited && pause == 0 && jello.integrator == "EULER" ==>
        jello.Phase() == EulerStep(jello.Coeffs(), accel, jello.dt, old(jello.Phase()))
      ensures !exited && pause == 0 && jello.integrator == "RK4" ==>
        jello.Phase() == Rk4Step(jello.Coeffs(), accel, jello.dt, old(jello.Phase()))
    {
      var s := FormatSnapshotName(sprite);

      if saveScreenToFile == 1 {
        screenshots := screenshots + [s[..11]];
        saveScreenToFile := 0;
        sprite := sprite + 1;
      }

      if sprite >= MaxSnapshots {
        return true;
      }

      NamesBelowCap(screenshots);
      if pause == 0 {
        var integrator := jello.integrator;
        if integrator == "EULER" {
          Euler(jello, accel);
        } else if integrator == "RK4" {
          RK4(jello, accel);
        }
      }
      return false;
    }
  }
}
