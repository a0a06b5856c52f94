/** The wind-direction interpreter: a bearing in degrees, in any range or NaN,
    becomes one of eight 45-degree compass sectors with an arrow icon. */
module WindDirection {
  import opened Numbers
  import opened Text

  /** The `{direccion, emoji}` pair the interpreter returns. */
  datatype WindReading = WindReading(direccion: Line, emoji: Line)

  /** The answer when no sector matches. */
  const Indeterminada := WindReading("?", "❓")

  /** `((grados % 360) + 360) % 360`: the bearing brought into [0, 360),
      computed with JavaScript's truncated remainder. */
  function Normalize(grados: Number): (deg: Number) {
    Rem360(Add(Rem360(grados), 360.0))
  }

  /** The source's chain of early returns over the normalised bearing. Every
      comparison is false on NaN, so NaN runs through to the last line. */
  function InterpretarDireccionViento(grados: Number): (reading: WindReading) {
    var deg := Normalize(grados);
    if AtLeast(deg, 337.5) || Below(deg, 22.5) then WindReading("N", "⬆️")
    else if AtLeast(deg, 22.5) && Below(deg, 67.5) then WindReading("NE", "↗️")
    else if AtLeast(deg, 67.5) && Below(deg, 112.5) then WindReading("E", "➡️")
    else if AtLeast(deg, 112.5) && Below(deg, 157.5) then WindReading("SE", "↘️")
    else if AtLeast(deg, 157.5) && Below(deg, 202.5) then WindReading("S", "⬇️")
    else if AtLeast(deg, 202.5) && Below(deg, 247.5) then WindReading("SW", "↙️")
    else if AtLeast(deg, 247.5) && Below(deg, 292.5) then WindReading("W", "⬅️")
    else if AtLeast(deg, 292.5) && Below(deg, 337.5) then WindReading("NW", "↖️")
    else Indeterminada
  }

  // ---------------------------------------------------------------------
  // Normalisation

  /** The canonical representative of `x` in [0, 360). */
  function Canonical(x: real): (c: real) {
    x - 360.0 * (x / 360.0).Floor as real
  }

  /** Two values in [0, 360) a whole number of turns apart are equal. */
  lemma {:induction false} SameTurnInRange(a: real, b: real)
    requires 0.0 <= a < 360.0 && 0.0 <= b < 360.0
    requires SameTurn(a, b)
    ensures a == b
  {
    var n := ((a - b) / 360.0).Floor;
    assert n as real * 360.0 == a - b;
    assert -1 < n < 1;
  }

  /** For a finite bearing the normalised value is the canonical one, so
      it lies in [0, 360); NaN stays NaN. */
  lemma {:induction false} NormalizeCanonical(grados: Number)
    ensures grados.NaN? <==> Normalize(grados).NaN?
    ensures grados.Finite? ==> Normalize(grados) == Finite(Canonical(grados.value))
    ensures grados.Finite? ==> 0.0 <= Normalize(grados).value < 360.0
  {
    if grados.Finite? {
      var x := grados.value;
      var r1 := Rem360(grados).value;
      var r2 := Add(Rem360(grados), 360.0).value;
      var r3 := Normalize(grados).value;
      assert 0.0 < r2 < 720.0;
      assert 0.0 <= r3 < 360.0;
      var c := Canonical(x);
      var k := (x / 360.0).Floor;
      assert 0.0 <= c < 360.0;
      assert SameTurn(x, c) by {
        assert (x - c) / 360.0 == k as real;
      }
      var n1 := ((x - r1) / 360.0).Floor;
      var n3 := ((r2 - r3) / 360.0).Floor;
      assert r3 - c == 360.0 * (k - n1 - n3 + 1) as real;
      assert SameTurn(r3, c) by {
        assert (r3 - c) / 360.0 == (k - n1 - n3 + 1) as real;
      }
      SameTurnInRange(r3, c);
    }
  }

  /** Normalising twice is normalising once. */
  lemma {:induction false} NormalizeIdempotent(grados: Number)
    ensures Normalize(Normalize(grados)) == Normalize(grados)
  {
    NormalizeCanonical(grados);
    if grados.Finite? {
      var d := Normalize(grados);
      NormalizeCanonical(d);
      assert (d.value / 360.0).Floor == 0;
    }
  }

  /** Adding whole turns does not change the normalised bearing. */
  lemma {:induction false} NormalizePeriodic(x: real, k: int)
    ensures Normalize(Finite(x + 360.0 * k as real)) == Normalize(Finite(x))
  {
    var y := x + 360.0 * k as real;
    NormalizeCanonical(Finite(x));
    NormalizeCanonical(Finite(y));
    assert y / 360.0 == x / 360.0 + k as real;
    assert (y / 360.0).Floor == (x / 360.0).Floor + k;
  }

  // ---------------------------------------------------------------------
  // Sectors

  datatype Sector = N | NE | E | SE | S | SW | W | NW

  /** The sectors in clockwise order from north. */
  const Rose: seq<Sector> := [N, NE, E, SE, S, SW, W, NW]

  /** The reading the interpreter gives for each sector. */
  function ReadingOf(s: Sector): (reading: WindReading) {
    match s
    case N => WindReading("N", "⬆️")
    case NE => WindReading("NE", "↗️")
    case E => WindReading("E", "➡️")
    case SE => WindReading("SE", "↘️")
    case S => WindReading("S", "⬇️")
    case SW => WindReading("SW", "↙️")
    case W => WindReading("W", "⬅️")
    case NW => WindReading("NW", "↖️")
  }

  /** Position of a sector in `Rose`; its centre is at 45 times it. */
  function IndexOf(s: Sector): (i: nat)
    ensures i < |Rose| && Rose[i] == s
  {
    match s
    case N => 0
    case NE => 1
    case E => 2
    case SE => 3
    case S => 4
    case SW => 5
    case W => 6
    case NW => 7
  }

  /** The half-open interval of a sector: 45 degrees centred on its point,
      from `45 i - 22.5` inclusive to `45 i + 22.5` exclusive, with N's
      interval split across the 0/360 seam. */
  predicate InSector(s: Sector, d: real) {
    var lo := 45.0 * IndexOf(s) as real - 22.5;
    if s == N then d >= 337.5 || d < 22.5 else lo <= d < lo + 45.0
  }

  /** The sector of a bearing in [0, 360) by arithmetic rather than by
      comparisons: the nearest multiple of 45 degrees, counted round. */
  function SectorOf(d: real): (s: Sector)
    requires 0.0 <= d < 360.0
  {
    var q := ((d + 22.5) / 45.0).Floor;
    assert 0 <= q <= 8;
    Rose[q % 8]
  }

  /** The eight sectors are pairwise disjoint and cover [0, 360): a bearing
      lies in a sector exactly when that sector is the arithmetic one. */
  lemma {:induction false} SectorsPartition(d: real, s: Sector)
    requires 0.0 <= d < 360.0
    ensures InSector(s, d) <==> s == SectorOf(d)
  {
    var q := ((d + 22.5) / 45.0).Floor;
    assert q as real * 45.0 <= d + 22.5 < q as real * 45.0 + 45.0;
    assert 0 <= q <= 8;
  }

  /** For a finite bearing the interpreter names the sector of its
      normalised value and never falls back to "?". */
  lemma {:induction false} InterpretFinite(x: real)
    ensures 0.0 <= Canonical(x) < 360.0
    ensures InterpretarDireccionViento(Finite(x)) == ReadingOf(SectorOf(Canonical(x)))
    ensures InterpretarDireccionViento(Finite(x)) != Indeterminada
  {
    NormalizeCanonical(Finite(x));
    var d := Canonical(x);
    SectorsPartition(d, SectorOf(d));
  }

  /** The fallback is reached exactly from NaN. */
  lemma {:induction false} FallbackOnlyNaN(grados: Number)
    ensures InterpretarDireccionViento(grados) == Indeterminada <==> grados.NaN?
  {
    if grados.Finite? {
      InterpretFinite(grados.value);
    }
  }

  /** Bearings a whole number of turns apart read the same. */
  lemma {:induction false} InterpretPeriodic(x: real, k: int)
    ensures InterpretarDireccionViento(Finite(x + 360.0 * k as real))
         == InterpretarDireccionViento(Finite(x))
  {
    NormalizePeriodic(x, k);
  }

  /** A bearing already in [0, 360) gets the reading of the sector that
      holds it. */
  lemma {:induction false} InterpretInRange(d: real, s: Sector)
    requires 0.0 <= d < 360.0 && InSector(s, d)
    ensures InterpretarDireccionViento(Finite(d)) == ReadingOf(s)
  {
    InterpretFinite(d);
    assert (d / 360.0).Floor == 0;
    SectorsPartition(d, s);
  }

  /** The sector centres, as the source's tests exercise them. */
  lemma SampleCentres()
    ensures var r := InterpretarDireccionViento(Finite(0.0)); r.direccion == "N" && r.emoji == "⬆️"
    ensures var r := InterpretarDireccionViento(Finite(45.0)); r.direccion == "NE" && r.emoji == "↗️"
    ensures var r := InterpretarDireccionViento(Finite(90.0)); r.direccion == "E" && r.emoji == "➡️"
    ensures var r := InterpretarDireccionViento(Finite(135.0)); r.direccion == "SE" && r.emoji == "↘️"
    ensures var r := InterpretarDireccionViento(Finite(180.0)); r.direccion == "S" && r.emoji == "⬇️"
    ensures var r := InterpretarDireccionViento(Finite(225.0)); r.direccion == "SW" && r.emoji == "↙️"
    ensures var r := InterpretarDireccionViento(Finite(270.0)); r.direccion == "W" && r.emoji == "⬅️"
    ensures var r := InterpretarDireccionViento(Finite(315.0)); r.direccion == "NW" && r.emoji == "↖️"
  {
    InterpretInRange(0.0, N);
    InterpretInRange(45.0, NE);
    InterpretInRange(90.0, E);
    InterpretInRange(135.0, SE);
    InterpretInRange(180.0, S);
    InterpretInRange(225.0, SW);
    InterpretInRange(270.0, W);
    InterpretInRange(315.0, NW);
  }

  /** The half-open boundaries, the wrap of a negative bearing and NaN. */
  lemma SampleEdges()
    ensures var r := InterpretarDireccionViento(Finite(22.5)); r.direccion == "NE" && r.emoji == "↗️"
    ensures var r := InterpretarDireccionViento(Finite(337.5)); r.direccion == "N" && r.emoji == "⬆️"
    ensures var r := InterpretarDireccionViento(Finite(-10.0)); r.direccion == "N" && r.emoji == "⬆️"
    ensures InterpretarDireccionViento(Finite(-10.0)) == InterpretarDireccionViento(Finite(350.0))
    ensures var r := InterpretarDireccionViento(NaN); r.direccion == "?" && r.emoji == "❓"
  {
    InterpretInRange(22.5, NE);
    InterpretInRange(337.5, N);
    InterpretInRange(350.0, N);
    InterpretPeriodic(350.0, -1);
  }
}
