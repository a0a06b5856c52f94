/** The weather-code interpreter: an exact-match lookup from an Open-Meteo
    weather code to a Spanish description and an icon, with a fixed
    "unknown" answer for every other code. */
module WeatherCode {
  import opened Text

  /** The `{descripcion, emoji}` pair the interpreter returns. */
  datatype WeatherReading = WeatherReading(descripcion: Line, emoji: Line)

  const Despejado := WeatherReading("Despejado", "☀️")
  const PrincipalmenteDespejado := WeatherReading("Principalmente despejado", "🌤️")
  const ParcialmenteNublado := WeatherReading("Parcialmente nublado", "⛅")
  const Nublado := WeatherReading("Nublado", "☁️")
  const Niebla := WeatherReading("Niebla", "🌫️")
  const Llovizna := WeatherReading("Llovizna", "🌦️")
  const Lluvia := WeatherReading("Lluvia", "🌧️")
  const Nieve := WeatherReading("Nieve", "❄️")
  const Chubascos := WeatherReading("Chubascos", "🌧️")
  const Tormenta := WeatherReading("Tormenta", "⛈️")

  /** The answer for any code outside the table. */
  const Desconocido := WeatherReading("Desconocido", "❓")

  /** The lookup table, one entry per code the service knows. */
  const Codigos: map<int, WeatherReading> := map[
    0 := Despejado,
    1 := PrincipalmenteDespejado,
    2 := ParcialmenteNublado,
    3 := Nublado,
    45 := Niebla, 48 := Niebla,
    51 := Llovizna, 53 := Llovizna, 55 := Llovizna,
    61 := Lluvia, 63 := Lluvia, 65 := Lluvia,
    71 := Nieve, 73 := Nieve, 75 := Nieve,
    80 := Chubascos, 81 := Chubascos, 82 := Chubascos,
    95 := Tormenta, 96 := Tormenta, 99 := Tormenta
  ]

  /** Every answer the interpreter can give, the sentinel last. */
  const Readings: seq<WeatherReading> :=
    [Despejado, PrincipalmenteDespejado, ParcialmenteNublado, Nublado, Niebla,
     Llovizna, Lluvia, Nieve, Chubascos, Tormenta, Desconocido]

  /** The 21 codes of the table, listed in ascending order. */
  const KnownCodes: seq<int> :=
    [0, 1, 2, 3, 45, 48, 51, 53, 55, 61, 63, 65, 71, 73, 75, 80, 81, 82, 95, 96, 99]

  /** The source's `codigos[codigo] || {Desconocido, ❓}`. Every table entry
      is an object, hence truthy, so the default applies exactly when the
      key is missing. */
  function InterpretarCodigoTiempo(codigo: int): (reading: WeatherReading)
  {
    if codigo in Codigos then Codigos[codigo] else Desconocido
  }

  /** The table read the other way round: the codes that share each
      reading, in the order of `Readings` (the sentinel has no entry). */
  const CodeGroups: seq<set<int>> :=
    [{0}, {1}, {2}, {3}, {45, 48}, {51, 53, 55}, {61, 63, 65}, {71, 73, 75}, {80, 81, 82}, {95, 96, 99}]

  /** The table holds exactly the 21 listed codes, and no more. */
  lemma {:induction false} TableDomain(codigo: int)
    ensures codigo in Codigos <==> codigo in KnownCodes
    ensures |KnownCodes| == 21
    ensures forall i, j :: 0 <= i < j < |KnownCodes| ==> KnownCodes[i] < KnownCodes[j]
  {
  }

  /** Each code of a group is interpreted as that group's reading. */
  lemma {:induction false} GroupCodesAreInterpreted(codigo: int, n: nat)
    requires n < |CodeGroups| && codigo in CodeGroups[n]
    ensures InterpretarCodigoTiempo(codigo) == Readings[n]
  {
    if n < 4 {
      assert codigo in {0, 1, 2, 3};
    } else if n < 7 {
      assert codigo in {45, 48, 51, 53, 55, 61, 63, 65};
    } else {
      assert codigo in {71, 73, 75, 80, 81, 82, 95, 96, 99};
    }
  }

  /** Each table code belongs to some group. */
  lemma {:induction false} TableCodesAreGrouped(codigo: int)
    requires codigo in Codigos
    ensures exists n :: 0 <= n < |CodeGroups| && codigo in CodeGroups[n]
  {
    assert codigo in KnownCodes by { TableDomain(codigo); }
    assert codigo in CodeGroups[0] || codigo in CodeGroups[1] || codigo in CodeGroups[2] ||
           codigo in CodeGroups[3] || codigo in CodeGroups[4] || codigo in CodeGroups[5] ||
           codigo in CodeGroups[6] || codigo in CodeGroups[7] || codigo in CodeGroups[8] ||
           codigo in CodeGroups[9];
  }

  /** The eleven possible readings are pairwise different. */
  lemma {:induction false} ReadingsDistinct(m: nat, n: nat)
    requires m < n < |Readings|
    ensures Readings[m] != Readings[n]
  {
  }

  /** A code gives the reading of group `n` exactly when it belongs to that
      group; this pins every table entry down, shared readings included. */
  lemma {:induction false} ReadingIffCode(codigo: int, n: nat)
    requires n < |CodeGroups|
    ensures InterpretarCodigoTiempo(codigo) == Readings[n] <==> codigo in CodeGroups[n]
  {
    if codigo in CodeGroups[n] {
      GroupCodesAreInterpreted(codigo, n);
    }
    if InterpretarCodigoTiempo(codigo) == Readings[n] {
      assert Readings[n] != Desconocido by { ReadingsDistinct(n, 10); }
      assert codigo in Codigos;
      TableCodesAreGrouped(codigo);
      var m :| 0 <= m < |CodeGroups| && codigo in CodeGroups[m];
      GroupCodesAreInterpreted(codigo, m);
      if m < n { ReadingsDistinct(m, n); } else if n < m { ReadingsDistinct(n, m); }
    }
  }

  /** The sentinel is returned for exactly the codes outside the table:
      no table entry is the sentinel, and no code makes the lookup fail. */
  lemma {:induction false} UnknownIffOutsideTable(codigo: int)
    ensures InterpretarCodigoTiempo(codigo) == Desconocido <==> codigo !in KnownCodes
    ensures InterpretarCodigoTiempo(codigo).descripcion == "Desconocido" <==> codigo !in KnownCodes
  {
    TableDomain(codigo);
  }

  /** Every answer is one of the listed readings. */
  lemma {:induction false} ReadingsComplete(codigo: int)
    ensures InterpretarCodigoTiempo(codigo) in Readings
  {
  }

  /** Whatever the code, the description alone determines the icon. */
  lemma {:induction false} DescriptionDeterminesEmoji(c1: int, c2: int)
    ensures InterpretarCodigoTiempo(c1).descripcion == InterpretarCodigoTiempo(c2).descripcion
        ==> InterpretarCodigoTiempo(c1) == InterpretarCodigoTiempo(c2)
  {
  }

  /** The individual cases the source's tests exercise. */
  lemma SampleCodes()
    ensures InterpretarCodigoTiempo(0) == WeatherReading("Despejado", "☀️")
    ensures InterpretarCodigoTiempo(61) == WeatherReading("Lluvia", "🌧️")
    ensures InterpretarCodigoTiempo(63) == InterpretarCodigoTiempo(61)
    ensures InterpretarCodigoTiempo(65) == InterpretarCodigoTiempo(61)
    ensures InterpretarCodigoTiempo(999) == WeatherReading("Desconocido", "❓")
    ensures InterpretarCodigoTiempo(-1) == WeatherReading("Desconocido", "❓")
    ensures InterpretarCodigoTiempo(4) == WeatherReading("Desconocido", "❓")
  {
  }
}
