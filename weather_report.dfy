/** The report formatter: the observation returned by the forecast service,
    its unit strings and the caller's coordinates become one fixed-layout
    text. The wall-clock timestamp and the rendering of numbers inside the
    template are parameters. */
module WeatherReport {
  import opened Numbers
  import opened Text
  import opened WeatherCode
  import opened WindDirection

  /** The `current` object of the forecast response. */
  datatype Current = Current(
    temperature_2m: Number,
    relative_humidity_2m: Number,
    apparent_temperature: Number,
    precipitation_probability: Number,
    precipitation: Number,
    weather_code: int,
    wind_speed_10m: Number,
    wind_direction_10m: Number)

  /** The `current_units` object: one unit string per measurement that has one. */
  datatype Units = Units(
    temperature_2m: string,
    relative_humidity_2m: string,
    apparent_temperature: string,
    precipitation_probability: string,
    precipitation: string,
    wind_speed_10m: string,
    wind_direction_10m: string)

  /** The whole forecast response the formatter reads. */
  datatype Datos = Datos(current: Current, current_units: Units)

  const TituloCabecera: Line := "🌍 PRONÓSTICO DEL TIEMPO"
  const TemperaturaCabecera: Line := "🌡️  TEMPERATURA"
  const CondicionesCabecera: Line := "☁️  CONDICIONES"
  const VientoCabecera: Line := "💨 VIENTO"
  const Regla: Line := "======================="
  const Separador: Line := "-----------------------"

  /** Line `k` of the template's 22 lines. `fecha` is the formatting
      moment's local time and `show` is how a number prints inside a
      template literal. */
  function ReportLine(datos: Datos, latitude: Number, longitude: Number,
                      fecha: string, show: Number -> string, k: nat): (line: string)
    requires k < 22
  {
    var c := datos.current;
    var u := datos.current_units;
    match k
    case 0 => TituloCabecera
    case 1 => Regla
    case 2 => ""
    case 3 => "📍 Ubicación: " + show(latitude) + "°N, " + show(longitude) + "°W"
    case 4 => "🕐 Fecha: " + fecha
    case 5 => ""
    case 6 => TemperaturaCabecera
    case 7 => Separador
    case 8 => "Actual:         " + show(c.temperature_2m) + u.temperature_2m
    case 9 => "Sensación:      " + show(c.apparent_temperature) + u.apparent_temperature
    case 10 => "Humedad:        " + show(c.relative_humidity_2m) + u.relative_humidity_2m + " 💧"
    case 11 => ""
    case 12 => CondicionesCabecera
    case 13 => Separador
    case 14 =>
      var weather := InterpretarCodigoTiempo(c.weather_code);
      "Estado:         " + weather.emoji + " " + weather.descripcion
    case 15 => "Precipitación:  " + show(c.precipitation_probability) + u.precipitation_probability + " 🌧️"
    case 16 => "Acumulada:      " + show(c.precipitation) + " " + u.precipitation
    case 17 => ""
    case 18 => VientoCabecera
    case 19 => Separador
    case 20 => "Velocidad:      " + show(c.wind_speed_10m) + " " + u.wind_speed_10m
    case _ =>
      var wind := InterpretarDireccionViento(c.wind_direction_10m);
      "Dirección:      " + wind.emoji + "  " + wind.direccion + " (" + show(c.wind_direction_10m) + "°)"
  }

  /** The template's lines in order. */
  function ReportLines(datos: Datos, latitude: Number, longitude: Number,
                       fecha: string, show: Number -> string): (ls: seq<string>)
  {
    seq(22, k requires 0 <= k < 22 => ReportLine(datos, latitude, longitude, fecha, show, k))
  }

  /** The template literal: it opens with a newline, then every line of the
      layout ends with one. */
  function FormatearDatosMeteo(datos: Datos, latitude: Number, longitude: Number,
                               fecha: string, show: Number -> string): (report: string)
  {
    "\n" + Join(ReportLines(datos, latitude, longitude, fecha, show))
  }

  // ---------------------------------------------------------------------
  // What the report shows

  /** The report contains `<lat>°N, <lon>°W` with the coordinates rendered
      verbatim, whatever their sign. */
  lemma {:induction false} ReportShowsLocation(datos: Datos, latitude: Number, longitude: Number,
                                               fecha: string, show: Number -> string)
    ensures Contains(FormatearDatosMeteo(datos, latitude, longitude, fecha, show),
                     show(latitude) + "°N, " + show(longitude) + "°W")
  {
    var ls := ReportLines(datos, latitude, longitude, fecha, show);
    var piece := show(latitude) + "°N, " + show(longitude) + "°W";
    assert ls[3] == "📍 Ubicación: " + piece + "";
    PieceAfterPrefix("\n", ls, 3, "📍 Ubicación: ", piece, "");
  }

  /** The report shows the timestamp it was given, on a line of its own. */
  lemma {:induction false} ReportShowsDate(datos: Datos, latitude: Number, longitude: Number,
                                           fecha: string, show: Number -> string)
    ensures Contains(FormatearDatosMeteo(datos, latitude, longitude, fecha, show),
                     "🕐 Fecha: " + fecha + "\n")
  {
    var ls := ReportLines(datos, latitude, longitude, fecha, show);
    var r := FormatearDatosMeteo(datos, latitude, longitude, fecha, show);
    LineAfterPrefix("\n", ls, 4);
    assert ls[4] + "\n" == "🕐 Fecha: " + fecha + "\n";
    assert OccursAt(r, ls[4] + "\n", 1 + Offset(ls, 4));
  }

  /** The conditions line carries the icon and the description the
      weather-code interpreter gives for the observation's code. */
  lemma {:induction false} ReportShowsWeather(datos: Datos, latitude: Number, longitude: Number,
                                              fecha: string, show: Number -> string)
    ensures var w := InterpretarCodigoTiempo(datos.current.weather_code);
      Contains(FormatearDatosMeteo(datos, latitude, longitude, fecha, show),
               w.emoji + " " + w.descripcion)
  {
    var ls := ReportLines(datos, latitude, longitude, fecha, show);
    var w := InterpretarCodigoTiempo(datos.current.weather_code);
    var piece := w.emoji + " " + w.descripcion;
    assert ls[14] == "Estado:         " + piece + "";
    PieceAfterPrefix("\n", ls, 14, "Estado:         ", piece, "");
  }

  /** The direction line carries the icon and the label the wind
      interpreter gives for the observation's bearing, then the raw bearing. */
  lemma {:induction false} ReportShowsWind(datos: Datos, latitude: Number, longitude: Number,
                                           fecha: string, show: Number -> string)
    ensures var wind := InterpretarDireccionViento(datos.current.wind_direction_10m);
      Contains(FormatearDatosMeteo(datos, latitude, longitude, fecha, show),
               wind.emoji + "  " + wind.direccion + " (" + show(datos.current.wind_direction_10m) + "°)")
  {
    var ls := ReportLines(datos, latitude, longitude, fecha, show);
    var b := datos.current.wind_direction_10m;
    var wind := InterpretarDireccionViento(b);
    var piece := wind.emoji + "  " + wind.direccion + " (" + show(b) + "°)";
    assert ls[21] == "Dirección:      " + piece + "";
    PieceAfterPrefix("\n", ls, 21, "Dirección:      ", piece, "");
  }

  /** The three temperature-block readings appear each followed by its unit. */
  lemma {:induction false} ReportShowsTemperatures(datos: Datos, latitude: Number, longitude: Number,
                                                   fecha: string, show: Number -> string)
    ensures var r := FormatearDatosMeteo(datos, latitude, longitude, fecha, show);
      var c, u := datos.current, datos.current_units;
      && Contains(r, show(c.temperature_2m) + u.temperature_2m)
      && Contains(r, show(c.apparent_temperature) + u.apparent_temperature)
      && Contains(r, show(c.relative_humidity_2m) + u.relative_humidity_2m)
  {
    var ls := ReportLines(datos, latitude, longitude, fecha, show);
    var c, u := datos.current, datos.current_units;
    var p8 := show(c.temperature_2m) + u.temperature_2m;
    var p9 := show(c.apparent_temperature) + u.apparent_temperature;
    var p10 := show(c.relative_humidity_2m) + u.relative_humidity_2m;
    assert ls[8] == "Actual:         " + p8 + "";
    PieceAfterPrefix("\n", ls, 8, "Actual:         ", p8, "");
    assert ls[9] == "Sensación:      " + p9 + "";
    PieceAfterPrefix("\n", ls, 9, "Sensación:      ", p9, "");
    assert ls[10] == "Humedad:        " + p10 + " 💧";
    PieceAfterPrefix("\n", ls, 10, "Humedad:        ", p10, " 💧");
  }

  /** The precipitation probability appears followed by its unit. */
  lemma {:induction false} PrecipitationProbabilityShown(datos: Datos, latitude: Number, longitude: Number,
                                                         fecha: string, show: Number -> string)
    ensures var c, u := datos.current, datos.current_units;
      Contains(FormatearDatosMeteo(datos, latitude, longitude, fecha, show),
               show(c.precipitation_probability) + u.precipitation_probability)
  {
    var ls := ReportLines(datos, latitude, longitude, fecha, show);
    var c, u := datos.current, datos.current_units;
    var piece := show(c.precipitation_probability) + u.precipitation_probability;
    assert ls[15] == "Precipitación:  " + piece + " 🌧️";
    PieceAfterPrefix("\n", ls, 15, "Precipitación:  ", piece, " 🌧️");
  }

  /** The accumulated precipitation appears followed by a space and its unit. */
  lemma {:induction false} PrecipitationShown(datos: Datos, latitude: Number, longitude: Number,
                                              fecha: string, show: Number -> string)
    ensures var c, u := datos.current, datos.current_units;
      Contains(FormatearDatosMeteo(datos, latitude, longitude, fecha, show),
               show(c.precipitation) + " " + u.precipitation)
  {
    var ls := ReportLines(datos, latitude, longitude, fecha, show);
    var c, u := datos.current, datos.current_units;
    var piece := show(c.precipitation) + " " + u.precipitation;
    assert ls[16] == "Acumulada:      " + piece + "";
    PieceAfterPrefix("\n", ls, 16, "Acumulada:      ", piece, "");
  }

  /** The wind speed appears followed by a space and its unit. */
  lemma {:induction false} WindSpeedShown(datos: Datos, latitude: Number, longitude: Number,
                                          fecha: string, show: Number -> string)
    ensures var c, u := datos.current, datos.current_units;
      Contains(FormatearDatosMeteo(datos, latitude, longitude, fecha, show),
               show(c.wind_speed_10m) + " " + u.wind_speed_10m)
  {
    var ls := ReportLines(datos, latitude, longitude, fecha, show);
    var c, u := datos.current, datos.current_units;
    var piece := show(c.wind_speed_10m) + " " + u.wind_speed_10m;
    assert ls[20] == "Velocidad:      " + piece + "";
    PieceAfterPrefix("\n", ls, 20, "Velocidad:      ", piece, "");
  }

  /** Precipitation probability, accumulated precipitation and wind speed
      appear each followed by its unit. */
  lemma {:induction false} ReportShowsPrecipitationAndSpeed(datos: Datos, latitude: Number, longitude: Number,
                                                            fecha: string, show: Number -> string)
    ensures var r := FormatearDatosMeteo(datos, latitude, longitude, fecha, show);
      var c, u := datos.current, datos.current_units;
      && Contains(r, show(c.precipitation_probability) + u.precipitation_probability)
      && Contains(r, show(c.precipitation) + " " + u.precipitation)
      && Contains(r, show(c.wind_speed_10m) + " " + u.wind_speed_10m)
  {
    PrecipitationProbabilityShown(datos, latitude, longitude, fecha, show);
    PrecipitationShown(datos, latitude, longitude, fecha, show);
    WindSpeedShown(datos, latitude, longitude, fecha, show);
  }

  /** The title and the three section headers appear in the order title,
      temperature, conditions, wind. */
  lemma {:induction false} ReportSectionOrder(datos: Datos, latitude: Number, longitude: Number,
                                              fecha: string, show: Number -> string)
    ensures var r := FormatearDatosMeteo(datos, latitude, longitude, fecha, show);
      exists i, j, k, l :: 0 <= i < j < k < l <= |r| && OccursAt(r, TituloCabecera, i) &&
        OccursAt(r, TemperaturaCabecera, j) && OccursAt(r, CondicionesCabecera, k) &&
        OccursAt(r, VientoCabecera, l)
  {
    var ls := ReportLines(datos, latitude, longitude, fecha, show);
    var r := FormatearDatosMeteo(datos, latitude, longitude, fecha, show);
    assert r == "\n" + Join(ls);
    var i, j, k, l := LinesInOrder("\n", ls, 0, 6, 12, 18,
                                   TituloCabecera, TemperaturaCabecera, CondicionesCabecera, VientoCabecera);
    assert 0 <= i < j < k < l <= |r| && OccursAt(r, TituloCabecera, i) &&
      OccursAt(r, TemperaturaCabecera, j) && OccursAt(r, CondicionesCabecera, k) &&
      OccursAt(r, VientoCabecera, l);
  }

  /** The unit string of the bearing is part of the response but never
      printed: changing it leaves the report unchanged. */
  lemma {:induction false} ReportIgnoresBearingUnit(datos: Datos, unit: string, latitude: Number,
                                                    longitude: Number, fecha: string, show: Number -> string)
    ensures var datos' := datos.(current_units := datos.current_units.(wind_direction_10m := unit));
      FormatearDatosMeteo(datos', latitude, longitude, fecha, show)
        == FormatearDatosMeteo(datos, latitude, longitude, fecha, show)
  {
    var datos' := datos.(current_units := datos.current_units.(wind_direction_10m := unit));
    var a := ReportLines(datos', latitude, longitude, fecha, show);
    var b := ReportLines(datos, latitude, longitude, fecha, show);
    forall k | 0 <= k < 22
      ensures a[k] == b[k]
    {
    }
    assert a == b;
  }

  // ---------------------------------------------------------------------
  // The layout, read back line by line

  /** The field labels of the title and temperature blocks hold no newline. A step for the
      solver in the line lemmas below, kept apart to keep those proofs small. */
  lemma {:induction false} UpperLabelsSingleLine()
    ensures SingleLine("📍 Ubicación: ") && SingleLine("🕐 Fecha: ") && SingleLine("Actual:         ")
    ensures SingleLine("Sensación:      ") && SingleLine("Humedad:        ")
  {
  }

  /** The field labels of the conditions block hold no newline. A step for the
      solver in the line lemmas below, kept apart to keep those proofs small. */
  lemma {:induction false} ConditionsLabelsSingleLine()
    ensures SingleLine("Estado:         ") && SingleLine("Precipitación:  ") && SingleLine("Acumulada:      ")
  {
  }

  /** The field labels of the wind block hold no newline. A step for the
      solver in the line lemmas below, kept apart to keep those proofs small. */
  lemma {:induction false} WindLabelsSingleLine()
    ensures SingleLine("Velocidad:      ") && SingleLine("Dirección:      ")
  {
  }

  /** The short pieces between values hold no newline. A step for the
      solver in the line lemmas below, kept apart to keep those proofs small. */
  lemma {:induction false} SeparatorTextSingleLine()
    ensures SingleLine("  ") && SingleLine(" ") && SingleLine(" (") && SingleLine(" 🌧️") && SingleLine(" 💧")
    ensures SingleLine("°)") && SingleLine("°N, ") && SingleLine("°W")
  {
  }

  /** Caller-supplied text that keeps to one line: the rendered numbers,
      the timestamp and the unit strings the layout prints. */
  ghost predicate InputsSingleLine(datos: Datos, fecha: string, show: Number -> string) {
    var u := datos.current_units;
    && (forall x :: SingleLine(show(x)))
    && SingleLine(fecha)
    && SingleLine(u.temperature_2m) && SingleLine(u.apparent_temperature)
    && SingleLine(u.relative_humidity_2m) && SingleLine(u.precipitation_probability)
    && SingleLine(u.precipitation) && SingleLine(u.wind_speed_10m)
  }

  /** The title and temperature blocks' lines hold no newline. */
  lemma {:induction false} UpperLinesSingleLine(datos: Datos, latitude: Number, longitude: Number,
                                                fecha: string, show: Number -> string)
    requires InputsSingleLine(datos, fecha, show)
    ensures var ls := ReportLines(datos, latitude, longitude, fecha, show);
      forall k :: 0 <= k < 12 ==> SingleLine(ls[k])
  {
    var ls := ReportLines(datos, latitude, longitude, fecha, show);
    UpperLabelsSingleLine();
    SeparatorTextSingleLine();
    assert SingleLine(ls[0]) && SingleLine(ls[1]) && SingleLine(ls[2]) && SingleLine(ls[3]);
    assert SingleLine(ls[4]) && SingleLine(ls[5]) && SingleLine(ls[6]) && SingleLine(ls[7]);
    assert SingleLine(ls[8]) && SingleLine(ls[9]) && SingleLine(ls[10]) && SingleLine(ls[11]);
  }

  /** The conditions block's lines hold no newline. */
  lemma {:induction false} ConditionsLinesSingleLine(datos: Datos, latitude: Number, longitude: Number,
                                                     fecha: string, show: Number -> string)
    requires InputsSingleLine(datos, fecha, show)
    ensures var ls := ReportLines(datos, latitude, longitude, fecha, show);
      forall k :: 12 <= k < 18 ==> SingleLine(ls[k])
  {
    var ls := ReportLines(datos, latitude, longitude, fecha, show);
    ConditionsLabelsSingleLine();
    SeparatorTextSingleLine();
    assert SingleLine(ls[12]) && SingleLine(ls[13]) && SingleLine(ls[14]);
    assert SingleLine(ls[15]) && SingleLine(ls[16]) && SingleLine(ls[17]);
  }

  /** The wind block's lines hold no newline. */
  lemma {:induction false} WindLinesSingleLine(datos: Datos, latitude: Number, longitude: Number,
                                               fecha: string, show: Number -> string)
    requires InputsSingleLine(datos, fecha, show)
    ensures var ls := ReportLines(datos, latitude, longitude, fecha, show);
      forall k :: 18 <= k < 22 ==> SingleLine(ls[k])
  {
    var ls := ReportLines(datos, latitude, longitude, fecha, show);
    WindLabelsSingleLine();
    SeparatorTextSingleLine();
    assert SingleLine(ls[18]) && SingleLine(ls[19]) && SingleLine(ls[20]) && SingleLine(ls[21]);
  }

  /** Read back as lines, the report is a blank line followed by exactly the
      22 lines of the layout, provided no caller-supplied text spans lines. */
  lemma {:induction false} ReportLayout(datos: Datos, latitude: Number, longitude: Number,
                                        fecha: string, show: Number -> string)
    requires InputsSingleLine(datos, fecha, show)
    ensures var ls := ReportLines(datos, latitude, longitude, fecha, show);
      SplitLines(FormatearDatosMeteo(datos, latitude, longitude, fecha, show)) == [""] + ls
  {
    var ls := ReportLines(datos, latitude, longitude, fecha, show);
    UpperLinesSingleLine(datos, latitude, longitude, fecha, show);
    ConditionsLinesSingleLine(datos, latitude, longitude, fecha, show);
    WindLinesSingleLine(datos, latitude, longitude, fecha, show);
    assert forall k :: 0 <= k < |[""] + ls| ==> SingleLine(([""] + ls)[k]);
    SplitJoin([""] + ls);
    assert Join([""] + ls) == "" + "\n" + Join(ls);
  }

  // ---------------------------------------------------------------------
  // The cases the source's tests exercise

  /** Coordinates 40 and -3, printed as JavaScript prints those values,
      give `40°N` and `-3°W`. */
  lemma {:induction false} SampleCoordinates(datos: Datos, fecha: string, show: Number -> string)
    requires show(Finite(40.0)) == "40" && show(Finite(-3.0)) == "-3"
    ensures var r := FormatearDatosMeteo(datos, Finite(40.0), Finite(-3.0), fecha, show);
      Contains(r, "40°N") && Contains(r, "-3°W")
  {
    var ls := ReportLines(datos, Finite(40.0), Finite(-3.0), fecha, show);
    assert ls[3] == "📍 Ubicación: " + "40°N" + ", -3°W";
    PieceAfterPrefix("\n", ls, 3, "📍 Ubicación: ", "40°N", ", -3°W");
    assert ls[3] == "📍 Ubicación: 40°N, " + "-3°W" + "";
    PieceAfterPrefix("\n", ls, 3, "📍 Ubicación: 40°N, ", "-3°W", "");
  }

  /** Weather code 0 puts the clear-sky icon in the report. */
  lemma {:induction false} SampleWeatherIcon(datos: Datos, latitude: Number, longitude: Number,
                                             fecha: string, show: Number -> string)
    requires datos.current.weather_code == 0
    ensures Contains(FormatearDatosMeteo(datos, latitude, longitude, fecha, show), "☀️")
  {
    var ls := ReportLines(datos, latitude, longitude, fecha, show);
    SampleCodes();
    assert ls[14] == "Estado:         " + "☀️" + " Despejado";
    PieceAfterPrefix("\n", ls, 14, "Estado:         ", "☀️", " Despejado");
  }

  /** A bearing of 180 degrees puts the south arrow in the report. */
  lemma {:induction false} SampleWindIcon(datos: Datos, latitude: Number, longitude: Number,
                                          fecha: string, show: Number -> string)
    requires datos.current.wind_direction_10m == Finite(180.0)
    ensures Contains(FormatearDatosMeteo(datos, latitude, longitude, fecha, show), "⬇️")
  {
    var ls := ReportLines(datos, latitude, longitude, fecha, show);
    InterpretInRange(180.0, S);
    var tail := "  S (" + show(Finite(180.0)) + "°)";
    assert ls[21] == "Dirección:      " + "⬇️" + tail;
    PieceAfterPrefix("\n", ls, 21, "Dirección:      ", "⬇️", tail);
  }

  /** The thermometer and wind header icons are in every report. */
  lemma {:induction false} SampleHeaderIcons(datos: Datos, latitude: Number, longitude: Number,
                                             fecha: string, show: Number -> string)
    ensures var r := FormatearDatosMeteo(datos, latitude, longitude, fecha, show);
      Contains(r, "🌡️") && Contains(r, "💨")
  {
    var ls := ReportLines(datos, latitude, longitude, fecha, show);
    assert ls[6] == "" + "🌡️" + "  TEMPERATURA";
    PieceAfterPrefix("\n", ls, 6, "", "🌡️", "  TEMPERATURA");
    assert ls[18] == "" + "💨" + " VIENTO";
    PieceAfterPrefix("\n", ls, 18, "", "💨", " VIENTO");
  }
}
