# Weather report core, modelled in Dafny

This project models the decision logic of a small weather console client. The
client fetches the current observation for one coordinate from the Open-Meteo
forecast service and prints it. The model covers three pure functions of
`weatherService.js`:

- `interpretarCodigoTiempo` — looks up a WMO weather code in a fixed table
  of 21 codes. It returns a Spanish description and an icon. Every other
  code gets the sentinel `{Desconocido, ❓}`.
- `interpretarDireccionViento` — brings a bearing in degrees into [0, 360)
  with `((g % 360) + 360) % 360`. It then picks one of eight 45-degree
  compass sectors by a chain of early returns. `{?, ❓}` is the last resort.
- `formatearDatosMeteo` — one template literal that lays out a 22-line
  report from the observation, its unit strings, the coordinates and the
  two interpreters.

Modules, one per file:

- `Numbers` (`numbers.dfy`): JavaScript numbers as exact reals plus a
  separate `NaN`.
  - `%` is the truncated remainder, whose result has the sign of the dividend.
  - Every comparison involving `NaN` is false.
  - So the bearing interpreter reaches its `?` answer the way the source
    does: by falling through its comparisons, not by an explicit NaN test.
- `Text` (`text.dfy`): lines joined with newlines, splitting text back into
  lines, and substring occurrence. The report lemmas are proved with these.
  `Line` is the type of one-line strings; the interpreters' labels and
  icons have that type.
- `WeatherCode` (`weather_code.dfy`): the code table as a `map` with a
  default. The lemmas invert the table: each group of codes sharing a
  reading gets that reading, and no other code does.
- `WindDirection` (`wind_direction.dfy`):
  - Normalisation and the if-chain, as in the source.
  - An independent arithmetic definition of the sector, the nearest
    multiple of 45 degrees taken modulo 8, proved to agree with the chain.
- `WeatherReport` (`weather_report.dfy`): the report as the list of its
  lines, joined after the template's opening newline.

The report has two inputs the model takes as parameters:

- `fecha`: the wall-clock timestamp `new Date().toLocaleString()`.
- `show: Number -> string`: how JavaScript renders a number inside a
  template literal.

Two facts about the code shape the model:

- The table has 21 codes with Spanish labels, and the sentinel is
  `{Desconocido, ❓}`.
- The code has no NaN check. NaN reaches `{?, ❓}` because every comparison
  on it is false. `FallbackOnlyNaN` proves that, among the modelled numbers,
  only NaN does; ±Infinity, which is not modelled, would get it too.

## Model

| member | source | states |
|---|---|---|
| Numbers.Trunc | weatherService.js:64 | the quotient JavaScript's `%` uses is the real quotient truncated toward zero, bounded by it on the side of zero |
| Numbers.Rem360 | weatherService.js:64 | `x % 360` is NaN exactly for NaN. It lies in [0, 360) for a non-negative dividend and in (-360, 0] for a negative one, and it differs from the dividend by whole turns |
| WeatherCode.TableDomain | weatherService.js:35-57 | the table's keys are exactly the 21 listed codes, in strictly ascending order |
| WeatherCode.GroupCodesAreInterpreted | weatherService.js:36-56 | every code of a group (0; 1; 2; 3; 45/48; 51/53/55; 61/63/65; 71/73/75; 80/81/82; 95/96/99) yields that group's description and icon |
| WeatherCode.TableCodesAreGrouped | weatherService.js:35-57 | every key of the table belongs to one of the ten groups |
| WeatherCode.ReadingsDistinct | weatherService.js:36-59 | the ten readings and the sentinel are pairwise different values |
| WeatherCode.ReadingIffCode | weatherService.js:34-60 | a code yields a group's reading if and only if it belongs to that group, so shared readings are shared by exactly the listed codes |
| WeatherCode.UnknownIffOutsideTable | weatherService.js:59 | the sentinel `{Desconocido, ❓}`, or just its description, comes back exactly for codes outside the 21 listed ones. No table entry is the sentinel, and the function is total |
| WeatherCode.ReadingsComplete | weatherService.js:34-60 | every answer is one of the ten table readings or the sentinel |
| WeatherCode.DescriptionDeterminesEmoji | weatherService.js:36-59 | two codes with the same description get the same icon |
| WeatherCode.SampleCodes | weatherService.js:36-59 | 0 gives Despejado/☀️. 61, 63 and 65 all give Lluvia/🌧️. 999, -1 and 4 give Desconocido/❓ |
| WindDirection.NormalizeCanonical | weatherService.js:63-64 | `((g % 360) + 360) % 360` is NaN exactly for NaN. For a finite bearing it is the canonical representative `g - 360·floor(g/360)`, hence in [0, 360) |
| WindDirection.NormalizeIdempotent | weatherService.js:64 | normalising twice gives the same as normalising once |
| WindDirection.NormalizePeriodic | weatherService.js:64 | adding any whole number of turns, negative ones included, leaves the normalised bearing unchanged |
| WindDirection.SectorsPartition | weatherService.js:66-73 | the eight half-open 45-degree sectors, N across the 0/360 seam, are pairwise disjoint and cover [0, 360). A bearing there lies in a given sector exactly when it is the sector defined arithmetically |
| WindDirection.InterpretFinite | weatherService.js:64-75 | for every finite bearing the if-chain returns the reading of the arithmetic sector of its canonical value and never `{?, ❓}` |
| WindDirection.FallbackOnlyNaN | weatherService.js:64-75 | the answer is `{?, ❓}` if and only if the bearing is NaN |
| WindDirection.InterpretPeriodic | weatherService.js:62-76 | bearings a whole number of turns apart get the same reading |
| WindDirection.InterpretInRange | weatherService.js:66-73 | a bearing in [0, 360) gets the reading of the sector containing it |
| WindDirection.SampleCentres | weatherService.js:66-73 | the sector centres: 0→N/⬆️, 45→NE/↗️, 90→E/➡️, 135→SE/↘️, 180→S/⬇️, 225→SW/↙️, 270→W/⬅️, 315→NW/↖️ |
| WindDirection.SampleEdges | weatherService.js:64-75 | 22.5 gives NE and 337.5 gives N, by the half-open rule. -10 gives N, the same as 350. NaN gives `{?, ❓}` |
| WeatherReport.ReportShowsLocation | weatherService.js:90 | the report contains `<lat>°N, <lon>°W` with both coordinates rendered verbatim, with no hemisphere conversion by sign |
| WeatherReport.ReportShowsDate | weatherService.js:91 | the report shows the given timestamp after `🕐 Fecha: `, ended by a newline |
| WeatherReport.ReportShowsWeather | weatherService.js:101 | the report contains the icon, a space and the description that the code interpreter returns for the observation's weather code |
| WeatherReport.ReportShowsWind | weatherService.js:108 | the report contains the wind icon, two spaces, the compass label, then the raw bearing in parentheses with a degree sign |
| WeatherReport.ReportShowsTemperatures | weatherService.js:95-97 | temperature, apparent temperature and humidity each appear immediately followed by their unit strings |
| WeatherReport.ReportShowsPrecipitationAndSpeed | weatherService.js:102-107 | precipitation probability is followed by its unit. Accumulated precipitation and wind speed are each followed by a space and their unit |
| WeatherReport.PrecipitationProbabilityShown | weatherService.js:102 | the precipitation probability appears immediately followed by its unit |
| WeatherReport.PrecipitationShown | weatherService.js:103 | the accumulated precipitation appears followed by a space and its unit |
| WeatherReport.WindSpeedShown | weatherService.js:107 | the wind speed appears followed by a space and its unit |
| WeatherReport.ReportSectionOrder | weatherService.js:87-105 | the title and the TEMPERATURA, CONDICIONES and VIENTO headers occur in that order |
| WeatherReport.ReportIgnoresBearingUnit | weatherService.js:78-109 | the bearing's unit string is never printed: changing it leaves the report unchanged |
| WeatherReport.UpperLinesSingleLine | weatherService.js:87-98 | the title, location, date and temperature lines hold no newline when the caller's texts hold none |
| WeatherReport.ConditionsLinesSingleLine | weatherService.js:99-104 | the conditions lines hold no newline when the caller's texts hold none |
| WeatherReport.WindLinesSingleLine | weatherService.js:105-108 | the wind lines hold no newline when the caller's texts hold none |
| WeatherReport.ReportLayout | weatherService.js:86-109 | split into lines, the report is one empty line followed by exactly the 22 lines of the layout, in order. This needs the rendered numbers, the timestamp and the printed units to hold no newline |
| WeatherReport.SampleCoordinates | weatherService.js:90 | coordinates 40 and -3, rendered as `40` and `-3`, give `40°N` and `-3°W` |
| WeatherReport.SampleWeatherIcon | weatherService.js:101 | weather code 0 puts ☀️ in the report |
| WeatherReport.SampleWindIcon | weatherService.js:108 | a bearing of 180 puts ⬇️ in the report |
| WeatherReport.SampleHeaderIcons | weatherService.js:93-105 | every report contains the 🌡️ and 💨 header icons |

## Left out

- `obtenerDatosMeteo` (weatherService.js:1-32) is left out. It builds a URL, performs an HTTP `fetch` and parses JSON: network I/O through library calls. Its `catch` also re-wraps the non-ok error of line 23, so the message of an HTTP failure begins with `Fallo al obtener datos meteorológicos: Error en la petición:`.
- `weather.js` is not part of this model. It is the process entry point. It calls `obtenerDatosMeteo` and `formatearDatosMeteo` and prints the report with `console.log`. On failure it prints the message with `console.error` and exits with status 1.
- `new Date().toLocaleString()` (weatherService.js:84) reads the clock and the locale. The timestamp is the parameter `fecha`.
- How a JavaScript number prints inside a template literal is the parameter `show`. Sample lemmas that depend on the printed text say what they assume about `show`.
- Numbers are exact reals plus NaN. IEEE-754 behaviour is not modelled: `-0`, tiny negative bearings whose intermediate sum `(g % 360) + 360` rounds to exactly 360 (the outer `% 360` then gives 0, still N), rounding in that sum that can move a bearing within one ulp of a sector boundary into the next sector, and ±Infinity (whose remainder is NaN in JavaScript, so it gets `{?, ❓}`).
- Weather codes are integers. A non-integer code such as 1.5 simply misses the table and gets the sentinel, like any other missing code. A numeric string such as `"61"` would hit the same entry as 61, because JavaScript object keys are strings (weatherService.js:59); string codes are not modelled. Neither are missing fields, which JavaScript renders as `undefined`; the response is a record with every field present.
- WeatherReport.ReportLayout: requires that the rendered numbers, the timestamp and the six printed unit strings contain no newline. The source places no such restriction; with a newline in one of them the report has more lines than the layout.
- The interpreters' descriptions, labels and icons have the one-line string type `Line`. Every literal in the source satisfies it.
