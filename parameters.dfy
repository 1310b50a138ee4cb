/**
 * The built-in parameter tables of the dashboard: the weather of three cities
 * and the optical properties of the glass types offered for each mounting
 * position, together with the ranges of the input sliders through which the
 * user adds new entries.
 */
module Parameters {
  import opened Catalog

  /** A city's weather profile; every field is always present. */
  datatype Weather = Weather(temperature: int, solarFlux: int, humidity: int, windSpeed: int, cloudCoverage: int)

  /** A glass type: solar energy transmittance Te and total solar transmittance Tts. */
  datatype Glass = Glass(te: real, tts: real)

  /** The four mounting positions that own a glass catalog each. */
  datatype Position = Windshield | Sidelite | Backlite | Roof

  /** The built-in city table, in its declaration order. */
  const DefaultCities: seq<Entry<Weather>> := [
    Entry("Mumbai", Weather(31, 932, 65, 4, 5)),
    Entry("Jodhpur", Weather(40, 925, 25, 1, 5)),
    Entry("Bengaluru", Weather(28, 946, 54, 3, 3))
  ]

  /** The built-in glass catalog of one position, in its declaration order. */
  function DefaultGlass(p: Position): seq<Entry<Glass>>
  {
    match p
    case Windshield => [
      Entry("TSANx//TSANx", Glass(0.536, 0.647)),
      Entry("TSA3+//TSA3+", Glass(0.425, 0.568)),
      Entry("TSANx//TSA3+", Glass(0.449, 0.585)),
      Entry("CLR(IRR coating)//TSANx", Glass(0.293, 0.367))
    ]
    case Sidelite => [
      Entry("TSANx", Glass(0.634, 0.720)),
      Entry("TSA3+", Glass(0.496, 0.619)),
      Entry("TSA5+", Glass(0.360, 0.522)),
      Entry("Inshade", Glass(0.401, 0.521))
    ]
    case Backlite => [
      Entry("TSANx", Glass(0.634, 0.720)),
      Entry("TSA3+", Glass(0.496, 0.619)),
      Entry("TSA5+", Glass(0.360, 0.522))
    ]
    case Roof => [
      Entry("VG10", Glass(0.1, 0.336)),
      Entry("VG20", Glass(0.165, 0.383)),
      Entry("CLR(IRR coating)//VG10", Glass(0.101, 0.230))
    ]
  }

  /** The whole built-in glass table, one catalog per position. */
  const DefaultGlassProps: map<Position, seq<Entry<Glass>>> :=
    map[Windshield := DefaultGlass(Windshield), Sidelite := DefaultGlass(Sidelite),
        Backlite := DefaultGlass(Backlite), Roof := DefaultGlass(Roof)]

  /** The built-in glass table has a catalog for every position, and it is that position's defaults. */
  lemma DefaultGlassPropsTotal(p: Position)
    ensures p in DefaultGlassProps && DefaultGlassProps[p] == DefaultGlass(p)
  {
    match p
    case Windshield =>
    case Sidelite =>
    case Backlite =>
    case Roof =>
  }

  /** The values the five weather sliders can produce. */
  predicate WeatherSliderRange(w: Weather)
  {
    && 20 <= w.temperature <= 50
    && 500 <= w.solarFlux <= 1200
    && 10 <= w.humidity <= 100
    && 0 <= w.windSpeed <= 10
    && 0 <= w.cloudCoverage <= 10
  }

  /** The values the Te and Tts sliders can produce. */
  predicate GlassSliderRange(g: Glass)
  {
    0.01 <= g.te <= 0.9 && 0.0 <= g.tts <= 0.7
  }

  /** The built-in city table is a well-formed dictionary with non-empty keys. */
  lemma DefaultCitiesWellFormed()
    ensures Distinct(DefaultCities) && "" !in Names(DefaultCities)
  {
  }

  /** Every built-in glass catalog is a well-formed dictionary with non-empty keys and at least three entries. */
  lemma DefaultGlassWellFormed(p: Position)
    ensures Distinct(DefaultGlass(p)) && "" !in Names(DefaultGlass(p)) && |DefaultGlass(p)| >= 3
  {
    match p
    case Windshield => WindshieldNames();
    case Sidelite => SideliteNames();
    case Backlite => BackliteNames();
    case Roof => RoofNames();
  }

  lemma WindshieldNames()
    ensures Names(DefaultGlass(Windshield)) == ["TSANx//TSANx", "TSA3+//TSA3+", "TSANx//TSA3+", "CLR(IRR coating)//TSANx"]
  {
  }

  lemma SideliteNames()
    ensures Names(DefaultGlass(Sidelite)) == ["TSANx", "TSA3+", "TSA5+", "Inshade"]
  {
  }

  lemma BackliteNames()
    ensures Names(DefaultGlass(Backlite)) == ["TSANx", "TSA3+", "TSA5+"]
  {
  }

  lemma RoofNames()
    ensures Names(DefaultGlass(Roof)) == ["VG10", "VG20", "CLR(IRR coating)//VG10"]
  {
  }

  /** The built-in cities happen to lie within the slider ranges too. */
  lemma DefaultCitiesInSliderRange()
    ensures forall e :: e in DefaultCities ==> WeatherSliderRange(e.value)
  {
  }

  /**
   * The built-in "TSANx" side and back glass has Tts 0.720, above the Tts
   * slider's maximum of 0.7: the slider bounds describe added glass types only.
   */
  lemma DefaultGlassOutsideSlider()
    ensures !GlassSliderRange(DefaultGlass(Sidelite)[0].value)
    ensures !GlassSliderRange(DefaultGlass(Backlite)[0].value)
  {
  }
}
