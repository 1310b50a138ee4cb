/**
 * The feature row handed to the regression model: one resolved weather
 * profile and the (Te, Tts) pair of each of the four glass positions, under
 * the thirteen column names the model was trained with.
 */
module Features {
  import opened Wrappers
  import opened Catalog
  import opened Parameters

  /** The column names of the feature row, in the order the row lists them. */
  const Columns: seq<string> := [
    "SolarFlux", "Temperature", "WindSpeed", "CloudCoverage", "Humidity",
    "Te(WS)", "Tts(WS)", "Te(SL)", "Tts(SL)", "Te(BL)", "Tts(BL)", "Te(roof)", "Tts(roof)"
  ]

  /** The thirteen column names are pairwise different. */
  lemma ColumnsDistinct()
    ensures |Columns| == 13 && NoDuplicates(Columns)
  {
  }

  /** Everything a prediction is made from: the weather and the glass of each position. */
  datatype Inputs = Inputs(weather: Weather, windshield: Glass, sidelite: Glass, backlite: Glass, roof: Glass)

  /** The one-row table built for `model.predict`, column by column. */
  function AssembleRow(w: Weather, ws: Glass, sl: Glass, bl: Glass, roof: Glass): (row: seq<Entry<real>>)
    ensures Names(row) == Columns
    ensures Distinct(row)
  {
    ColumnsDistinct();
    [
      Entry("SolarFlux", w.solarFlux as real),
      Entry("Temperature", w.temperature as real),
      Entry("WindSpeed", w.windSpeed as real),
      Entry("CloudCoverage", w.cloudCoverage as real),
      Entry("Humidity", w.humidity as real),
      Entry("Te(WS)", ws.te), Entry("Tts(WS)", ws.tts),
      Entry("Te(SL)", sl.te), Entry("Tts(SL)", sl.tts),
      Entry("Te(BL)", bl.te), Entry("Tts(BL)", bl.tts),
      Entry("Te(roof)", roof.te), Entry("Tts(roof)", roof.tts)
    ]
  }

  /** The value of a column that holds a whole number. */
  function ReadInt(row: seq<Entry<real>>, column: string): (r: Option<int>)
    ensures r.Some? ==> Get(row, column) == Some(r.value as real)
  {
    match Get(row, column)
    case None => None
    case Some(x) => if x.Floor as real == x then Some(x.Floor) else None
  }

  /** A whole number stored in a column is read back as that number. */
  lemma ReadIntWhole(row: seq<Entry<real>>, column: string, n: int)
    requires Get(row, column) == Some(n as real)
    ensures ReadInt(row, column) == Some(n)
  {
    assert (n as real).Floor == n;
  }

  /** The weather profile held in the first five columns of a row. */
  function ReadWeather(row: seq<Entry<real>>): Option<Weather>
  {
    var solarFlux :- ReadInt(row, "SolarFlux");
    var temperature :- ReadInt(row, "Temperature");
    var windSpeed :- ReadInt(row, "WindSpeed");
    var cloudCoverage :- ReadInt(row, "CloudCoverage");
    var humidity :- ReadInt(row, "Humidity");
    Some(Weather(temperature, solarFlux, humidity, windSpeed, cloudCoverage))
  }

  /** The (Te, Tts) pair held in two columns of a row. */
  function ReadGlass(row: seq<Entry<real>>, teColumn: string, ttsColumn: string): Option<Glass>
  {
    var te :- Get(row, teColumn);
    var tts :- Get(row, ttsColumn);
    Some(Glass(te, tts))
  }

  /**
   * Reads a feature row back by column name, as the model sees it: the
   * weather and the four glass pairs, or None when a column is missing.
   */
  function ParseRow(row: seq<Entry<real>>): Option<Inputs>
  {
    var weather :- ReadWeather(row);
    var windshield :- ReadGlass(row, "Te(WS)", "Tts(WS)");
    var sidelite :- ReadGlass(row, "Te(SL)", "Tts(SL)");
    var backlite :- ReadGlass(row, "Te(BL)", "Tts(BL)");
    var roof :- ReadGlass(row, "Te(roof)", "Tts(roof)");
    Some(Inputs(weather, windshield, sidelite, backlite, roof))
  }

  /** Looking a column up in an assembled row finds the value it was assembled from. */
  lemma AssembledLookups(w: Weather, ws: Glass, sl: Glass, bl: Glass, roof: Glass)
    ensures var row := AssembleRow(w, ws, sl, bl, roof);
      && Get(row, "SolarFlux") == Some(w.solarFlux as real)
      && Get(row, "Temperature") == Some(w.temperature as real)
      && Get(row, "WindSpeed") == Some(w.windSpeed as real)
      && Get(row, "CloudCoverage") == Some(w.cloudCoverage as real)
      && Get(row, "Humidity") == Some(w.humidity as real)
      && Get(row, "Te(WS)") == Some(ws.te) && Get(row, "Tts(WS)") == Some(ws.tts)
      && Get(row, "Te(SL)") == Some(sl.te) && Get(row, "Tts(SL)") == Some(sl.tts)
      && Get(row, "Te(BL)") == Some(bl.te) && Get(row, "Tts(BL)") == Some(bl.tts)
      && Get(row, "Te(roof)") == Some(roof.te) && Get(row, "Tts(roof)") == Some(roof.tts)
  {
    var row := AssembleRow(w, ws, sl, bl, roof);
    GetStored(row, row[0]);
    GetStored(row, row[1]);
    GetStored(row, row[2]);
    GetStored(row, row[3]);
    GetStored(row, row[4]);
    GetStored(row, row[5]);
    GetStored(row, row[6]);
    GetStored(row, row[7]);
    GetStored(row, row[8]);
    GetStored(row, row[9]);
    GetStored(row, row[10]);
    GetStored(row, row[11]);
    GetStored(row, row[12]);
  }

  /** The weather columns of an assembled row read back as the weather profile. */
  lemma AssembledWeather(w: Weather, ws: Glass, sl: Glass, bl: Glass, roof: Glass)
    ensures ReadWeather(AssembleRow(w, ws, sl, bl, roof)) == Some(w)
  {
    var row := AssembleRow(w, ws, sl, bl, roof);
    AssembledLookups(w, ws, sl, bl, roof);
    ReadIntWhole(row, "SolarFlux", w.solarFlux);
    ReadIntWhole(row, "Temperature", w.temperature);
    ReadIntWhole(row, "WindSpeed", w.windSpeed);
    ReadIntWhole(row, "CloudCoverage", w.cloudCoverage);
    ReadIntWhole(row, "Humidity", w.humidity);
  }

  /** Every value of the row is copied unchanged from the inputs it was assembled from. */
  lemma AssembleParse(w: Weather, ws: Glass, sl: Glass, bl: Glass, roof: Glass)
    ensures ParseRow(AssembleRow(w, ws, sl, bl, roof)) == Some(Inputs(w, ws, sl, bl, roof))
  {
    var row := AssembleRow(w, ws, sl, bl, roof);
    AssembledLookups(w, ws, sl, bl, roof);
    AssembledWeather(w, ws, sl, bl, roof);
    assert ReadGlass(row, "Te(WS)", "Tts(WS)") == Some(ws);
    assert ReadGlass(row, "Te(SL)", "Tts(SL)") == Some(sl);
    assert ReadGlass(row, "Te(BL)", "Tts(BL)") == Some(bl);
    assert ReadGlass(row, "Te(roof)", "Tts(roof)") == Some(roof);
  }
}
