/**
 * One user's dashboard session: the city and glass catalogs the user can
 * extend, the resolution of the current selection to concrete values, the
 * feature row built from it, and the list of past predictions.
 */
module Dashboard {
  import opened Wrappers
  import opened Catalog
  import opened Parameters
  import opened Features

  /** The extra city choice that opens the "add city" form instead of naming a city. */
  const AddCityOption: string := "\U{2795} Add Custom Weather"

  /** The extra glass choice that opens the "add glass type" form. */
  const AddGlassOption: string := "\U{2795} Add New Glass Type"

  /** The city choices offered: every city in insertion order, then the add option. */
  function CityOptions(cities: seq<Entry<Weather>>): (options: seq<string>)
    ensures |options| == |cities| + 1 && options[|cities|] == AddCityOption
    ensures forall i :: 0 <= i < |cities| ==> options[i] == cities[i].name
  {
    Names(cities) + [AddCityOption]
  }

  /**
   * The add option passes the add-city guard: it is non-empty and not a
   * built-in city, so a city of that name can be added, although choosing it
   * afterwards opens the add form instead of selecting the city.
   */
  lemma AddCityOptionAccepted()
    ensures AddCityOption != "" && AddCityOption !in Names(DefaultCities)
  {
  }

  /** The glass choices offered for one position: its glass types in insertion order, then the add option. */
  function GlassOptions(catalog: seq<Entry<Glass>>): (options: seq<string>)
    ensures |options| == |catalog| + 1 && options[|catalog|] == AddGlassOption
    ensures forall i :: 0 <= i < |catalog| ==> options[i] == catalog[i].name
  {
    Names(catalog) + [AddGlassOption]
  }

  /**
   * The glass of one position for the selected name: the stored pair when the
   * name is a key of the catalog, otherwise the first entry in insertion order.
   */
  function SelectGlass(catalog: seq<Entry<Glass>>, selected: string): (g: Glass)
    requires catalog != []
    ensures selected in Names(catalog) ==> Entry(selected, g) in catalog
    ensures selected !in Names(catalog) ==> g == catalog[0].value
  {
    match Get(catalog, selected)
    case Some(props) => props
    case None => catalog[0].value
  }

  /** In a well-formed catalog, selecting a stored name yields exactly the pair stored under it. */
  lemma SelectStored(catalog: seq<Entry<Glass>>, name: string, g: Glass)
    requires Distinct(catalog)
    requires Entry(name, g) in catalog
    ensures SelectGlass(catalog, name) == g
  {
    GetStored(catalog, Entry(name, g));
  }

  /** A city catalog as the session keeps it; the built-in cities lie within the slider ranges too. */
  predicate CityCatalogValid(c: seq<Entry<Weather>>)
  {
    && DefaultCities <= c
    && Distinct(c)
    && "" !in Names(c)
    && forall e | e in c :: WeatherSliderRange(e.value)
  }

  /** The glass catalog of one position as the session keeps it. */
  predicate GlassCatalogValid(p: Position, c: seq<Entry<Glass>>)
  {
    && c != []
    && DefaultGlass(p) <= c
    && Distinct(c)
    && "" !in Names(c)
    && forall e | e in c[|DefaultGlass(p)|..] :: GlassSliderRange(e.value)
  }

  /** Adding a city under a new, non-empty name with slider-range weather keeps the catalog valid. */
  lemma AddCityKeepsValid(c: seq<Entry<Weather>>, name: string, w: Weather)
    requires CityCatalogValid(c)
    requires name != "" && name !in Names(c)
    requires WeatherSliderRange(w)
    ensures Put(c, name, w) == c + [Entry(name, w)]
    ensures CityCatalogValid(Put(c, name, w))
    ensures CityOptions(Put(c, name, w)) == Names(c) + [name, AddCityOption]
    ensures forall k :: Get(Put(c, name, w), k) == if k == name then Some(w) else Get(c, k)
  {
    PutAppends(c, name, w);
    PutNames(c, name, w);
    PutDistinct(c, name, w);
    forall k ensures Get(Put(c, name, w), k) == if k == name then Some(w) else Get(c, k) {
      PutGet(c, name, w, k);
    }
  }

  /** Adding a glass type under a new, non-empty name with slider-range values keeps the catalog valid. */
  lemma AddGlassKeepsValid(p: Position, c: seq<Entry<Glass>>, name: string, g: Glass)
    requires GlassCatalogValid(p, c)
    requires name != "" && name !in Names(c)
    requires GlassSliderRange(g)
    ensures Put(c, name, g) == c + [Entry(name, g)]
    ensures GlassCatalogValid(p, Put(c, name, g))
  {
    PutAppends(c, name, g);
    PutNames(c, name, g);
    PutDistinct(c, name, g);
    assert (c + [Entry(name, g)])[|DefaultGlass(p)|..] == c[|DefaultGlass(p)|..] + [Entry(name, g)];
  }

  /** The whole glass table as the session keeps it: a valid catalog for every position. */
  predicate GlassPropsValid(m: map<Position, seq<Entry<Glass>>>)
  {
    forall p: Position :: p in m && GlassCatalogValid(p, m[p])
  }

  /** Replacing one position's catalog by a valid one keeps the table valid and leaves the other positions alone. */
  lemma UpdateGlassProps(m: map<Position, seq<Entry<Glass>>>, position: Position, c: seq<Entry<Glass>>)
    requires GlassPropsValid(m)
    requires GlassCatalogValid(position, c)
    ensures GlassPropsValid(m[position := c])
    ensures forall p :: p != position ==> m[position := c][p] == m[p]
  {
  }

  /** The built-in tables are valid session catalogs. */
  lemma DefaultsValid()
    ensures CityCatalogValid(DefaultCities)
    ensures GlassPropsValid(DefaultGlassProps)
  {
    DefaultCitiesWellFormed();
    DefaultCitiesInSliderRange();
    forall p: Position ensures p in DefaultGlassProps && GlassCatalogValid(p, DefaultGlassProps[p]) {
      DefaultGlassPropsTotal(p);
      DefaultGlassWellFormed(p);
    }
  }

  /** When the selected name is not a key, the glass used is the first built-in type of that position. */
  lemma FallbackIsFirstDefault(p: Position, c: seq<Entry<Glass>>, selected: string)
    requires GlassCatalogValid(p, c)
    requires selected !in Names(c)
    ensures SelectGlass(c, selected) == DefaultGlass(p)[0].value
  {
    DefaultGlassWellFormed(p);
  }

  /** The add option is not the name of any built-in glass type, and it passes the add guard's emptiness test. */
  lemma AddGlassOptionNotBuiltIn(p: Position)
    ensures AddGlassOption != "" && AddGlassOption !in Names(DefaultGlass(p))
  {
    match p
    case Windshield => WindshieldNames();
    case Sidelite => SideliteNames();
    case Backlite => BackliteNames();
    case Roof => RoofNames();
  }

  /**
   * Choosing the add option resolves to the first glass type of the position
   * until a glass of that very name has been added, and to that glass afterwards.
   */
  lemma AddGlassOptionSelection(p: Position, c: seq<Entry<Glass>>, g: Glass)
    requires GlassCatalogValid(p, c)
    requires AddGlassOption !in Names(c)
    ensures SelectGlass(c, AddGlassOption) == DefaultGlass(p)[0].value
    ensures SelectGlass(Put(c, AddGlassOption, g), AddGlassOption) == g
  {
    PutGet(c, AddGlassOption, g, AddGlassOption);
    FallbackIsFirstDefault(p, c, AddGlassOption);
  }

  /** The session store between reruns of the page: each key is absent until first set. */
  datatype Store = Store(
    glassProps: Option<map<Position, seq<Entry<Glass>>>>,
    cityWeather: Option<seq<Entry<Weather>>>,
    predHistory: Option<seq<real>>)

  /** The start of every run: each absent key gets a fresh copy of its default, present keys are kept. */
  function Initialise(s: Store): (r: Store)
    ensures r.glassProps.Some? && r.cityWeather.Some? && r.predHistory.Some?
    ensures s.glassProps.Some? ==> r.glassProps == s.glassProps
    ensures s.cityWeather.Some? ==> r.cityWeather == s.cityWeather
    ensures s.predHistory.Some? ==> r.predHistory == s.predHistory
    ensures s.glassProps.None? ==> r.glassProps == Some(DefaultGlassProps)
    ensures s.cityWeather.None? ==> r.cityWeather == Some(DefaultCities)
    ensures s.predHistory.None? ==> r.predHistory == Some([])
  {
    Store(
      if s.glassProps.None? then Some(DefaultGlassProps) else s.glassProps,
      if s.cityWeather.None? then Some(DefaultCities) else s.cityWeather,
      if s.predHistory.None? then Some([]) else s.predHistory)
  }

  /** Running the initialisation again changes nothing. */
  lemma InitialiseIdempotent(s: Store)
    ensures Initialise(Initialise(s)) == Initialise(s)
  {
  }

  /** The catalogs of a store are valid wherever they are present. */
  predicate StoreValid(s: Store)
  {
    && (s.cityWeather.Some? ==> CityCatalogValid(s.cityWeather.value))
    && (s.glassProps.Some? ==> GlassPropsValid(s.glassProps.value))
  }

  /**
   * Initialisation yields valid catalogs from any store whose present
   * catalogs are valid, including the empty store of a first run.
   */
  lemma InitialiseValid(s: Store)
    requires StoreValid(s)
    ensures StoreValid(Initialise(s))
  {
    DefaultsValid();
  }

  /** On the store of a running session, where every key is set, initialisation changes nothing. */
  lemma InitialiseKeepsSession(glassProps: map<Position, seq<Entry<Glass>>>, cityWeather: seq<Entry<Weather>>, predHistory: seq<real>)
    ensures Initialise(Store(Some(glassProps), Some(cityWeather), Some(predHistory)))
         == Store(Some(glassProps), Some(cityWeather), Some(predHistory))
  {
  }

  /** What the user asked to happen when adding a city, and what was reported. */
  datatype CityOutcome = CityAdded | CityNameMissing | CityExists

  /** The state of one interactive session. */
  class Session {
    var glassProps: map<Position, seq<Entry<Glass>>>
    var cityWeather: seq<Entry<Weather>>
    var predHistory: seq<real>

    /**
     * The built-in entries stay in front, unchanged; every name is unique and
     * non-empty; every city, and every glass type added later, lies within the
     * slider ranges; and every position has a non-empty glass catalog.
     */
    ghost predicate Valid()
      reads this
    {
      && CityCatalogValid(cityWeather)
      && GlassPropsValid(glassProps)
    }

    /** The session's fields as a store in which every key is set. */
    function AsStore(): (s: Store)
      reads this
      ensures s.glassProps == Some(glassProps) && s.cityWeather == Some(cityWeather) && s.predHistory == Some(predHistory)
    {
      Store(Some(glassProps), Some(cityWeather), Some(predHistory))
    }

    /** A new session: what the first run's initialisation of an empty store gives. */
    constructor ()
      ensures Valid()
      ensures AsStore() == Initialise(Store(None, None, None))
      ensures glassProps == DefaultGlassProps && cityWeather == DefaultCities && predHistory == []
    {
      glassProps := DefaultGlassProps;
      cityWeather := DefaultCities;
      predHistory := [];
      new;
      DefaultsValid();
    }

    /** The "Add City" button: insert the entered weather under a new, non-empty name. */
    method AddCity(name: string, temperature: int, solarFlux: int, humidity: int, windSpeed: int, cloudCoverage: int)
      returns (outcome: CityOutcome)
      requires Valid()
      requires WeatherSliderRange(Weather(temperature, solarFlux, humidity, windSpeed, cloudCoverage))
      modifies this
      ensures Valid()
      ensures outcome == if name == "" then CityNameMissing
                         else if name in old(Names(cityWeather)) then CityExists
                         else CityAdded
      ensures outcome == CityAdded ==>
        cityWeather == old(cityWeather) + [Entry(name, Weather(temperature, solarFlux, humidity, windSpeed, cloudCoverage))]
      ensures outcome == CityAdded ==> CityOptions(cityWeather) == old(Names(cityWeather)) + [name, AddCityOption]
      ensures outcome == CityAdded ==>
        Get(cityWeather, name) == Some(Weather(temperature, solarFlux, humidity, windSpeed, cloudCoverage))
      ensures forall k :: k != name ==> Get(cityWeather, k) == old(Get(cityWeather, k))
      ensures outcome != CityAdded ==> cityWeather == old(cityWeather)
      ensures glassProps == old(glassProps) && predHistory == old(predHistory)
    {
      var w := Weather(temperature, solarFlux, humidity, windSpeed, cloudCoverage);
      if name == "" {
        outcome := CityNameMissing;
      } else if name in Names(cityWeather) {
        outcome := CityExists;
      } else {
        var before := cityWeather;
        AddCityKeepsValid(before, name, w);
        cityWeather := Put(before, name, w);
        outcome := CityAdded;
      }
    }

    /** The "Add" button of one position: insert the entered glass type under a new, non-empty name. */
    method AddGlass(position: Position, name: string, te: real, tts: real) returns (added: bool)
      requires Valid()
      requires GlassSliderRange(Glass(te, tts))
      modifies this
      ensures Valid()
      ensures added == (name != "" && name !in old(Names(glassProps[position])))
      ensures added ==> glassProps[position] == old(glassProps[position]) + [Entry(name, Glass(te, tts))]
      ensures added ==> SelectGlass(glassProps[position], name) == Glass(te, tts)
      ensures !added ==> glassProps == old(glassProps)
      ensures forall p :: p != position ==> p in glassProps && glassProps[p] == old(glassProps[p])
      ensures cityWeather == old(cityWeather) && predHistory == old(predHistory)
    {
      var before := glassProps[position];
      var g := Glass(te, tts);
      added := name != "" && name !in Names(before);
      if added {
        AddGlassKeepsValid(position, before, name, g);
        SelectStored(Put(before, name, g), name, g);
        UpdateGlassProps(glassProps, position, Put(before, name, g));
        glassProps := glassProps[position := Put(before, name, g)];
      }
    }

    /**
     * The feature row for the current selection: the weather of the chosen city
     * and, for each position, the glass the selected name resolves to.
     */
    method InputRow(city: string, windshield: string, sidelite: string, backlite: string, roof: string)
      returns (row: seq<Entry<real>>)
      requires Valid()
      requires city in Names(cityWeather) && city != AddCityOption
      ensures Names(row) == Columns
      ensures ParseRow(row) == Some(Inputs(
        Get(cityWeather, city).value,
        SelectGlass(glassProps[Windshield], windshield),
        SelectGlass(glassProps[Sidelite], sidelite),
        SelectGlass(glassProps[Backlite], backlite),
        SelectGlass(glassProps[Roof], roof)))
    {
      var weather := Get(cityWeather, city).value;
      var ws := SelectGlass(glassProps[Windshield], windshield);
      var sl := SelectGlass(glassProps[Sidelite], sidelite);
      var bl := SelectGlass(glassProps[Backlite], backlite);
      var rf := SelectGlass(glassProps[Roof], roof);
      row := AssembleRow(weather, ws, sl, bl, rf);
      AssembleParse(weather, ws, sl, bl, rf);
    }

    /** A prediction was made: its value goes to the end of the history. */
    method RecordPrediction(value: real)
      requires Valid()
      modifies this
      ensures Valid()
      ensures predHistory == old(predHistory) + [value]
      ensures cityWeather == old(cityWeather) && glassProps == old(glassProps)
    {
      predHistory := predHistory + [value];
    }

    /** The "Clear History" button. */
    method ClearHistory()
      requires Valid()
      modifies this
      ensures Valid()
      ensures predHistory == []
      ensures cityWeather == old(cityWeather) && glassProps == old(glassProps)
    {
      predHistory := [];
    }
  }
}
