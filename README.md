# Thermal Comfort Dashboard: session registry and feature assembly

This project models the in-session data logic of the Thermal Comfort
Dashboard (`app.py`). The dashboard is a Streamlit page. The user picks a
city's weather and a glass type for each of four mounting positions of a
vehicle (windshield, sidelite, backlite, roof). The page builds one feature
row from those choices and sends it to a pre-trained regression model, which
predicts the cabin temperature.

Underneath the widgets, the page keeps three pieces of session state:

- **the city catalog**, an insertion-ordered dictionary from city name to a
  five-field weather profile (Temperature, SolarFlux, Humidity, WindSpeed,
  CloudCoverage);
- **the glass table**, which maps each position to an insertion-ordered
  dictionary from glass name to its `(Te, Tts)` pair;
- **the prediction history**, a list of past predicted values.

The model has five modules:

- `Catalog` (`catalog.dfy`) is the insertion-ordered dictionary, a sequence
  of `Entry(name, value)` pairs:
  - `Names` gives the key order;
  - `Get` is `dict.get`;
  - `Put` is `d[k] = v`.
- `Parameters` (`parameters.dfy`) holds the entity types, the built-in
  tables with their exact constants, and the ranges of the input sliders.
- `Features` (`features.dfy`) builds the 13-column feature row. `ParseRow`
  reads a row back by column name, as the model sees it. Together they show
  that the row carries every value unchanged.
- `Dashboard` (`dashboard.dfy`) holds the rest:
  - the glass lookup with its first-entry fallback;
  - the lists of options offered;
  - the "initialise only when absent" start of every rerun;
  - the `Session` class, whose methods change the catalogs and the history
    in place.
- `Wrappers` (`wrappers.dfy`) defines `Option`.

`Session.Valid()` is the session invariant, and every method keeps it:
- The built-in entries stay at the front of each catalog, unchanged.
- Names are unique and non-empty.
- Every city, and every glass type added at runtime, lies within the slider
  ranges (the built-in cities happen to lie within them too).
- Every position has a non-empty glass catalog. This is what makes the
  fallback to the first entry at `app.py:124` always defined.

For glass, the slider bounds hold only for added entries. The built-in "TSANx" side and
back glass has Tts 0.720, which is above the Tts slider's maximum of 0.7
(`DefaultGlassOutsideSlider`).

Two quirks of the code are modelled as written:
- The add guards accept the option texts "➕ Add Custom Weather" and
  "➕ Add New Glass Type" as names (`AddCityOptionAccepted`,
  `AddGlassOptionNotBuiltIn`).
- Selecting "➕ Add New Glass Type" resolves to the first glass of the
  position, unless a glass with exactly that name was added. In that case it
  resolves to that glass (`AddGlassOptionSelection`).

`app.py` has none of the following, and the model adds none:
- delete operations on either catalog;
- a glass thickness `t`, or a rear-windshield position;
- a "keep latest" trim of the history (clearing empties it);
- a fallback for a city name that is not a key;
- thickness columns in the row, which has exactly 13 columns.

## Model

| member | source | states |
|---|---|---|
| Catalog.Get | app.py:122 | `get` finds a value exactly when the name is a key, and the value it finds is stored under that name |
| Catalog.GetStored | app.py:122-126 | in a dictionary with unique keys, `get` of a stored key returns exactly the value stored under it |
| Catalog.PutNames | app.py:94 | assigning to a new key lists it last in key order; assigning to an existing key keeps the order |
| Catalog.PutAppends | app.py:116 | assigning to a new key appends exactly that one pair and leaves every existing pair in place |
| Catalog.PutGet | app.py:94-97 | after assignment, `get` returns the new value under the key and the old value under every other key |
| Catalog.PutDistinct | app.py:116 | assignment never creates a duplicate key |
| Parameters.DefaultCitiesWellFormed | app.py:11-15 | the built-in city table has unique, non-empty names |
| Parameters.DefaultGlassWellFormed | app.py:17-40 | each built-in glass catalog has unique, non-empty names and at least three entries |
| Parameters.DefaultGlassPropsTotal | app.py:17-40 | the built-in glass table has a catalog for each of the four positions |
| Parameters.DefaultCitiesInSliderRange | app.py:11-15 | the built-in cities also lie within the weather slider ranges, so the session invariant can bound every city |
| Parameters.DefaultGlassOutsideSlider | app.py:24-34 | the built-in TSANx side and back glass (Tts 0.720) lies outside the Tts slider range, so the slider bound holds only for added glass |
| Features.ColumnsDistinct | app.py:136-146 | the 13 column names are pairwise different |
| Features.AssembleRow | app.py:136-146 | the row has exactly the 13 columns SolarFlux … Tts(roof), in the source's order, with no duplicates |
| Features.AssembledLookups | app.py:136-146 | each column of the assembled row holds the weather field or the Te/Tts value it is named after |
| Features.AssembledWeather | app.py:137-141 | the five weather columns read back as the weather profile they came from |
| Features.AssembleParse | app.py:136-146 | reading the assembled row back by column name gives back exactly the weather and the four glass pairs |
| Dashboard.CityOptions | app.py:77 | the city choices are the cities in insertion order, followed by the add option |
| Dashboard.GlassOptions | app.py:106 | the glass choices of a position are its glass types in insertion order, followed by the add option |
| Dashboard.AddCityOptionAccepted | app.py:80-94 | the add-city option text is non-empty and not a built-in city, so the add guard accepts it as a name |
| Dashboard.SelectGlass | app.py:122-126 | a selected name that is a key yields a pair stored under that name; any other name yields the first entry in insertion order |
| Dashboard.SelectStored | app.py:122-126 | selecting a stored name yields exactly the pair stored under it |
| Dashboard.AddCityKeepsValid | app.py:88-97 | adding a fresh non-empty city with slider-range weather appends exactly that entry, keeps the catalog valid, lists the city last before the add option, and leaves every other lookup unchanged |
| Dashboard.AddGlassKeepsValid | app.py:114-116 | adding a fresh non-empty glass with slider-range values appends exactly that entry and keeps the position's catalog valid |
| Dashboard.UpdateGlassProps | app.py:116 | replacing one position's catalog with a valid one keeps the glass table valid and leaves the other positions unchanged |
| Dashboard.FallbackIsFirstDefault | app.py:123-125 | on a name that is not a key, the fallback is the first built-in glass of that position |
| Dashboard.AddGlassOptionNotBuiltIn | app.py:109-115 | the add-glass option text is non-empty and not a built-in glass name, so the add guard accepts it |
| Dashboard.AddGlassOptionSelection | app.py:115-126 | selecting the add option falls back to the first built-in glass until a glass of that name is added, then yields that glass |
| Dashboard.Initialise | app.py:43-48 | after initialisation every session key is present; present keys are kept unchanged, and absent keys get the built-in tables or an empty history |
| Dashboard.InitialiseIdempotent | app.py:43-48 | re-running the initialisation never changes existing session data |
| Dashboard.DefaultsValid | app.py:11-46 | the built-in tables that the initialisation copies satisfy the session's catalog invariant |
| Dashboard.InitialiseValid | app.py:43-48 | initialising a store whose present catalogs are valid, including the empty store of a first run, yields valid catalogs for every key |
| Dashboard.InitialiseKeepsSession | app.py:43-48 | on the store of a running session, where all three keys are set, initialisation leaves every field unchanged |
| Dashboard.Session.constructor | app.py:43-48 | a new session is exactly what initialising an empty store gives (copies of the built-in catalogs and an empty history), and satisfies the session invariant |
| Dashboard.Session.AddCity | app.py:88-97 | an empty name or an existing name is rejected (two distinct outcomes) and changes nothing; otherwise exactly the five entered fields are appended under the name, listed last; glass and history are untouched; the invariant is kept |
| Dashboard.Session.AddGlass | app.py:114-120 | succeeds exactly when the name is non-empty and absent from that position's catalog; then it appends `{Te, Tts}` there, and selecting the name yields it; on failure nothing changes; other positions, cities and history are untouched |
| Dashboard.Session.InputRow | app.py:128-146 | the row has the 13 columns and reads back as the chosen city's weather and, for each position, the glass its selection resolves to |
| Dashboard.Session.RecordPrediction | app.py:151 | appends the value at the end of the history, keeping earlier entries and their order; the catalogs are untouched |
| Dashboard.Session.ClearHistory | app.py:156 | the history becomes empty; the catalogs are untouched |

## Left out

- Streamlit rendering, CSS, layout, widgets, messages and the `st.experimental_rerun` control flow (app.py:50-78, 98-99, 105-118, 152-162) are UI plumbing. The add methods can be called at any time. In the page they are reachable only while the add option is selected.
- Loading the model and calling `model.predict` (app.py:8, 149) are foreign calls. The predicted value is a parameter of `RecordPrediction`, and `round(prediction, 2)` (app.py:150) is floating-point rounding, so it is not modelled either.
- When the add-city option is selected, `weather` is never bound and building the row fails (app.py:80-101, then 137). `Session.InputRow` requires a real city key that is not the add option, so this failure is not modelled.
- Dashboard.Session.AddCity, Dashboard.Session.AddGlass: the sliders are taken to produce any value in their closed range. The step granularity of the float sliders is not modelled. Te and Tts are exact reals, not binary floats.
- Glass positions are a four-valued datatype rather than the dictionary's string keys. Only those four keys are ever used (app.py:128-131).
- The deep copies at app.py:44 and 46 are implicit: Dafny sequences and maps are values, so changing the session can never change the built-in tables.
- model_selection.py is not part of this model. It reads a CSV, fits and scores library regressors, compares float R² values and serialises the winner with joblib.
