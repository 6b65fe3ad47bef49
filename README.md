# maplab map helpers, modelled in Dafny

maplab wraps folium in a `Map` class. The constructor fills in option defaults
and attaches controls. Helper methods attach a search control, tile layers,
a named basemap and a raster served by titiler. The package also has a
`random_string` helper. This project models that decision logic and proves
what it promises.

- `Py` (py.dfy): Python values and truthiness, `**kwargs` dictionaries as
  `map<string, Value>`, `if k not in kwargs: kwargs[k] = v` (`SetDefault`),
  and the keyword call `f(a=..., **kwargs)` (`KeywordCall`). That call raises
  `TypeError` when a key is given both explicitly and through `**kwargs`.
  A named parameter never appears in a function's own `**kwargs`. The methods
  state this as a precondition.
- `Elements` (elements.dfy): the folium objects attached to a map, tagged by
  kind. Each one records the keyword arguments it was built from.
- `Folium` (folium.dfy, for maplab/folium.py): the `Map` class. Its
  `initArgs` field holds what `folium.Map.__init__` received. Its `children`
  field holds the attached layers and controls, in order. The basemap
  decision chain and the raster outcome are also written as functions
  (`ResolveBasemap`, `RasterEffect`). The methods are proved to follow them.
- `Foliumap` (foliumap.dfy, for maplab/foliumap.py): the variant written
  against folium's own keyword names, with `center`/`zoom` renamed to
  `location`/`zoom_start` and `url`/`attribution` renamed to `tiles`/`attr`.
  Its base class `foliumap.Map` is not in the repository. The model replaces
  it with a stand-in initializer, `Base`, that records its arguments.
- `Maplab` (maplab.dfy, for maplab/maplab.py): `random_string`. The alphabet
  is built step by step. Each character is a nondeterministic choice from it.

Behaviour the model follows from the code:
- maplab/folium.py forwards `center` and `zoom` to folium under those same
  names. Only maplab/foliumap.py renames them, to `location` and `zoom_start`.
- The fit box of `add_raster` is `[[b1, b0], [b3, b2]]`, taken from the
  titiler bounds `[b0, b1, b2, b3]`.
- The only well-known basemap names are "roadmap" and "satellite". The code
  has no default maximum zoom and does not strip units from pixel sizes.
- maplab/folium.py passes the tile URL as `url=` and the attribution as
  `attribution=`. maplab/foliumap.py passes them as `tiles=` and `attr=`. The
  model records each call exactly as written.
- In `add_basemap`, the name is rebound to the provider at
  maplab/folium.py:113. So the `ValueError` message names the string only
  when the lookup itself failed. After that it names the provider object
  (`Culprit`).
- In `add_basemap`, a caller's `attribution` keyword is passed through to a
  Google layer. For a registry provider it clashes with the provider's own
  attribution, and the bare `except` turns that clash into a `ValueError`.
  A caller's `url` or `name` keyword raises an uncaught `TypeError` for a
  Google layer.
- In `add_raster`, an empty `tiles` list raises `IndexError` before anything
  is attached. A fit with fewer than four bounds raises `IndexError` after
  the tile layer is already attached.

## Model

| member | source | states |
|---|---|---|
| `Py.SetDefault` | maplab/folium.py:21-22 | a default is added only for an absent key; every supplied value, including False, is kept |
| `Py.SetDefaultIdempotent` | maplab/folium.py:26-27 | defaulting a key a second time changes nothing |
| `Py.KeywordCall` | maplab/foliumap.py:34-39 | a call with explicit keywords plus `**kwargs` succeeds exactly when no key is given both ways; the callee then receives both sets of keys unchanged, and otherwise the call raises TypeError |
| `Folium.ForwardedArgs` | maplab/folium.py:15-24 | folium.Map receives the caller's options unchanged, `scroll_wheel_zoom` True only when absent, and `center`/`zoom` defaulted to [20,0] and 2; no other key is added |
| `Folium.FinalFlag` | maplab/folium.py:26-35 | a control flag is on when it is absent, and otherwise exactly when the supplied value is truthy |
| `Folium.InitControls` | maplab/folium.py:26-36 | a layers control is attached iff the final `layers_control` is truthy and a fullscreen control iff the final `fullscreen_control` is; nothing else is attached, and the layers control comes first |
| `Folium.DefaultControls` | maplab/folium.py:26-36 | with no options, both controls are attached, layers then fullscreen |
| `Folium.Map.constructor` | maplab/folium.py:15-36 | the map's folium arguments are ForwardedArgs and its children are InitControls |
| `Folium.Map.AddSearchControl` | maplab/folium.py:39-48 | appends one search control at the given position (default "topleft"), with the Nominatim URL only when `url` is absent and every other option unchanged |
| `Folium.Map.AddDrawControl` | maplab/folium.py:51-58 | appends one draw control carrying the options as given |
| `Folium.Map.AddLayersControl` | maplab/folium.py:61-67 | appends one layers control, "topright" by default |
| `Folium.Map.AddFullscreenControl` | maplab/folium.py:70-76 | appends one fullscreen control, "topright" by default |
| `Folium.TileLayerOptions` | maplab/folium.py:79-91 | the tile layer receives `url`, `name` and `attribution` (default "") plus every extra option unchanged |
| `Folium.Map.AddTileLayer` | maplab/folium.py:79-92 | appends exactly one tile layer built from TileLayerOptions; nothing else changes |
| `Folium.Map.CallAddTileLayer` | maplab/folium.py:107 | binding a call's keywords to `add_tile_layer` attaches a layer with those keywords and `attribution` defaulted to "" |
| `Folium.ResolveBasemap` | maplab/folium.py:105-118 | any casing of "roadmap"/"satellite" gives the matching Google URL with the name as passed, or TypeError exactly when the caller gave `url` or `name`; any other name fails with ValueError naming it when the lookup fails; a found provider succeeds exactly when its url, attribution and name can be read and the caller gave none of `url`, `name`, `attribution`, carries those three values on success, and otherwise fails with ValueError naming the provider object; the caller's options are always forwarded unchanged |
| `Folium.WellKnownIgnoresRegistry` | maplab/folium.py:105-110 | for a well-known name the outcome does not depend on the provider registry, so no lookup is made |
| `Folium.WellKnownCaseInsensitive` | maplab/folium.py:105-110 | two casings of a well-known name give the same layer except for its name |
| `Folium.UppercaseRoadmap` | maplab/folium.py:105-107 | "ROADMAP" gives the Google road-map URL under the name "ROADMAP" |
| `Folium.AttributionKeyword` | maplab/folium.py:107-117 | a caller's `attribution` reaches a Google layer but makes a registry basemap fail |
| `Folium.Map.AddBasemap` | maplab/folium.py:95-118 | appends the one layer ResolveBasemap gives, or returns its error and attaches nothing |
| `Folium.RasterBbox` | maplab/folium.py:194 | the fit box read back in titiler's order is the first four reported bounds |
| `Folium.RasterBboxInverse` | maplab/folium.py:194 | building the fit box from a box's titiler order gives that box back |
| `Folium.RasterBboxPermutes` | maplab/folium.py:194 | the fit box is `[b1, b0, b3, b2]`, a permutation of the first four bounds |
| `Folium.RasterEffect` | maplab/folium.py:161-195 | empty `tiles` raises IndexError and attaches nothing; otherwise one tile layer with url `tiles[0]`, name default "Raster", attribution default "" and the caller's options, then a fit to RasterBbox when fit_bounds is truthy (default True), IndexError with the layer kept when fewer than four bounds, no fit when fit_bounds is falsy |
| `Folium.Map.AddRaster` | maplab/folium.py:161-195 | appends exactly RasterEffect's children and returns its error |
| `Folium.Map.FitTo` | maplab/folium.py:195 | appends one FitBounds element for the given box |
| `Foliumap.InitArgs` | maplab/foliumap.py:15-24 | the base class receives `location`/`zoom_start` (defaults [20,0] and 2), `scroll_wheel_zoom` True only when absent, and every other option unchanged; TypeError exactly when the caller also gave `location` or `zoom_start` |
| `Foliumap.Map.New` | maplab/foliumap.py:15-24 | a fresh map with InitArgs and no children, or the TypeError InitArgs gives |
| `Foliumap.Map.Base` | maplab/foliumap.py:7 | the missing base class records its arguments and attaches nothing |
| `Foliumap.TileLayerArgs` | maplab/foliumap.py:27-39 | folium.TileLayer receives `url` as `tiles`, `attribution` as `attr` (default ""), the name and the extra options unchanged, and neither old key; TypeError exactly when the caller gave `tiles` or `attr` |
| `Foliumap.Map.AddTileLayer` | maplab/foliumap.py:27-40 | attaches exactly one tile layer built from TileLayerArgs and changes nothing else, or raises TypeError and attaches nothing |
| `Maplab.Alphabet` | maplab/maplab.py:17-21 | the alphabet is the 26 lowercase letters, then the uppercase letters when `upper`, then the digits when `digits`, so digits always come after any letters |
| `Maplab.LowercaseRange` | maplab/maplab.py:17 | `ascii_lowercase` holds exactly the characters 'a' to 'z' |
| `Maplab.UppercaseRange` | maplab/maplab.py:19 | `ascii_uppercase` holds exactly the characters 'A' to 'Z' |
| `Maplab.DigitsRange` | maplab/maplab.py:21 | `digits` holds exactly the characters '0' to '9' |
| `Maplab.AlphabetMembers` | maplab/maplab.py:17-21 | a character is in the alphabet iff it is a lowercase letter, or an uppercase letter with `upper`, or a digit with `digits` |
| `Maplab.DefaultFlagsLowercase` | maplab/maplab.py:17-22 | with both flags off, every character drawn is a lowercase ASCII letter |
| `Maplab.FlagsExclude` | maplab/maplab.py:17-22 | without `digits` no digit is drawn, and without `upper` no uppercase letter is drawn |
| `Maplab.RandomString` | maplab/maplab.py:6-22 | the result has `length` characters (none when `length` is 0 or negative), each drawn from the alphabet the flags select |

## Left out

- `add_geojson`, `add_shp` and `add_vector` (maplab/folium.py:121-158): file reading through json and geopandas. `add_geojson` also calls itself with the GeoJson object it has just built, which has no base case.
- The two HTTP requests to titiler in `add_raster` (maplab/folium.py:169-187): network I/O. The `bounds` and `tiles` fields of the two responses are inputs. A response that lacks either field raises KeyError, and the model does not include that case. The raster `url` is only sent to titiler, so `AddRaster` has no parameter for it.
- Folium, xyzservices and Leaflet internals: an attached element is recorded, not rendered. `self.add_control`, `self.add_layer`, `self.add_child` and `self.fit_bounds` all append to `children`.
- `eval(f"xyz.{basemap}")` at maplab/folium.py:113: modelled as a lookup function passed in. A `Provider` says which of `build_url()`, `.attribution` and `.name` raise.
- The text of exception messages: a TypeError does not record which argument was duplicated, and a `ValueError` that names the provider object does not render it.
- `Py.Truthy`: every value the model does not distinguish (`Object`) counts as truthy. So an empty dict or `0.0` passed as `layers_control`, `fullscreen_control` or `fit_bounds` is not modelled as false.
- `Py.Lower`: lowers ASCII letters only. It is compared only with "roadmap" and "satellite", and no non-ASCII character lowers to a letter of those words.
- A `basemap` that is not a string (AttributeError from `.lower()`), or a `random_string` length that is not an integer (TypeError from `range`): the model's parameter types exclude them.
- The random source of `random_string`: each draw is a nondeterministic choice from the alphabet. The distribution is not modelled.
- `foliumap.Map`, the base class at maplab/foliumap.py:7: it does not exist, so that module cannot be imported as written. Only the parameter translation and the attaching of children are modelled.
- setup.py: packaging metadata and reading files from disk.
