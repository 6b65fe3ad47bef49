/** The `Map` class of maplab/folium.py: a folium map whose constructor
    defaults some options and attaches controls, and whose helpers attach
    controls and tile layers. Attaching (folium's `add_child`, and the
    `add_control` / `add_layer` calls the helpers make) appends to the
    map's `children`. */
module Folium {
  import opened Py
  import opened Elements

  const NominatimUrl: string := "https://nominatim.openstreetmap.org/search?format=json&q={s}"
  const RoadmapUrl: string := "http://mt0.google.com/vt/lyrs=m&hl=en&x={x}&y={y}&z={z}"
  const SatelliteUrl: string := "http://mt0.google.com/vt/lyrs=s&hl=en&x={x}&y={y}&z={z}"
  const DefaultCenter: Value := List([Int(20), Int(0)])
  const DefaultZoom: Value := Int(2)
  const TopRight: Value := Str("topright")
  const TopLeft: Value := Str("topleft")

  /** What the provider registry yields for a name. Each field is `None`
      when reaching it raises: `build_url()`, `.attribution`, `.name`. */
  datatype Provider = Provider(builtUrl: Option<Value>, attribution: Option<Value>, name: Option<Value>)

  /** The keyword arguments the constructor hands to `folium.Map.__init__`:
      the caller's options, `scroll_wheel_zoom` defaulted to True, and
      `center` and `zoom` under their own names. Nothing else is added: the
      layers and fullscreen defaults are set after this call. */
  function ForwardedArgs(center: Option<Value>, zoom: Option<Value>, kwargs: Kwargs): (r: Kwargs)
    requires "center" !in kwargs && "zoom" !in kwargs
    ensures r.Keys == kwargs.Keys + {"scroll_wheel_zoom", "center", "zoom"}
    ensures forall k :: k in kwargs ==> r[k] == kwargs[k]
    ensures "scroll_wheel_zoom" !in kwargs ==> r["scroll_wheel_zoom"] == Bool(true)
    ensures r["center"] == center.GetOr(DefaultCenter) && r["zoom"] == zoom.GetOr(DefaultZoom)
  {
    SetDefault(kwargs, "scroll_wheel_zoom", Bool(true))["center" := center.GetOr(DefaultCenter)]["zoom" := zoom.GetOr(DefaultZoom)]
  }

  /** The value of a control flag once the constructor has defaulted it to
      True: a supplied value decides, an absent one means "attach". */
  function FinalFlag(kwargs: Kwargs, key: string): (r: bool)
    ensures r <==> key !in kwargs || Truthy(kwargs[key])
  {
    Truthy(SetDefault(kwargs, key, Bool(true))[key])
  }

  /** The controls the constructor attaches: a layers control exactly when
      the final `layers_control` is truthy, a fullscreen control exactly when
      the final `fullscreen_control` is, the layers control first. */
  function InitControls(kwargs: Kwargs): (r: seq<Child>)
    ensures LayersControl(TopRight) in r <==> FinalFlag(kwargs, "layers_control")
    ensures FullscreenControl(TopRight) in r <==> FinalFlag(kwargs, "fullscreen_control")
    ensures forall c :: c in r ==> c == LayersControl(TopRight) || c == FullscreenControl(TopRight)
    ensures |r| <= 2
    ensures |r| == 2 ==> r == [LayersControl(TopRight), FullscreenControl(TopRight)]
  {
    (if FinalFlag(kwargs, "layers_control") then [LayersControl(TopRight)] else [])
    + (if FinalFlag(kwargs, "fullscreen_control") then [FullscreenControl(TopRight)] else [])
  }

  /** With no options at all, both controls are attached, layers first. */
  lemma DefaultControls()
    ensures InitControls(map[]) == [LayersControl(TopRight), FullscreenControl(TopRight)]
  {
  }

  /** The keyword arguments `add_tile_layer` hands to `folium.TileLayer`. */
  function TileLayerOptions(url: Value, name: Value, attribution: Option<Value>, kwargs: Kwargs): (r: Kwargs)
    requires "url" !in kwargs && "name" !in kwargs && "attribution" !in kwargs
    ensures r.Keys == kwargs.Keys + {"url", "name", "attribution"}
    ensures r["url"] == url && r["name"] == name && r["attribution"] == attribution.GetOr(Str(""))
    ensures forall k :: k in kwargs ==> r[k] == kwargs[k]
  {
    kwargs + map["url" := url, "name" := name, "attribution" := attribution.GetOr(Str(""))]
  }

  /** A Google basemap: `add_tile_layer(url, name=basemap, **kwargs)`. A
      caller's `url` or `name` keyword clashes with the explicit ones. */
  function WellKnownLayer(url: string, basemap: string, kwargs: Kwargs): Result<Kwargs> {
    match KeywordCall(map["url" := Str(url), "name" := Str(basemap)], kwargs)
    case Err(e) => Err(e)
    case Ok(args) => Ok(SetDefault(args, "attribution", Str("")))
  }

  /** A registry basemap. Inside the bare `try`/`except`, every failure
      becomes a `ValueError`; its message names the string only while
      `basemap` has not yet been rebound to the looked-up provider. */
  function ProviderLayer(found: Option<Provider>, basemap: string, kwargs: Kwargs): Result<Kwargs> {
    match found
    case None => Err(ValueError(NameText(basemap)))
    case Some(p) =>
      if p.builtUrl.None? || p.attribution.None? || p.name.None? then Err(ValueError(ProviderObject))
      else
        match KeywordCall(map["url" := p.builtUrl.value, "name" := p.name.value, "attribution" := p.attribution.value], kwargs)
        case Err(_) => Err(ValueError(ProviderObject))
        case Ok(args) => Ok(args)
  }

  /** The first-match decision chain of `add_basemap`: the options of the one
      tile layer it attaches, or the exception it raises. `lookup` stands for
      evaluating `xyz.<basemap>` in the provider registry. */
  function ResolveBasemap(basemap: string, kwargs: Kwargs, lookup: string -> Option<Provider>): (r: Result<Kwargs>)
    ensures r.Ok? ==> r.value.Keys == kwargs.Keys + {"url", "name", "attribution"}
    ensures Lower(basemap) == "roadmap" ==>
      (r.Ok? <==> "url" !in kwargs && "name" !in kwargs)
      && (r.Ok? ==> r.value["url"] == Str(RoadmapUrl) && r.value["name"] == Str(basemap))
      && (r.Ok? && "attribution" !in kwargs ==> r.value["attribution"] == Str(""))
      && (r.Err? ==> r.error == TypeError)
    ensures Lower(basemap) == "satellite" ==>
      (r.Ok? <==> "url" !in kwargs && "name" !in kwargs)
      && (r.Ok? ==> r.value["url"] == Str(SatelliteUrl) && r.value["name"] == Str(basemap))
      && (r.Ok? && "attribution" !in kwargs ==> r.value["attribution"] == Str(""))
      && (r.Err? ==> r.error == TypeError)
    ensures Lower(basemap) != "roadmap" && Lower(basemap) != "satellite" ==>
      (lookup(basemap).None? ==> r == Err(ValueError(NameText(basemap))))
      && (r.Err? ==> r.error.ValueError?)
      && (r.Ok? ==> lookup(basemap).Some?
                    && Some(r.value["url"]) == lookup(basemap).value.builtUrl
                    && Some(r.value["name"]) == lookup(basemap).value.name
                    && Some(r.value["attribution"]) == lookup(basemap).value.attribution)
    ensures Lower(basemap) != "roadmap" && Lower(basemap) != "satellite" && lookup(basemap).Some? ==>
      (r.Ok? <==> lookup(basemap).value.builtUrl.Some? && lookup(basemap).value.attribution.Some?
                  && lookup(basemap).value.name.Some?
                  && "url" !in kwargs && "name" !in kwargs && "attribution" !in kwargs)
      && (r.Err? ==> r.error == ValueError(ProviderObject))
    ensures r.Ok? ==> forall k :: k in kwargs ==> r.value[k] == kwargs[k]
  {
    if Lower(basemap) == "roadmap" then WellKnownLayer(RoadmapUrl, basemap, kwargs)
    else if Lower(basemap) == "satellite" then WellKnownLayer(SatelliteUrl, basemap, kwargs)
    else ProviderLayer(lookup(basemap), basemap, kwargs)
  }

  /** No provider lookup happens for a well-known name: the outcome does not
      depend on the registry. */
  lemma WellKnownIgnoresRegistry(basemap: string, kwargs: Kwargs, l1: string -> Option<Provider>, l2: string -> Option<Provider>)
    requires Lower(basemap) == "roadmap" || Lower(basemap) == "satellite"
    ensures ResolveBasemap(basemap, kwargs, l1) == ResolveBasemap(basemap, kwargs, l2)
  {
  }

  /** Any casing of a well-known name gives the same layer up to its name,
      which stays the argument exactly as passed. */
  lemma WellKnownCaseInsensitive(a: string, b: string, kwargs: Kwargs, lookup: string -> Option<Provider>)
    requires Lower(a) == Lower(b)
    requires Lower(a) == "roadmap" || Lower(a) == "satellite"
    ensures ResolveBasemap(a, kwargs, lookup).Ok? == ResolveBasemap(b, kwargs, lookup).Ok?
    ensures ResolveBasemap(a, kwargs, lookup).Ok? ==>
      ResolveBasemap(a, kwargs, lookup).value == ResolveBasemap(b, kwargs, lookup).value["name" := Str(a)]
  {
  }

  /** "ROADMAP" is the Google road map, named "ROADMAP". */
  lemma UppercaseRoadmap(kwargs: Kwargs, lookup: string -> Option<Provider>)
    requires "url" !in kwargs && "name" !in kwargs
    ensures ResolveBasemap("ROADMAP", kwargs, lookup).Ok?
    ensures ResolveBasemap("ROADMAP", kwargs, lookup).value["url"] == Str(RoadmapUrl)
    ensures ResolveBasemap("ROADMAP", kwargs, lookup).value["name"] == Str("ROADMAP")
  {
  }

  /** A caller's `attribution` keyword reaches a Google layer, but clashes
      with the provider's own attribution in the registry branch. */
  lemma AttributionKeyword(basemap: string, kwargs: Kwargs, lookup: string -> Option<Provider>)
    requires "attribution" in kwargs && "url" !in kwargs && "name" !in kwargs
    ensures Lower(basemap) == "roadmap" || Lower(basemap) == "satellite" ==>
      ResolveBasemap(basemap, kwargs, lookup).Ok?
      && ResolveBasemap(basemap, kwargs, lookup).value["attribution"] == kwargs["attribution"]
    ensures Lower(basemap) != "roadmap" && Lower(basemap) != "satellite" ==>
      ResolveBasemap(basemap, kwargs, lookup).Err?
  {
  }

  /** The fit box of `add_raster`: titiler reports bounds as
      `[west, south, east, north]`, Leaflet wants `[[south, west], [north, east]]`. */
  function RasterBbox(bounds: seq<Value>): (r: Bounds)
    requires |bounds| >= 4
    ensures TitilerBounds(r) == bounds[..4]
  {
    Bounds(LatLng(bounds[1], bounds[0]), LatLng(bounds[3], bounds[2]))
  }

  /** The titiler order read back off a Leaflet bounds: the inverse of RasterBbox. */
  function TitilerBounds(b: Bounds): (r: seq<Value>)
    ensures |r| == 4
  {
    [b.southWest.lng, b.southWest.lat, b.northEast.lng, b.northEast.lat]
  }

  lemma RasterBboxInverse(b: Bounds)
    ensures RasterBbox(TitilerBounds(b)) == b
  {
  }

  /** A bounds as the nested list folium receives, flattened. */
  function Corners(b: Bounds): seq<Value> {
    [b.southWest.lat, b.southWest.lng, b.northEast.lat, b.northEast.lng]
  }

  /** The fit box holds the first four reported coordinates, each exactly
      once, pairwise swapped. */
  lemma RasterBboxPermutes(bounds: seq<Value>)
    requires |bounds| >= 4
    ensures Corners(RasterBbox(bounds)) == [bounds[1], bounds[0], bounds[3], bounds[2]]
    ensures multiset(Corners(RasterBbox(bounds))) == multiset(bounds[..4])
  {
  }

  /** What one `add_raster` call attaches, and the exception it raises. */
  datatype Effect = Effect(added: seq<Child>, error: Option<Error>)

  /** `add_raster` given the two titiler responses: `tiles[0]` fails on an
      empty list before anything is attached; the layer is then attached,
      and a fit on fewer than four bounds fails with the layer in place. */
  function RasterEffect(name: Option<Value>, fitBounds: Option<Value>, kwargs: Kwargs,
                        bounds: seq<Value>, tiles: seq<Value>): (r: Effect)
    requires "url" !in kwargs && "name" !in kwargs
    ensures tiles == [] ==> r == Effect([], Some(IndexError))
    ensures tiles != [] ==> 1 <= |r.added| <= 2 && r.added[0].TileLayer?
    ensures tiles != [] ==> r.added[0].options.Keys == kwargs.Keys + {"url", "name", "attribution"}
    ensures tiles != [] ==> r.added[0].options["url"] == tiles[0]
    ensures tiles != [] ==> r.added[0].options["name"] == name.GetOr(Str("Raster"))
    ensures tiles != [] ==> forall k :: k in kwargs ==> r.added[0].options[k] == kwargs[k]
    ensures tiles != [] && "attribution" !in kwargs ==> r.added[0].options["attribution"] == Str("")
    ensures tiles != [] && !Truthy(fitBounds.GetOr(Bool(true))) ==> r == Effect([r.added[0]], None)
    ensures tiles != [] && Truthy(fitBounds.GetOr(Bool(true))) && |bounds| < 4 ==>
      r == Effect([r.added[0]], Some(IndexError))
    ensures tiles != [] && Truthy(fitBounds.GetOr(Bool(true))) && |bounds| >= 4 ==>
      r == Effect([r.added[0], FitBounds(RasterBbox(bounds))], None)
  {
    if tiles == [] then Effect([], Some(IndexError))
    else
      var layer := TileLayer(SetDefault(kwargs["url" := tiles[0]]["name" := name.GetOr(Str("Raster"))], "attribution", Str("")));
      if !Truthy(fitBounds.GetOr(Bool(true))) then Effect([layer], None)
      else if |bounds| < 4 then Effect([layer], Some(IndexError))
      else Effect([layer, FitBounds(RasterBbox(bounds))], None)
  }

  class Map {
    /** The keyword arguments `folium.Map.__init__` received. */
    var initArgs: Kwargs
    /** Layers and controls attached so far, in order. */
    var children: seq<Child>

    /** `Map(center=[20,0], zoom=2, **kwargs)`. A named parameter never
        appears in `**kwargs`, hence the precondition. */
    constructor (center: Option<Value>, zoom: Option<Value>, kwargs: Kwargs)
      requires "center" !in kwargs && "zoom" !in kwargs
      ensures initArgs == ForwardedArgs(center, zoom, kwargs)
      ensures children == InitControls(kwargs)
    {
      var kw := kwargs;
      if "scroll_wheel_zoom" !in kw {
        kw := kw["scroll_wheel_zoom" := Bool(true)];
      }
      initArgs := kw["center" := center.GetOr(DefaultCenter)]["zoom" := zoom.GetOr(DefaultZoom)];
      children := [];
      new;
      if "layers_control" !in kw {
        kw := kw["layers_control" := Bool(true)];
      }
      if Truthy(kw["layers_control"]) {
        AddLayersControl(None);
      }
      if "fullscreen_control" !in kw {
        kw := kw["fullscreen_control" := Bool(true)];
      }
      if Truthy(kw["fullscreen_control"]) {
        AddFullscreenControl(None);
      }
    }

    /** `add_search_control(position="topleft", **kwargs)`: the Nominatim
        URL is supplied only when the caller gave no `url`. */
    method AddSearchControl(position: Option<Value>, kwargs: Kwargs)
      requires "position" !in kwargs
      modifies this
      ensures initArgs == old(initArgs)
      ensures children == old(children) + [SearchControl(position.GetOr(TopLeft), SetDefault(kwargs, "url", Str(NominatimUrl)))]
    {
      var kw := kwargs;
      if "url" !in kw {
        kw := kw["url" := Str(NominatimUrl)];
      }
      children := children + [SearchControl(position.GetOr(TopLeft), kw)];
    }

    /** `add_draw_control(**kwargs)`. */
    method AddDrawControl(kwargs: Kwargs)
      modifies this
      ensures initArgs == old(initArgs)
      ensures children == old(children) + [DrawControl(kwargs)]
    {
      children := children + [DrawControl(kwargs)];
    }

    /** `add_layers_control(position='topright')`. */
    method AddLayersControl(position: Option<Value>)
      modifies this
      ensures initArgs == old(initArgs)
      ensures children == old(children) + [LayersControl(position.GetOr(TopRight))]
    {
      children := children + [LayersControl(position.GetOr(TopRight))];
    }

    /** `add_fullscreen_control(position='topright')`. */
    method AddFullscreenControl(position: Option<Value>)
      modifies this
      ensures initArgs == old(initArgs)
      ensures children == old(children) + [FullscreenControl(position.GetOr(TopRight))]
    {
      children := children + [FullscreenControl(position.GetOr(TopRight))];
    }

    /** `add_tile_layer(url, name, attribution="", **kwargs)`. */
    method AddTileLayer(url: Value, name: Value, attribution: Option<Value>, kwargs: Kwargs)
      requires "url" !in kwargs && "name" !in kwargs && "attribution" !in kwargs
      modifies this
      ensures initArgs == old(initArgs)
      ensures children == old(children) + [TileLayer(TileLayerOptions(url, name, attribution, kwargs))]
    {
      var layer := TileLayer(kwargs + map["url" := url, "name" := name, "attribution" := attribution.GetOr(Str(""))]);
      children := children + [layer];
    }

    /** Python's binding of a call's keyword arguments `args` to the
        parameters of `add_tile_layer`, followed by the call. */
    method CallAddTileLayer(args: Kwargs)
      requires "url" in args && "name" in args
      modifies this
      ensures initArgs == old(initArgs)
      ensures children == old(children) + [TileLayer(SetDefault(args, "attribution", Str("")))]
    {
      var attribution := if "attribution" in args then Some(args["attribution"]) else None;
      var rest := args - {"url", "name", "attribution"};
      AddTileLayer(args["url"], args["name"], attribution, rest);
      assert TileLayerOptions(args["url"], args["name"], attribution, rest) == SetDefault(args, "attribution", Str(""));
    }

    /** `self.fit_bounds(bbox)`, recorded as a FitBounds element. */
    method FitTo(bbox: Bounds)
      modifies this
      ensures initArgs == old(initArgs)
      ensures children == old(children) + [Child.FitBounds(bbox)]
    {
      children := children + [Child.FitBounds(bbox)];
    }

    /** `add_basemap(basemap, **kwargs)`: attaches the layer ResolveBasemap
        describes, or raises its exception and attaches nothing. */
    method AddBasemap(basemap: string, kwargs: Kwargs, lookup: string -> Option<Provider>) returns (err: Option<Error>)
      requires "basemap" !in kwargs
      modifies this
      ensures initArgs == old(initArgs)
      ensures ResolveBasemap(basemap, kwargs, lookup).Ok? ==>
        err == None && children == old(children) + [TileLayer(ResolveBasemap(basemap, kwargs, lookup).value)]
      ensures ResolveBasemap(basemap, kwargs, lookup).Err? ==>
        err == Some(ResolveBasemap(basemap, kwargs, lookup).error) && children == old(children)
    {
      if Lower(basemap) == "roadmap" {
        var call := KeywordCall(map["url" := Str(RoadmapUrl), "name" := Str(basemap)], kwargs);
        if call.Err? {
          return Some(call.error);
        }
        CallAddTileLayer(call.value);
        err := None;
      } else if Lower(basemap) == "satellite" {
        var call := KeywordCall(map["url" := Str(SatelliteUrl), "name" := Str(basemap)], kwargs);
        if call.Err? {
          return Some(call.error);
        }
        CallAddTileLayer(call.value);
        err := None;
      } else {
        var found := lookup(basemap);
        if found.None? {
          return Some(ValueError(NameText(basemap)));
        }
        var p := found.value;
        if p.builtUrl.None? || p.attribution.None? || p.name.None? {
          return Some(ValueError(ProviderObject));
        }
        var call := KeywordCall(map["url" := p.builtUrl.value, "name" := p.name.value, "attribution" := p.attribution.value], kwargs);
        if call.Err? {
          return Some(ValueError(ProviderObject));
        }
        CallAddTileLayer(call.value);
        err := None;
      }
    }

    /** `add_raster(url, name='Raster', fit_bounds=True, **kwargs)`, given
        the `bounds` of the info response and the `tiles` of the tilejson
        response from titiler. */
    method AddRaster(name: Option<Value>, fitBounds: Option<Value>, kwargs: Kwargs,
                     bounds: seq<Value>, tiles: seq<Value>) returns (err: Option<Error>)
      requires "url" !in kwargs && "name" !in kwargs && "fit_bounds" !in kwargs
      modifies this
      ensures initArgs == old(initArgs)
      ensures children == old(children) + RasterEffect(name, fitBounds, kwargs, bounds, tiles).added
      ensures err == RasterEffect(name, fitBounds, kwargs, bounds, tiles).error
    {
      if |tiles| == 0 {
        return Some(IndexError);
      }
      var tile := tiles[0];
      CallAddTileLayer(kwargs["url" := tile]["name" := name.GetOr(Str("Raster"))]);
      err := None;
      if Truthy(fitBounds.GetOr(Bool(true))) {
        if |bounds| < 4 {
          return Some(IndexError);
        }
        var bbox := RasterBbox(bounds);
        FitTo(bbox);
      }
    }
  }
}
