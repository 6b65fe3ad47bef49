/** The `Map` class of maplab/foliumap.py: the same helpers as Folium.Map,
    written against folium's own keyword names. Its base class,
    `foliumap.Map`, does not exist in the repository; the model keeps only
    the translation of parameters and the attaching of children. */
module Foliumap {
  import opened Py
  import opened Elements
  import Folium

  /** The keyword arguments `__init__` hands to its base class:
      `scroll_wheel_zoom` defaulted to True, `center` renamed `location` and
      `zoom` renamed `zoom_start`. A caller's own `location` or `zoom_start`
      clashes with the renamed ones and raises TypeError. */
  function InitArgs(center: Option<Value>, zoom: Option<Value>, kwargs: Kwargs): (r: Result<Kwargs>)
    requires "center" !in kwargs && "zoom" !in kwargs
    ensures r.Ok? <==> "location" !in kwargs && "zoom_start" !in kwargs
    ensures r.Err? ==> r.error == TypeError
    ensures r.Ok? ==> r.value.Keys == kwargs.Keys + {"scroll_wheel_zoom", "location", "zoom_start"}
    ensures r.Ok? ==> r.value["location"] == center.GetOr(Folium.DefaultCenter)
    ensures r.Ok? ==> r.value["zoom_start"] == zoom.GetOr(Folium.DefaultZoom)
    ensures r.Ok? ==> forall k :: k in kwargs ==> r.value[k] == kwargs[k]
    ensures r.Ok? && "scroll_wheel_zoom" !in kwargs ==> r.value["scroll_wheel_zoom"] == Bool(true)
  {
    KeywordCall(map["location" := center.GetOr(Folium.DefaultCenter), "zoom_start" := zoom.GetOr(Folium.DefaultZoom)],
                SetDefault(kwargs, "scroll_wheel_zoom", Bool(true)))
  }

  /** The keyword arguments `add_tile_layer` hands to `folium.TileLayer`:
      `url` renamed `tiles`, `attribution` renamed `attr`. A caller's own
      `tiles` or `attr` clashes with the renamed ones and raises TypeError. */
  function TileLayerArgs(url: Value, name: Value, attribution: Option<Value>, kwargs: Kwargs): (r: Result<Kwargs>)
    requires "url" !in kwargs && "name" !in kwargs && "attribution" !in kwargs
    ensures r.Ok? <==> "tiles" !in kwargs && "attr" !in kwargs
    ensures r.Err? ==> r.error == TypeError
    ensures r.Ok? ==> r.value.Keys == kwargs.Keys + {"tiles", "name", "attr"}
    ensures r.Ok? ==> "url" !in r.value && "attribution" !in r.value
    ensures r.Ok? ==> r.value["tiles"] == url && r.value["name"] == name
    ensures r.Ok? ==> r.value["attr"] == attribution.GetOr(Str(""))
    ensures r.Ok? ==> forall k :: k in kwargs ==> r.value[k] == kwargs[k]
  {
    KeywordCall(map["tiles" := url, "name" := name, "attr" := attribution.GetOr(Str(""))], kwargs)
  }

  class Map {
    /** The keyword arguments the base class initializer received. */
    var initArgs: Kwargs
    /** Layers and controls attached so far, in order. */
    var children: seq<Child>

    /** Stands for the missing base class's initializer: it records what it
        was given and attaches nothing. */
    constructor Base(args: Kwargs)
      ensures initArgs == args && children == []
    {
      initArgs := args;
      children := [];
    }

    /** `Map(center=[20,0], zoom=2, **kwargs)`: a new map, or the TypeError
        the base class call raises. */
    static method New(center: Option<Value>, zoom: Option<Value>, kwargs: Kwargs) returns (r: Result<Map>)
      requires "center" !in kwargs && "zoom" !in kwargs
      ensures InitArgs(center, zoom, kwargs).Err? ==> r == Err(InitArgs(center, zoom, kwargs).error)
      ensures InitArgs(center, zoom, kwargs).Ok? ==>
        r.Ok? && fresh(r.value) && r.value.initArgs == InitArgs(center, zoom, kwargs).value && r.value.children == []
    {
      var kw := kwargs;
      if "scroll_wheel_zoom" !in kw {
        kw := kw["scroll_wheel_zoom" := Bool(true)];
      }
      var call := KeywordCall(map["location" := center.GetOr(Folium.DefaultCenter), "zoom_start" := zoom.GetOr(Folium.DefaultZoom)], kw);
      if call.Err? {
        return Err(call.error);
      }
      var m := new Map.Base(call.value);
      return Ok(m);
    }

    /** `add_tile_layer(url, name, attribution="", **kwargs)`: attaches
        exactly one tile layer, or raises and attaches nothing. */
    method AddTileLayer(url: Value, name: Value, attribution: Option<Value>, kwargs: Kwargs) returns (err: Option<Error>)
      requires "url" !in kwargs && "name" !in kwargs && "attribution" !in kwargs
      modifies this
      ensures initArgs == old(initArgs)
      ensures TileLayerArgs(url, name, attribution, kwargs).Ok? ==>
        err == None && children == old(children) + [TileLayer(TileLayerArgs(url, name, attribution, kwargs).value)]
      ensures TileLayerArgs(url, name, attribution, kwargs).Err? ==>
        err == Some(TypeError) && children == old(children)
    {
      var call := KeywordCall(map["tiles" := url, "name" := name, "attr" := attribution.GetOr(Str(""))], kwargs);
      if call.Err? {
        return Some(call.error);
      }
      children := children + [TileLayer(call.value)];
      err := None;
    }
  }
}
