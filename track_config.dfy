/**
 * The track descriptor and the normaliser that fills it from a raw
 * configuration object (`igv.configTrack`), together with the two setters
 * `igv.setTrackLabel` and `igv.setTrackColor`.
 *
 * The configuration property `type` and the track property `type` are
 * called `trackType` here and the configuration property `label` is called
 * `deprecatedLabel`, because `type` and `label` are Dafny keywords.
 */
module TrackConfiguration {
  import opened JsNumbers
  import opened JsValues

  /** The configuration properties that the normaliser reads or writes. */
  datatype ConfigState = ConfigState(
    name: JsVal, deprecatedLabel: JsVal, localFile: JsVal, url: JsVal, id: JsVal, order: JsVal,
    color: JsVal, removable: JsVal, height: JsVal, trackType: JsVal, autoHeight: JsVal,
    autoheight: JsVal, minHeight: JsVal, maxHeight: JsVal, visibilityWindow: JsVal)

  /** The track properties that the normaliser writes. */
  datatype TrackState = TrackState(
    url: JsVal, name: JsVal, id: JsVal, order: JsVal, color: JsVal, removable: JsVal,
    height: JsVal, autoHeight: JsVal, minHeight: JsVal, maxHeight: JsVal,
    visibilityWindow: JsVal, trackType: JsVal)

  /** A call that the track's handlers make on its view, the browser or the menu popover. */
  datatype ViewEvent = Repaint | Update | SetTrackHeight(height: JsNumber) | PopoverHidden | TrackRemoved

  datatype Normalized = Normalized(config: ConfigState, track: TrackState)

  /** The default height of a track of the given type: 50 for `'wig'`, 100 otherwise. */
  function DefaultHeight(trackType: JsVal): JsVal {
    Num(if trackType == Str("wig") then 50.0 else 100.0)
  }

  /**
   * What `igv.configTrack` leaves in the configuration object and in the
   * track, given the configuration, the track's prior properties and the
   * browser's default colour.
   */
  function Normalize(c: ConfigState, t: TrackState, defaultColor: JsVal): (r: Normalized)
    // the display name: name, then the deprecated label, then the local file's name, then the url
    ensures Truthy(c.name) ==> r.track.name == c.name
    ensures !Truthy(c.name) && Truthy(c.deprecatedLabel) ==> r.track.name == c.deprecatedLabel
    ensures !Truthy(c.name) && !Truthy(c.deprecatedLabel) && Truthy(c.localFile) ==> r.track.name == NameProperty(c.localFile)
    ensures !Truthy(c.name) && !Truthy(c.deprecatedLabel) && !Truthy(c.localFile) ==> r.track.name == c.url
    ensures r.track.id == (if Truthy(c.id) then c.id else r.track.name)
    ensures r.track.color == (if Truthy(c.color) then c.color else defaultColor)
    ensures c.removable == Undefined ==> r.track.removable == Bool(true)
    ensures c.removable != Undefined ==> r.track.removable == c.removable
    ensures Truthy(c.height) ==> r.track.height == c.height
    ensures !Truthy(c.height) ==> r.track.height == DefaultHeight(c.trackType)
    // explicit bounds win when truthy; the defaults are stated by DefaultBounds
    ensures Truthy(c.minHeight) ==> r.track.minHeight == c.minHeight
    ensures Truthy(c.maxHeight) ==> r.track.maxHeight == c.maxHeight
    // the legacy key `autoheight` is read only when `autoHeight` is undefined
    ensures c.autoHeight != Undefined ==> r.track.autoHeight == c.autoHeight
    ensures c.autoHeight == Undefined && c.autoheight != Undefined ==> r.track.autoHeight == c.autoheight
    ensures c.autoHeight == Undefined && c.autoheight == Undefined ==> r.track.autoHeight == Bool(c.height == Undefined)
    ensures Truthy(c.visibilityWindow) ==> r.track.visibilityWindow == c.visibilityWindow
    ensures !Truthy(c.visibilityWindow) ==> r.track.visibilityWindow == t.visibilityWindow
    // a type the track already has is kept
    ensures r.track.trackType == (if t.trackType == Undefined then c.trackType else t.trackType)
    ensures r.track.url == c.url && r.track.order == c.order
    // the configuration object itself gets `name || label` and the coalesced autoHeight, nothing else
    ensures r.config == c.(name := Or(c.name, c.deprecatedLabel), autoHeight := if c.autoHeight == Undefined then c.autoheight else c.autoHeight)
  {
    var configName := Or(c.name, c.deprecatedLabel);
    var name := if Truthy(configName) then configName else if Truthy(c.localFile) then NameProperty(c.localFile) else c.url;
    var height := Or(c.height, DefaultHeight(c.trackType));
    var autoHeight := if c.autoHeight == Undefined then c.autoheight else c.autoHeight;
    Normalized(
      c.(name := configName, autoHeight := autoHeight),
      TrackState(
        url := c.url,
        name := name,
        id := Or(c.id, name),
        order := c.order,
        color := Or(c.color, defaultColor),
        removable := if c.removable == Undefined then Bool(true) else c.removable,
        height := height,
        autoHeight := if autoHeight == Undefined then Bool(c.height == Undefined) else autoHeight,
        minHeight := Or(c.minHeight, Number(Min(Finite(50.0), ToNumber(height)))),
        maxHeight := Or(c.maxHeight, Number(Max(Finite(500.0), ToNumber(height)))),
        visibilityWindow := if Truthy(c.visibilityWindow) then c.visibilityWindow else t.visibilityWindow,
        trackType := if t.trackType == Undefined then c.trackType else t.trackType))
  }

  /**
   * With no explicit minHeight or maxHeight and a height that converts to a
   * number (a numeric string included), the normalised heights satisfy minHeight <= height <= maxHeight,
   * with minHeight at most 50 and maxHeight at least 500.
   */
  lemma HeightsBracketed(c: ConfigState, t: TrackState, defaultColor: JsVal)
    requires !Truthy(c.minHeight) && !Truthy(c.maxHeight)
    requires ToNumber(Or(c.height, DefaultHeight(c.trackType))) != NaN
    ensures var r := Normalize(c, t, defaultColor).track;
      && AtMost(ToNumber(r.minHeight), ToNumber(r.height))
      && AtMost(ToNumber(r.height), ToNumber(r.maxHeight))
      && AtMost(ToNumber(r.minHeight), Finite(50.0))
      && AtMost(Finite(500.0), ToNumber(r.maxHeight))
  {
    var r := Normalize(c, t, defaultColor).track;
    var h := ToNumber(r.height);
    assert h != NaN;
    MinIsLowerBound(Finite(50.0), h);
    MaxIsUpperBound(Finite(500.0), h);
  }

  /**
   * Without truthy explicit bounds, minHeight is the smaller of 50 and the
   * height and maxHeight the larger of 500 and the height; a height that
   * converts to NaN makes both NaN.
   */
  lemma DefaultBounds(c: ConfigState, t: TrackState, defaultColor: JsVal)
    requires !Truthy(c.minHeight) && !Truthy(c.maxHeight)
    ensures var r := Normalize(c, t, defaultColor).track;
      var h := ToNumber(r.height);
      && ToNumber(r.minHeight) == (if h == NaN then NaN else if Less(h, Finite(50.0)) then h else Finite(50.0))
      && ToNumber(r.maxHeight) == (if h == NaN then NaN else if Less(Finite(500.0), h) then h else Finite(500.0))
  {
  }

  /**
   * When neither autoHeight key is given, autoHeight is on exactly when the
   * configuration has no height key at all, even a falsy one.
   */
  lemma AutoHeightFollowsHeightKey(c: ConfigState, t: TrackState, defaultColor: JsVal)
    requires c.autoHeight == Undefined && c.autoheight == Undefined
    ensures Normalize(c, t, defaultColor).track.autoHeight == Bool(true) <==> c.height == Undefined
  {
  }

  /** `{height: 0}`: the height falls back to the default 100, yet autoHeight is off. */
  lemma ZeroHeightFallsBack(c: ConfigState, t: TrackState, defaultColor: JsVal)
    requires c.height == Num(0.0) && c.trackType == Undefined
    requires c.autoHeight == Undefined && c.autoheight == Undefined
    requires !Truthy(c.minHeight) && !Truthy(c.maxHeight)
    ensures var r := Normalize(c, t, defaultColor).track;
      r.height == Num(100.0) && r.autoHeight == Bool(false)
      && r.minHeight == Num(50.0) && r.maxHeight == Num(500.0)
  {
  }

  /** A configuration object; its properties are updated in place by the normaliser. */
  class TrackConfig {
    var name: JsVal
    var deprecatedLabel: JsVal
    var localFile: JsVal
    var url: JsVal
    var id: JsVal
    var order: JsVal
    var color: JsVal
    var removable: JsVal
    var height: JsVal
    var trackType: JsVal
    var autoHeight: JsVal
    var autoheight: JsVal
    var minHeight: JsVal
    var maxHeight: JsVal
    var visibilityWindow: JsVal

    function State(): ConfigState
      reads this
    {
      ConfigState(name, deprecatedLabel, localFile, url, id, order, color, removable, height, trackType,
        autoHeight, autoheight, minHeight, maxHeight, visibilityWindow)
    }

    constructor (c: ConfigState)
      ensures State() == c
    {
      name, deprecatedLabel, localFile, url, id, order := c.name, c.deprecatedLabel, c.localFile, c.url, c.id, c.order;
      color, removable, height, trackType := c.color, c.removable, c.height, c.trackType;
      autoHeight, autoheight, minHeight, maxHeight := c.autoHeight, c.autoheight, c.minHeight, c.maxHeight;
      visibilityWindow := c.visibilityWindow;
    }
  }

  /** A track: its descriptor properties, whether it is attached to a track view, and the calls it has made. */
  class Track {
    var config: TrackConfig?
    var url: JsVal
    var name: JsVal
    var id: JsVal
    var order: JsVal
    var color: JsVal
    var removable: JsVal
    var height: JsVal
    var autoHeight: JsVal
    var minHeight: JsVal
    var maxHeight: JsVal
    var visibilityWindow: JsVal
    var trackType: JsVal
    /** Whether `track.trackView` is set. */
    var hasView: bool
    /** The calls made on the track's view, the browser and the popover, oldest first. */
    var events: seq<ViewEvent>

    function State(): TrackState
      reads this
    {
      TrackState(url, name, id, order, color, removable, height, autoHeight, minHeight, maxHeight,
        visibilityWindow, trackType)
    }

    /** A new track of some variant, which may already have set its type, before configuration. */
    constructor (trackType: JsVal, hasView: bool)
      ensures State() == TrackState(Undefined, Undefined, Undefined, Undefined, Undefined, Undefined,
        Undefined, Undefined, Undefined, Undefined, Undefined, trackType)
      ensures config == null && this.hasView == hasView && events == []
    {
      config := null;
      url, name, id, order, color, removable := Undefined, Undefined, Undefined, Undefined, Undefined, Undefined;
      height, autoHeight, minHeight, maxHeight := Undefined, Undefined, Undefined, Undefined;
      visibilityWindow := Undefined;
      this.trackType := trackType;
      this.hasView := hasView;
      events := [];
    }
  }

  /** `igv.configTrack(track, config)`, with the browser's default colour passed in. */
  method ConfigTrack(track: Track, config: TrackConfig, defaultColor: JsVal)
    modifies track, config
    ensures track.config == config
    ensures config.State() == Normalize(old(config.State()), old(track.State()), defaultColor).config
    ensures track.State() == Normalize(old(config.State()), old(track.State()), defaultColor).track
    ensures track.hasView == old(track.hasView) && track.events == old(track.events)
  {
    ConfigTrackName(track, config);
    ConfigTrackAppearance(track, config, defaultColor);
    ConfigTrackHeights(track, config);
    ConfigTrackExtent(track, config);
  }

  /** Lines of `igv.configTrack` that settle the source and the name: config, url, name and id. */
  method ConfigTrackName(track: Track, config: TrackConfig)
    modifies track, config
    ensures track.config == config
    ensures config.State() == old(config.State()).(name := Or(old(config.name), old(config.deprecatedLabel)))
    ensures var n := Normalize(old(config.State()), old(track.State()), Undefined).track;
      track.State() == old(track.State()).(url := n.url, name := n.name, id := n.id)
    ensures track.hasView == old(track.hasView) && track.events == old(track.events)
  {
    track.config := config;
    track.url := config.url;

    config.name := Or(config.name, config.deprecatedLabel);
    if Truthy(config.name) {
      track.name := config.name;
    } else {
      if Truthy(config.localFile) {
        track.name := NameProperty(config.localFile);
      } else {
        track.name := config.url;
      }
    }

    track.id := Or(config.id, track.name);
  }

  /** Lines of `igv.configTrack` that settle order, colour and removability. */
  method ConfigTrackAppearance(track: Track, config: TrackConfig, defaultColor: JsVal)
    modifies track
    ensures var n := Normalize(config.State(), old(track.State()), defaultColor).track;
      track.State() == old(track.State()).(order := n.order, color := n.color, removable := n.removable)
    ensures track.config == old(track.config)
    ensures track.hasView == old(track.hasView) && track.events == old(track.events)
  {
    track.order := config.order;
    track.color := Or(config.color, defaultColor);
    track.removable := if config.removable == Undefined then Bool(true) else config.removable;
  }

  /** Lines of `igv.configTrack` that settle the height, autoHeight (through the legacy key) and the height bounds. */
  method ConfigTrackHeights(track: Track, config: TrackConfig)
    modifies track, config
    ensures var r := Normalize(old(config.State()), old(track.State()), Undefined);
      && config.State() == old(config.State()).(autoHeight := r.config.autoHeight)
      && track.State() == old(track.State()).(height := r.track.height, autoHeight := r.track.autoHeight,
           minHeight := r.track.minHeight, maxHeight := r.track.maxHeight)
    ensures track.config == old(track.config)
    ensures track.hasView == old(track.hasView) && track.events == old(track.events)
  {
    track.height := Or(config.height, DefaultHeight(config.trackType));

    if config.autoHeight == Undefined {
      config.autoHeight := config.autoheight;
    }
    track.autoHeight := if config.autoHeight == Undefined then Bool(config.height == Undefined) else config.autoHeight;
    track.minHeight := Or(config.minHeight, Number(Min(Finite(50.0), ToNumber(track.height))));
    track.maxHeight := Or(config.maxHeight, Number(Max(Finite(500.0), ToNumber(track.height))));
  }

  /** The last lines of `igv.configTrack`: the visibility window, and the type if the track has none. */
  method ConfigTrackExtent(track: Track, config: TrackConfig)
    modifies track
    ensures var n := Normalize(config.State(), old(track.State()), Undefined).track;
      track.State() == old(track.State()).(visibilityWindow := n.visibilityWindow, trackType := n.trackType)
    ensures track.config == old(track.config)
    ensures track.hasView == old(track.hasView) && track.events == old(track.events)
  {
    if Truthy(config.visibilityWindow) {
      track.visibilityWindow := config.visibilityWindow;
    }

    if track.trackType == Undefined {
      track.trackType := config.trackType;
    }
  }

  /** `igv.setTrackLabel`: the track must have a view, whose first viewport shows the label. */
  method SetTrackLabel(track: Track, newName: JsVal)
    requires track.hasView
    modifies track
    ensures track.State() == old(track.State()).(name := newName)
    ensures track.events == old(track.events) + [Repaint]
    ensures track.hasView && track.config == old(track.config)
  {
    track.name := newName;
    track.events := track.events + [Repaint];
  }

  /** `igv.setTrackColor`: the view, if any, is repainted. */
  method SetTrackColor(track: Track, color: JsVal)
    modifies track
    ensures track.State() == old(track.State()).(color := color)
    ensures track.events == old(track.events) + (if track.hasView then [Repaint] else [])
    ensures track.hasView == old(track.hasView) && track.config == old(track.config)
  {
    track.color := color;
    if track.hasView {
      track.events := track.events + [Repaint];
    }
  }
}
