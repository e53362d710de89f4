/**
 * The track "gear" menu: `igv.trackMenuItemList`, its broken twin
 * `igv.BROKEN_trackMenuItemList`, the entry builder `igv.trackMenuItem`, the
 * commit handlers of the "Set track name", "Set track height" and "Remove
 * track" dialogs, and the right-click list `igv.trackPopupMenuItemList`.
 *
 * A menu entry is a record: its label, whether it carries the top-border
 * class, what clicking it does, and the `init` callback it carries. The
 * built-in entries open the shared one-line dialog; what its commit handler
 * then does is modelled by the Commit* methods below.
 */
module GearMenu {
  import opened Wrappers
  import opened JsNumbers
  import opened JsValues
  import opened NumericStrings
  import opened NumericStringFacts
  import opened TrackConfiguration
  import opened TrackNames

  /** A click handler supplied by a track variant. */
  type ClickRef = nat

  /** An element a track variant built itself, and whether it already has the top-border class. */
  datatype Element = Element(id: nat, borderTop: bool)

  /** An item returned by a track's `menuItemList`: a truthy `name`, or else its own element (`object`). */
  datatype TrackItem = TrackItem(name: JsVal, element: Element, click: ClickRef, init: JsVal)

  /** The text put into a fresh menu element, or the contributor's own element. */
  datatype Label = Text(text: JsVal) | Owned(element: nat)

  datatype Action =
    | OpenNameDialog(initialName: JsVal)     // the shared dialog, prefilled with the track name
    | OpenHeightDialog(initialHeight: int)   // the shared dialog, prefilled with the track's pixel height
    | Contributed(click: ClickRef)           // the contributor's own handler
    | Remove                                 // the shared dialog, asking to confirm the removal

  datatype MenuEntry = MenuEntry(content: Label, topBorder: bool, action: Action, init: JsVal)

  /** `igv.trackMenuItem`: a fresh element with the given text; the border only for a strict `true`. */
  function TrackMenuItem(menuItemLabel: string, action: Action, doAddTopBorder: JsVal): (e: MenuEntry)
    ensures e.content == Text(Str(menuItemLabel)) && e.action == action && e.init == Undefined
    ensures e.topBorder <==> doAddTopBorder == Bool(true)
  {
    MenuEntry(Text(Str(menuItemLabel)), doAddTopBorder == Bool(true), action, Undefined)
  }

  /** The entry made from the `i`-th contributed item; only the first gets the top border. */
  function ContributedEntry(item: TrackItem, i: nat): MenuEntry {
    if Truthy(item.name) then MenuEntry(Text(item.name), i == 0, Contributed(item.click), Or(item.init, Undefined))
    else MenuEntry(Owned(item.element.id), item.element.borderTop || i == 0, Contributed(item.click), Or(item.init, Undefined))
  }

  function Contributions(items: seq<TrackItem>): seq<MenuEntry> {
    seq(|items|, i requires 0 <= i < |items| => ContributedEntry(items[i], i))
  }

  function NameEntry(name: JsVal): MenuEntry {
    TrackMenuItem("Set track name", OpenNameDialog(name), Undefined)
  }

  function HeightEntry(clientHeight: int): MenuEntry {
    TrackMenuItem("Set track height", OpenHeightDialog(clientHeight), Undefined)
  }

  function RemoveEntry(): MenuEntry {
    TrackMenuItem("Remove track", Remove, Bool(true))
  }

  /**
   * The gear menu of a track with the given name, pixel height and
   * `removable` property, whose `menuItemList` hook is absent (None) or
   * returned the given items.
   */
  function Menu(name: JsVal, clientHeight: int, removable: JsVal, trackItems: Option<seq<TrackItem>>): seq<MenuEntry> {
    [NameEntry(name), HeightEntry(clientHeight)]
    + (if trackItems.Some? then Contributions(trackItems.value) else [])
    + (if removable != Bool(false) then [RemoveEntry()] else [])
  }

  /** `igv.trackMenuItemList(popover, trackView)`; the hook's result is passed in. */
  method TrackMenuItemList(track: Track, clientHeight: int, trackItems: Option<seq<TrackItem>>) returns (menuItems: seq<MenuEntry>)
    ensures menuItems == Menu(track.name, clientHeight, track.removable, trackItems)
  {
    menuItems := [];
    menuItems := menuItems + [TrackMenuItem("Set track name", OpenNameDialog(track.name), Undefined)];
    menuItems := menuItems + [TrackMenuItem("Set track height", OpenHeightDialog(clientHeight), Undefined)];

    if trackItems.Some? {
      var items := trackItems.value;
      if |items| > 0 {
        for i := 0 to |items|
          invariant menuItems == [NameEntry(track.name), HeightEntry(clientHeight)] + Contributions(items)[..i]
        {
          var entry;
          if Truthy(items[i].name) {
            entry := MenuEntry(Text(items[i].name), i == 0, Contributed(items[i].click), Or(items[i].init, Undefined));
          } else {
            entry := MenuEntry(Owned(items[i].element.id), items[i].element.borderTop || i == 0,
              Contributed(items[i].click), Or(items[i].init, Undefined));
          }
          assert Contributions(items)[..i + 1] == Contributions(items)[..i] + [entry];
          menuItems := menuItems + [entry];
        }
        assert Contributions(items)[..|items|] == Contributions(items);
      }
    }

    if track.removable != Bool(false) {
      menuItems := menuItems + [TrackMenuItem("Remove track", Remove, Bool(true))];
    }
  }

  /**
   * `igv.BROKEN_trackMenuItemList`: the contributed items are mapped, but
   * `menuItems.concat(mapped)` is discarded, so none of them reaches the menu.
   */
  method BrokenTrackMenuItemList(track: Track, clientHeight: int, trackItems: Option<seq<TrackItem>>) returns (menuItems: seq<MenuEntry>)
    ensures menuItems == Menu(track.name, clientHeight, track.removable, None)
  {
    menuItems := [];
    menuItems := menuItems + [TrackMenuItem("Set track name", OpenNameDialog(track.name), Undefined)];
    menuItems := menuItems + [TrackMenuItem("Set track height", OpenHeightDialog(clientHeight), Undefined)];

    if trackItems.Some? {
      var items := trackItems.value;
      if |items| > 0 {
        var mapped := [];
        for i := 0 to |items|
          invariant mapped == Contributions(items)[..i]
        {
          assert Contributions(items)[..i + 1] == Contributions(items)[..i] + [ContributedEntry(items[i], i)];
          mapped := mapped + [ContributedEntry(items[i], i)];
        }
        // `menuItems.concat(mapped)` builds a new list and drops it: menuItems keeps no contribution
      }
    }

    if track.removable != Bool(false) {
      menuItems := menuItems + [TrackMenuItem("Remove track", Remove, Bool(true))];
    }
  }

  /** The entry at each position of the gear menu. */
  lemma MenuEntryAt(name: JsVal, clientHeight: int, removable: JsVal, trackItems: Option<seq<TrackItem>>, k: nat)
    requires k < |Menu(name, clientHeight, removable, trackItems)|
    ensures var items := if trackItems.Some? then trackItems.value else [];
      && |Menu(name, clientHeight, removable, trackItems)| == 2 + |items| + (if removable != Bool(false) then 1 else 0)
      && Menu(name, clientHeight, removable, trackItems)[k] ==
        if k == 0 then NameEntry(name)
        else if k == 1 then HeightEntry(clientHeight)
        else if k < 2 + |items| then ContributedEntry(items[k - 2], k - 2)
        else RemoveEntry()
  {
    var items := if trackItems.Some? then trackItems.value else [];
    var tail := if removable != Bool(false) then [RemoveEntry()] else [];
    assert Menu(name, clientHeight, removable, trackItems) == [NameEntry(name), HeightEntry(clientHeight)] + Contributions(items) + tail;
  }

  /**
   * The layout of the gear menu: name, height, the contributed items in the
   * order the hook returned them with their click and init carried over,
   * then "Remove track" unless `removable` is exactly false.
   */
  lemma MenuLayout(name: JsVal, clientHeight: int, removable: JsVal, trackItems: Option<seq<TrackItem>>)
    ensures var m := Menu(name, clientHeight, removable, trackItems);
      var items := if trackItems.Some? then trackItems.value else [];
      && |m| == 2 + |items| + (if removable != Bool(false) then 1 else 0)
      && m[0].content == Text(Str("Set track name")) && m[0].action == OpenNameDialog(name)
      && m[1].content == Text(Str("Set track height")) && m[1].action == OpenHeightDialog(clientHeight)
      && (forall k :: 0 <= k < |items| ==>
            m[2 + k].action == Contributed(items[k].click) && m[2 + k].init == Or(items[k].init, Undefined)
            && m[2 + k].content == (if Truthy(items[k].name) then Text(items[k].name) else Owned(items[k].element.id)))
      && (removable != Bool(false) ==> m[|m| - 1].content == Text(Str("Remove track")) && m[|m| - 1].action == Remove)
  {
    var m := Menu(name, clientHeight, removable, trackItems);
    var items := if trackItems.Some? then trackItems.value else [];
    MenuEntryAt(name, clientHeight, removable, trackItems, 0);
    MenuEntryAt(name, clientHeight, removable, trackItems, 1);
    MenuEntryAt(name, clientHeight, removable, trackItems, |m| - 1);
    forall k | 0 <= k < |items|
      ensures m[2 + k].action == Contributed(items[k].click) && m[2 + k].init == Or(items[k].init, Undefined)
      ensures m[2 + k].content == (if Truthy(items[k].name) then Text(items[k].name) else Owned(items[k].element.id))
    {
      MenuEntryAt(name, clientHeight, removable, trackItems, 2 + k);
    }
  }

  /**
   * When no contributor element arrives already bordered, the top border is
   * on exactly two entries at most: the first contributed one and "Remove track".
   */
  lemma MenuBorders(name: JsVal, clientHeight: int, removable: JsVal, trackItems: Option<seq<TrackItem>>)
    requires trackItems.Some? ==> forall k :: 0 <= k < |trackItems.value| ==>
      Truthy(trackItems.value[k].name) || !trackItems.value[k].element.borderTop
    ensures var m := Menu(name, clientHeight, removable, trackItems);
      var n := if trackItems.Some? then |trackItems.value| else 0;
      forall k :: 0 <= k < |m| ==> (m[k].topBorder <==> (k == 2 && n > 0) || (k == 2 + n && removable != Bool(false)))
  {
    var m := Menu(name, clientHeight, removable, trackItems);
    var n := if trackItems.Some? then |trackItems.value| else 0;
    forall k | 0 <= k < |m|
      ensures m[k].topBorder <==> (k == 2 && n > 0) || (k == 2 + n && removable != Bool(false))
    {
      MenuEntryAt(name, clientHeight, removable, trackItems, k);
    }
  }

  /**
   * The class is added to the contributor's own element and never removed,
   * so an element that comes back already bordered keeps its border even
   * when it is no longer first.
   */
  lemma StaleBorderPersists(item: TrackItem, i: nat)
    requires !Truthy(item.name) && item.element.borderTop
    ensures ContributedEntry(item, i).topBorder
  {
  }

  /** Whatever the hook returns, the broken builder gives the menu of a track without contributions. */
  lemma BrokenMenuHasNoContributions(name: JsVal, clientHeight: int, removable: JsVal, items: seq<TrackItem>)
    ensures Menu(name, clientHeight, removable, None) == Menu(name, clientHeight, removable, Some([]))
    ensures |Menu(name, clientHeight, removable, Some(items))| == |Menu(name, clientHeight, removable, None)| + |items|
  {
  }

  /**
   * The track after the "Set track height" dialog commits `number`. A
   * minimum above the new height is lowered to it; a maximum below it makes
   * the source assign `minHeight` again, not `maxHeight`; autoHeight goes off.
   */
  function HeightCommitted(t: TrackState, number: JsNumber): (r: TrackState)
    ensures r.autoHeight == Bool(false)
    ensures r.maxHeight == t.maxHeight
    ensures r.minHeight == (
      if (t.minHeight != Undefined && Less(number, ToNumber(t.minHeight)))
        || (t.maxHeight != Undefined && Less(ToNumber(t.maxHeight), number))
      then Number(number) else t.minHeight)
    ensures number == NaN ==> r.minHeight == t.minHeight
    ensures r == t.(minHeight := r.minHeight, autoHeight := Bool(false))
  {
    var lowered := if t.minHeight != Undefined && Less(number, ToNumber(t.minHeight)) then t.(minHeight := Number(number)) else t;
    var raised := if lowered.maxHeight != Undefined && Less(ToNumber(lowered.maxHeight), number) then lowered.(minHeight := Number(number)) else lowered;
    raised.(autoHeight := Bool(false))
  }

  /** The handler of "Set track name": sanitise the input, relabel the track, update the view. */
  method CommitTrackName(track: Track, input: string)
    requires track.hasView
    modifies track
    ensures track.State() == old(track.State()).(name := Str(ParseAlphanumeric(input)))
    ensures track.events == old(track.events) + [Repaint, Update]
    ensures track.hasView && track.config == old(track.config)
  {
    var alphanumeric := ParseAlphanumeric(input);
    // parseAlphanumeric never yields undefined, so the guard `undefined !== alphanumeric` always holds
    SetTrackLabel(track, Str(alphanumeric));
    track.events := track.events + [Update];
  }

  /** The handler of "Set track height": parse the input, adjust the bounds, resize, turn autoHeight off. */
  method CommitTrackHeight(track: Track, input: string)
    modifies track
    ensures track.State() == HeightCommitted(old(track.State()), ParseFloat(input))
    ensures track.events == old(track.events) + [SetTrackHeight(ParseFloat(input))]
    ensures track.hasView == old(track.hasView) && track.config == old(track.config)
  {
    var number := ParseFloat(input);
    // `undefined !== number` always holds: parseFloat yields a number, NaN included
    if track.minHeight != Undefined && Less(number, ToNumber(track.minHeight)) {
      track.minHeight := Number(number);
    }
    if track.maxHeight != Undefined && Less(ToNumber(track.maxHeight), number) {
      track.minHeight := Number(number);
    }
    track.events := track.events + [SetTrackHeight(number)];
    track.autoHeight := Bool(false);
  }

  /** The handler of "Remove track": hide the menu, ask the browser to remove the track. */
  method ConfirmRemoveTrack(track: Track)
    modifies track
    ensures track.State() == old(track.State())
    ensures track.events == old(track.events) + [PopoverHidden, TrackRemoved]
    ensures track.hasView == old(track.hasView) && track.config == old(track.config)
  {
    track.events := track.events + [PopoverHidden];
    track.events := track.events + [TrackRemoved];
  }

  /**
   * The defect of the height handler: a height above both bounds is written
   * to minHeight, so afterwards minHeight exceeds the unchanged maxHeight.
   */
  lemma HeightAboveMaximumRaisesMinimum(t: TrackState, low: real, high: real, x: real)
    requires t.minHeight == Num(low) && t.maxHeight == Num(high)
    requires low <= high < x
    ensures var r := HeightCommitted(t, Finite(x));
      r.minHeight == Num(x) && r.maxHeight == Num(high) && Less(ToNumber(r.maxHeight), ToNumber(r.minHeight))
  {
  }

  /** An empty or non-numeric height parses to NaN: both bounds stay, yet autoHeight goes off. */
  lemma BlankHeightTurnsOffAutoHeight(t: TrackState, input: string)
    requires forall k :: 0 <= k < |input| ==> IsStrWhiteSpace(input[k])
    ensures var r := HeightCommitted(t, ParseFloat(input));
      r.minHeight == t.minHeight && r.maxHeight == t.maxHeight && r.autoHeight == Bool(false)
  {
    BlankStrings(input);
  }

  /**
   * A `'wig'` track configured without a height gets height 50, bounds 50
   * and 500 and autoHeight on; committing the height "30" then lowers the
   * minimum to 30 and turns autoHeight off.
   */
  lemma WigTrackResized(c: ConfigState, t: TrackState, defaultColor: JsVal)
    requires c.trackType == Str("wig") && c.height == Undefined
    requires c.autoHeight == Undefined && c.autoheight == Undefined
    requires c.minHeight == Undefined && c.maxHeight == Undefined
    ensures var configured := Normalize(c, t, defaultColor).track;
      && configured.height == Num(50.0) && configured.minHeight == Num(50.0)
      && configured.maxHeight == Num(500.0) && configured.autoHeight == Bool(true)
      && var resized := HeightCommitted(configured, ParseFloat("30"));
      resized.autoHeight == Bool(false) && resized.minHeight == Num(30.0) && resized.maxHeight == Num(500.0)
  {
    DecimalStringRoundTrip(30);
    assert DecimalString(30) == "30";
  }

  /** What `igv.trackPopupMenuItemList` hands to a track's `popupMenuItemList` hook. */
  datatype PopupRequest = PopupRequest(popover: nat, viewport: nat, genomicLocation: JsVal, x: JsVal, y: JsVal)

  /**
   * `igv.trackPopupMenuItemList`: the hook's list for the clicked location,
   * or undefined (None) when the track has no such hook.
   */
  function TrackPopupMenuItemList<T>(hook: Option<PopupRequest -> seq<T>>, popover: nat, viewport: nat,
                                     genomicLocation: JsVal, xOffset: JsVal, yOffset: JsVal): (r: Option<seq<T>>)
    ensures r.Some? <==> hook.Some?
    ensures hook.Some? ==> r.value == hook.value(PopupRequest(popover, viewport, genomicLocation, xOffset, yOffset))
  {
    match hook
    case None => None
    case Some(f) => Some(f(PopupRequest(popover, viewport, genomicLocation, xOffset, yOffset)))
  }
}
