/** The map's menu dock: which analysis buttons are enabled for the selected geometry type, how
    each is drawn, and the dock's own state (the buffer radius and two popover flags). */
module MapMenuDock {
  import opened Wrappers

  /** The four analysis operations the dock offers. */
  datatype Operation = Buffer | Distance | Area | Centroid

  /** The button variants. */
  datatype Variant = Secondary | Ghost

  /** The `disabled=` comparison of each button: `selected` is the selected geometry's type tag,
      `None` when nothing is selected. */
  predicate Disabled(selected: Option<string>, op: Operation)
  {
    match op
    case Buffer => selected != Some("Point")
    case Distance => selected != Some("LineString")
    case Area => selected != Some("Polygon")
    case Centroid => selected != Some("Polygon")
  }

  /** The `variant=` comparison of each button, written separately from `disabled=`. */
  function VariantOf(selected: Option<string>, op: Operation): Variant
  {
    match op
    case Buffer => if selected == Some("Point") then Secondary else Ghost
    case Distance => if selected == Some("LineString") then Secondary else Ghost
    case Area => if selected == Some("Polygon") then Secondary else Ghost
    case Centroid => if selected == Some("Polygon") then Secondary else Ghost
  }

  /** The operations that can be started with `selected` selected, as a table by geometry type. */
  function EnabledFor(selected: Option<string>): set<Operation>
  {
    if selected == Some("Point") then {Buffer}
    else if selected == Some("LineString") then {Distance}
    else if selected == Some("Polygon") then {Area, Centroid}
    else {}
  }

  /** The buttons that are enabled are exactly those of the table. */
  lemma EnabledMatchesTable(selected: Option<string>, op: Operation)
    ensures !Disabled(selected, op) <==> op in EnabledFor(selected)
  {
  }

  /** A button is drawn as secondary exactly when it is enabled. */
  lemma VariantMatchesEnabled(selected: Option<string>, op: Operation)
    ensures VariantOf(selected, op) == Secondary <==> !Disabled(selected, op)
    ensures VariantOf(selected, op) == Ghost <==> Disabled(selected, op)
  {
  }

  /** With nothing selected, or a type with no operation, every button is disabled. */
  lemma NothingSelectedDisablesAll(selected: Option<string>, op: Operation)
    requires selected.None? || selected.value !in {"Point", "LineString", "Polygon"}
    ensures Disabled(selected, op)
  {
  }

  /** Buffer, Distance and Area are never enabled together: at most one of them is. */
  lemma AtMostOneMeasurement(selected: Option<string>)
    ensures |EnabledFor(selected) * {Buffer, Distance, Area}| <= 1
  {
    if selected == Some("Polygon") {
      assert EnabledFor(selected) * {Buffer, Distance, Area} == {Area};
    } else if selected == Some("Point") {
      assert EnabledFor(selected) * {Buffer, Distance, Area} == {Buffer};
    } else if selected == Some("LineString") {
      assert EnabledFor(selected) * {Buffer, Distance, Area} == {Distance};
    } else {
      assert EnabledFor(selected) * {Buffer, Distance, Area} == {};
    }
  }

  /** Area and Centroid are enabled together, and only for a Polygon; in particular the centroid
      of a LineString cannot be asked for from the dock. */
  lemma CentroidOnlyForPolygon(selected: Option<string>)
    ensures !Disabled(selected, Area) <==> !Disabled(selected, Centroid)
    ensures !Disabled(selected, Centroid) <==> selected == Some("Polygon")
    ensures Disabled(Some("LineString"), Centroid)
  {
  }

  /** A JavaScript number, as `parseFloat` of the radius input produces it. */
  datatype JsNumber = Finite(value: real) | NaN | Infinite(positive: bool)

  /** What the dock asks its parent to do. */
  datatype DockEvent = BufferRequested(radius: JsNumber) | DistanceRequested | AreaRequested | CentroidRequested

  class Dock {
    var bufferRadius: JsNumber
    var isBufferPopoverOpen: bool
    var isSearchPopoverOpen: bool

    /** The initial state: a radius of 1 and both popovers closed. */
    constructor()
      ensures bufferRadius == Finite(1.0)
      ensures !isBufferPopoverOpen && !isSearchPopoverOpen
    {
      bufferRadius := Finite(1.0);
      isBufferPopoverOpen := false;
      isSearchPopoverOpen := false;
    }

    /** Applying the buffer asks for a buffer of the current radius, then closes the buffer
        popover; nothing else changes. */
    method SubmitBuffer() returns (event: DockEvent)
      modifies this
      ensures event == BufferRequested(old(bufferRadius))
      ensures bufferRadius == old(bufferRadius)
      ensures !isBufferPopoverOpen
      ensures isSearchPopoverOpen == old(isSearchPopoverOpen)
    {
      event := BufferRequested(bufferRadius);
      isBufferPopoverOpen := false;
    }

    /** Editing the radius input stores the parsed number, whatever it is. */
    method ChangeRadius(parsed: JsNumber)
      modifies this
      ensures bufferRadius == parsed
      ensures isBufferPopoverOpen == old(isBufferPopoverOpen)
      ensures isSearchPopoverOpen == old(isSearchPopoverOpen)
    {
      bufferRadius := parsed;
    }

    /** The buffer popover's open/close notification. */
    method SetBufferPopoverOpen(open: bool)
      modifies this
      ensures isBufferPopoverOpen == open
      ensures bufferRadius == old(bufferRadius)
      ensures isSearchPopoverOpen == old(isSearchPopoverOpen)
    {
      isBufferPopoverOpen := open;
    }

    /** The search popover's open/close notification; the address search closes the popover
        through it after a found address. */
    method SetSearchPopoverOpen(open: bool)
      modifies this
      ensures isSearchPopoverOpen == open
      ensures bufferRadius == old(bufferRadius)
      ensures isBufferPopoverOpen == old(isBufferPopoverOpen)
    {
      isSearchPopoverOpen := open;
    }

    /** Pressing the Buffer trigger toggles its popover, unless the trigger is disabled. */
    method PressBufferTrigger(selected: Option<string>)
      modifies this
      ensures isBufferPopoverOpen == (if Disabled(selected, Buffer) then old(isBufferPopoverOpen)
                                      else !old(isBufferPopoverOpen))
      ensures bufferRadius == old(bufferRadius)
      ensures isSearchPopoverOpen == old(isSearchPopoverOpen)
    {
      if !Disabled(selected, Buffer) {
        isBufferPopoverOpen := !isBufferPopoverOpen;
      }
    }

    /** Pressing the Distance, Area or Centroid button: an enabled button asks for its operation;
        a disabled one does nothing. The dock's state does not change. */
    method PressOperation(selected: Option<string>, op: Operation) returns (event: Option<DockEvent>)
      requires op != Buffer
      ensures event.Some? <==> op in EnabledFor(selected)
      ensures event.Some? ==> event.value == (match op
                                              case Distance => DistanceRequested
                                              case Area => AreaRequested
                                              case _ => CentroidRequested)
    {
      EnabledMatchesTable(selected, op);
      if Disabled(selected, op) {
        event := None;
      } else if op == Distance {
        event := Some(DistanceRequested);
      } else if op == Area {
        event := Some(AreaRequested);
      } else {
        event := Some(CentroidRequested);
      }
    }
  }
}
